/** The state of one `MultiStateView` as a value, and each of its operations as
    a function from the state before to the state after (and the operation's
    result). The class `MultiStateViews.MultiStateView` performs the same
    operations in place; its methods are proved to agree with these functions,
    and what the widget promises is proved here as lemmas about them.

    Views are identified by `ViewId`s. A view the host supplies is a
    `HostView`; a view the widget inflates from a layout is a `BuiltView`,
    numbered in allocation order, so a newly inflated view differs from every
    view seen before. What the model tracks of a view (visibility, the text of
    its `error_title` and `tap_to_retry` slots, its click listener and the layout
    it came from) is kept in one map; a view absent from the map has Android's
    defaults: VISIBLE, no text, no listener. */
module WidgetModel {
  import opened Base
  import opened ContentStates
  import opened SavedStates

  datatype ViewId = HostView(n: nat) | BuiltView(n: nat)

  /** A click listener, by identity. */
  type Listener = nat

  datatype Visibility = Visible | Invisible | Gone

  datatype ViewAttrs = ViewAttrs(
    visibility: Visibility,
    title: JString,
    retryText: JString,
    onClick: Option<Listener>,
    layout: Option<int32>)

  const DefaultAttrs := ViewAttrs(Visible, None, None, None, None)

  function AttrsOf(attrs: map<ViewId, ViewAttrs>, v: ViewId): ViewAttrs {
    if v in attrs then attrs[v] else DefaultAttrs
  }

  predicate Distinct(s: seq<ViewId>) {
    forall i, j :: 0 <= i < j < |s| ==> s[i] != s[j]
  }

  /** The four view fields: `mContentView`, supplied by the host, and the
      three auxiliary views the widget builds and caches. */
  datatype StateViews = StateViews(
    content: Option<ViewId>,
    loading: Option<ViewId>,
    networkError: Option<ViewId>,
    generalError: Option<ViewId>)

  /** Every field of the widget, and the children and view attributes it
      changes in the framework. `inflatedVisibility` is the visibility the
      widget's layouts give a freshly inflated root view. */
  datatype Widget = Widget(
    viewState: ViewData,
    views: StateViews,
    tapToRetryClickListener: Option<Listener>,
    children: seq<ViewId>,
    attrs: map<ViewId, ViewAttrs>,
    nextBuilt: nat,
    inflatedVisibility: Visibility)

  // ---------------------------------------------------------------------
  // Invariants

  /** The view exists: any host view, or a view inflated already. */
  predicate Exists(w: Widget, v: ViewId) {
    v.BuiltView? ==> v.n < w.nextBuilt
  }

  predicate Known(w: Widget, v: Option<ViewId>) {
    v.Some? ==> Exists(w, v.value)
  }

  /** The cached auxiliary view exists, was inflated by the widget, and is a child. */
  predicate CachedChild(w: Widget, v: Option<ViewId>) {
    v.Some? ==> v.value.BuiltView? && v.value.n < w.nextBuilt && v.value in w.children
  }

  /** Every id the widget holds refers to an existing view, the children are
      distinct, and each cached auxiliary view is a container-built child. */
  predicate Valid(w: Widget) {
    && (forall i :: 0 <= i < |w.children| ==> Exists(w, w.children[i]))
    && (forall v :: v in w.attrs ==> Exists(w, v))
    && Distinct(w.children)
    && Known(w, w.views.content)
    && CachedChild(w, w.views.loading)
    && CachedChild(w, w.views.networkError)
    && CachedChild(w, w.views.generalError)
  }

  // ---------------------------------------------------------------------
  // The one-visible-child invariant, which the widget itself only checks in
  // debug builds after a state change.

  /** Every child other than `shown` is GONE. */
  predicate OnlyShownVisible(children: seq<ViewId>, attrs: map<ViewId, ViewAttrs>, shown: Option<ViewId>) {
    forall i :: 0 <= i < |children| && Some(children[i]) != shown ==>
      AttrsOf(attrs, children[i]).visibility == Gone
  }

  /** Every child other than the current state's view is GONE. */
  predicate OnlyStateViewVisible(w: Widget) {
    OnlyShownVisible(w.children, w.attrs, StateView(w, w.viewState.state))
  }

  /** The number of children whose visibility is not GONE. */
  function NonGoneCount(children: seq<ViewId>, attrs: map<ViewId, ViewAttrs>): nat {
    if children == [] then 0
    else
      var last := if AttrsOf(attrs, children[|children| - 1]).visibility != Gone then 1 else 0;
      NonGoneCount(children[..|children| - 1], attrs) + last
  }

  // ---------------------------------------------------------------------
  // Queries

  /** `getState()`: the current state, never `null`. */
  function GetState(w: Widget): (s: ContentState)
    ensures w.viewState.state.None? ==> s == Content
    ensures w.viewState.state.Some? ==> s == w.viewState.state.value
  {
    if w.viewState.state.Some? then w.viewState.state.value else Content
  }

  /** The view cached for a state, without building anything. */
  function StateView(w: Widget, s: Option<ContentState>): Option<ViewId> {
    ViewOf(w.views, s)
  }

  /** The same lookup on the view fields alone; kept separate so that proofs
      about a widget whose other fields change need not unfold it. */
  function ViewOf(views: StateViews, s: Option<ContentState>): Option<ViewId> {
    match s
    case None => None
    case Some(Content) => views.content
    case Some(Loading) => views.loading
    case Some(ErrorNetwork) => views.networkError
    case Some(ErrorGeneral) => views.generalError
  }

  /** `isViewInternal`: the view is one of the auxiliary views. As Java compares
      references, `null` counts as internal while any auxiliary view is unbuilt. */
  function IsViewInternal(w: Widget, v: Option<ViewId>): (r: bool)
    ensures v.None? ==> (r <==> w.views.loading.None? || w.views.networkError.None? || w.views.generalError.None?)
    ensures v.Some? ==> (r <==> Some(v.value) in {w.views.loading, w.views.networkError, w.views.generalError})
  {
    v == w.views.networkError || v == w.views.generalError || v == w.views.loading
  }

  /** The attributes a freshly built view of kind `k` has: the layout's
      visibility, the configured texts, and the retry listener on error views. */
  function Fresh(w: Widget, k: ContentState): ViewAttrs {
    match k
    case Content => DefaultAttrs
    case Loading =>
      ViewAttrs(w.inflatedVisibility, None, None, None, Some(w.viewState.loadingLayoutResId))
    case ErrorNetwork =>
      ViewAttrs(w.inflatedVisibility, w.viewState.networkErrorTitleString, w.viewState.tapToRetryString,
        w.tapToRetryClickListener, Some(w.viewState.networkErrorLayoutResId))
    case ErrorGeneral =>
      ViewAttrs(w.inflatedVisibility, w.viewState.generalErrorTitleString, w.viewState.tapToRetryString,
        w.tapToRetryClickListener, Some(w.viewState.generalErrorLayoutResId))
  }

  /** The widget with the cache field of state `k` set to `v` (for CONTENT, the content view). */
  function WithCache(w: Widget, k: ContentState, v: Option<ViewId>): (w': Widget)
    ensures StateView(w', Some(k)) == v
    ensures forall k' :: k' != k ==> StateView(w', Some(k')) == StateView(w, Some(k'))
  {
    match k
    case Content => w.(views := w.views.(content := v))
    case Loading => w.(views := w.views.(loading := v))
    case ErrorNetwork => w.(views := w.views.(networkError := v))
    case ErrorGeneral => w.(views := w.views.(generalError := v))
  }

  /** What building the view of state `k` does: a new view, with the
      attributes `Fresh` gives it, cached for `k` and appended to the children. */
  function Built(w: Widget, k: ContentState): (r: Widget) {
    var v := BuiltView(w.nextBuilt);
    WithCache(w, k, Some(v)).(nextBuilt := w.nextBuilt + 1, attrs := w.attrs[v := Fresh(w, k)],
      children := w.children + [v])
  }

  // ---------------------------------------------------------------------
  // Primitive effects on views

  function SetVisibility(w: Widget, v: ViewId, vis: Visibility): (r: Widget) {
    w.(attrs := w.attrs[v := AttrsOf(w.attrs, v).(visibility := vis)])
  }

  function SetTitle(w: Widget, v: ViewId, text: JString): (r: Widget) {
    w.(attrs := w.attrs[v := AttrsOf(w.attrs, v).(title := text)])
  }

  function SetRetryText(w: Widget, v: ViewId, text: JString): (r: Widget) {
    w.(attrs := w.attrs[v := AttrsOf(w.attrs, v).(retryText := text)])
  }

  function SetOnClick(w: Widget, v: ViewId, listener: Option<Listener>): (r: Widget) {
    w.(attrs := w.attrs[v := AttrsOf(w.attrs, v).(onClick := listener)])
  }

  /** `View.inflate` of a layout: a new view with the layout's initial visibility. */
  function Inflate(w: Widget, layout: int32): (r: (Widget, ViewId)) {
    var v := BuiltView(w.nextBuilt);
    (w.(nextBuilt := w.nextBuilt + 1,
        attrs := w.attrs[v := ViewAttrs(w.inflatedVisibility, None, None, None, Some(layout))]), v)
  }

  /** `ViewGroup.addView(child, index)` of the framework: a `null` child is an
      illegal argument, a view that already has this parent an illegal state, an
      index past the end out of bounds; a negative index appends. */
  function SuperAddView(w: Widget, child: Option<ViewId>, index: int): (r: (Widget, Outcome<Exception>)) {
    if child.None? then (w, Fail(IllegalArgumentException))
    else if child.value in w.children then (w, Fail(IllegalStateException))
    else if index > |w.children| then (w, Fail(IndexOutOfBoundsException))
    else (w.(children := InsertAt(w.children, child.value, if index < 0 then |w.children| else index)), Pass)
  }

  function InsertAt(s: seq<ViewId>, v: ViewId, i: nat): (r: seq<ViewId>)
    requires i <= |s|
  {
    s[..i] + [v] + s[i..]
  }

  // ---------------------------------------------------------------------
  // The operations of the widget. They call each other as the Java methods
  // do (setState -> getStateView -> the view getters -> addView ->
  // addContentView -> setContentView -> setState); the numbers in the
  // decreases clauses order that cycle, and addView ranks low exactly when
  // its child is one of the widget's own views, which is how the getters call it.

  /** `setState(ContentState)`. */
  function SetState(w: Widget, s: Option<ContentState>): (r: Widget)
    decreases 5
  {
    if s == w.viewState.state then w
    else if w.views.content.None? then w
    else
      var (w1, previousView) := GetStateView(w, w.viewState.state);
      var (w2, newStateView) := GetStateView(HideView(w1, previousView), s);
      var w3 := ShowView(w2, newStateView, s);
      w3.(viewState := w3.viewState.(state := s))
  }

  /** Hiding the previous state's view, if there is one. */
  function HideView(w: Widget, v: Option<ViewId>): (r: Widget) {
    if v.Some? then SetVisibility(w, v.value, Gone) else w
  }

  /** Showing the new state's view, if there is one, the general-error view
      with its title refreshed from the configured string first. */
  function ShowView(w: Widget, v: Option<ViewId>, s: Option<ContentState>): (r: Widget) {
    if v.None? then w
    else
      var w' := if s == Some(ErrorGeneral) then SetTitle(w, v.value, w.viewState.generalErrorTitleString) else w;
      SetVisibility(w', v.value, Visible)
  }

  /** `setState(int)`. */
  function SetStateFromInt(w: Widget, nativeInt: int32): (r: Widget) {
    SetState(w, ContentStates.GetState(nativeInt))
  }

  /** `getStateView`. */
  function GetStateView(w: Widget, s: Option<ContentState>): (r: (Widget, Option<ViewId>))
    decreases 4
  {
    match s
    case None => (w, None)
    case Some(Content) => (w, w.views.content)
    case Some(Loading) => var (w', v) := GetLoadingView(w); (w', Some(v))
    case Some(ErrorNetwork) => var (w', v) := GetNetworkErrorView(w); (w', Some(v))
    case Some(ErrorGeneral) => var (w', v) := GetGeneralErrorView(w); (w', Some(v))
  }

  /** `getLoadingView`. */
  function GetLoadingView(w: Widget): (r: (Widget, ViewId))
    decreases 3
  {
    if w.views.loading.Some? then (w, w.views.loading.value)
    else
      var (w1, v) := Inflate(w, w.viewState.loadingLayoutResId);
      var w2 := w1.(views := w1.views.(loading := Some(v)));
      var (w3, _) := AddView(w2, Some(v));
      (w3, v)
  }

  /** `getNetworkErrorView`. */
  function GetNetworkErrorView(w: Widget): (r: (Widget, ViewId))
    decreases 3
  {
    if w.views.networkError.Some? then (w, w.views.networkError.value)
    else
      var (w1, v) := Inflate(w, w.viewState.networkErrorLayoutResId);
      var w2 := w1.(views := w1.views.(networkError := Some(v)));
      var w3 := SetTitle(w2, v, w2.viewState.networkErrorTitleString);
      var w4 := SetRetryText(w3, v, w3.viewState.tapToRetryString);
      var w5 := SetOnClick(w4, v, w4.tapToRetryClickListener);
      var (w6, _) := AddView(w5, Some(v));
      (w6, v)
  }

  /** `getGeneralErrorView`. */
  function GetGeneralErrorView(w: Widget): (r: (Widget, ViewId))
    decreases 3
  {
    if w.views.generalError.Some? then (w, w.views.generalError.value)
    else
      var (w1, v) := Inflate(w, w.viewState.generalErrorLayoutResId);
      var w2 := w1.(views := w1.views.(generalError := Some(v)));
      var w3 := SetTitle(w2, v, w2.viewState.generalErrorTitleString);
      var w4 := SetRetryText(w3, v, w3.viewState.tapToRetryString);
      var w5 := SetOnClick(w4, v, w4.tapToRetryClickListener);
      var (w6, _) := AddView(w5, Some(v));
      (w6, v)
  }

  /** `addView(child)`. */
  function AddView(w: Widget, child: Option<ViewId>): (r: (Widget, Outcome<Exception>))
    decreases if IsViewInternal(w, child) then 2 else 12
  {
    AddViewAt(w, child, -1)
  }

  /** `addView(child, index)`. */
  function AddViewAt(w: Widget, child: Option<ViewId>, index: int): (r: (Widget, Outcome<Exception>))
    decreases if IsViewInternal(w, child) then 1 else 11
  {
    if IsViewInternal(w, child) then SuperAddView(w, child, index)
    else
      var (w1, r) := AddContentView(w, child);
      if r.Fail? then (w1, r) else SuperAddView(w1, child, index)
  }

  /** `addContentView`. */
  function AddContentView(w: Widget, child: Option<ViewId>): (r: (Widget, Outcome<Exception>))
    decreases 10
  {
    if w.views.content.Some? && w.views.content != child then (w, Fail(IllegalStateException))
    else (SetContentView(w, child), Pass)
  }

  /** `setContentView`. */
  function SetContentView(w: Widget, child: Option<ViewId>): (r: Widget)
    decreases 9
    ensures r == w.(views := w.views.(content := child))
  {
    var w1 := w.(views := w.views.(content := child));
    SetState(w1, w1.viewState.state)
  }

  /** `setOnTapToRetryClickListener`. */
  function SetOnTapToRetryClickListener(w: Widget, listener: Option<Listener>): (r: Widget) {
    var w1 := w.(tapToRetryClickListener := listener);
    var w2 := if w1.views.networkError.Some? then SetOnClick(w1, w1.views.networkError.value, listener) else w1;
    if w2.views.generalError.Some? then SetOnClick(w2, w2.views.generalError.value, listener) else w2
  }

  /** `setCustomErrorString`. */
  function SetCustomErrorString(w: Widget, text: JString): (r: Widget) {
    var w1 := w.(viewState := w.viewState.(customErrorString := text));
    if w1.views.generalError.Some? then SetTitle(w1, w1.views.generalError.value, text) else w1
  }

  /** `setLoadingLayoutResourceId`. */
  function SetLoadingLayoutResourceId(w: Widget, layout: int32): (r: Widget) {
    w.(viewState := w.viewState.(loadingLayoutResId := layout))
  }

  /** `setViewState`: `setState` first, with the strings and layouts still
      those of before; then the other fields; the custom error string last,
      pushed into the general-error view even when it is `null`. */
  function SetViewState(w: Widget, d: ViewData): (r: Widget) {
    var w1 := SetState(w, d.state);
    var w2 := w1.(viewState := w1.viewState.(
      tapToRetryString := d.tapToRetryString,
      generalErrorTitleString := d.generalErrorTitleString,
      networkErrorTitleString := d.networkErrorTitleString,
      generalErrorLayoutResId := d.generalErrorLayoutResId,
      networkErrorLayoutResId := d.networkErrorLayoutResId,
      loadingLayoutResId := d.loadingLayoutResId));
    SetCustomErrorString(w2, d.customErrorString)
  }

  /** `setViewState` in the order its purpose calls for: the configuration
      fields first, then `setState`, and the custom error string pushed into
      the general-error view only when there is one. */
  function SetViewStateCorrected(w: Widget, d: ViewData): (r: Widget) {
    var w1 := w.(viewState := d.(state := w.viewState.state));
    var w2 := SetState(w1, d.state);
    if d.customErrorString.Some? then SetCustomErrorString(w2, d.customErrorString) else w2
  }

  /** `onRestoreInstanceState`: the new state, and what is passed on to the
      framework's own restore (or the exception thrown instead). */
  function OnRestoreInstanceState(w: Widget, state: Parcelable): (r: (Widget, Result<Parcelable, Exception>)) {
    match state
    case SavedState(superState, data) =>
      if data.None? then (w, Failure(NullPointerException))
      else (SetViewState(w, data.value), Success(superState))
    case OtherParcelable(_) => (w, Success(state))
  }

  /** `onSaveInstanceState`: the framework's state wrapped with the record. */
  function OnSaveInstanceState(w: Widget, superState: Parcelable): (p: Parcelable)
    ensures OnRestoreInstanceState(w, p).1 == Success(superState)
  {
    SavedState(superState, Some(w.viewState))
  }

  /** The constructor: `parseAttrs` supplies the layout ids and strings (from
      the attribute set or the built-in defaults) and the `msvState` tag, then
      calls `setState` with it. */
  function Create(loadingLayout: int32, generalErrorLayout: int32, networkErrorLayout: int32,
                  networkErrorTitle: string, generalErrorTitle: string, tapToRetry: string,
                  stateAttribute: int32, inflatedVisibility: Visibility): (w: Widget)
    ensures w.viewState.state == Some(Content)
    ensures w.views == StateViews(None, None, None, None) && w.children == [] && w.tapToRetryClickListener == None
    ensures w.viewState.customErrorString == None
    ensures w.viewState.networkErrorTitleString == Some(networkErrorTitle)
    ensures w.viewState.generalErrorTitleString == Some(generalErrorTitle)
    ensures w.viewState.tapToRetryString == Some(tapToRetry)
    ensures w.viewState.loadingLayoutResId == loadingLayout
    ensures w.viewState.generalErrorLayoutResId == generalErrorLayout
    ensures w.viewState.networkErrorLayoutResId == networkErrorLayout
    ensures w.inflatedVisibility == inflatedVisibility
    ensures Valid(w) && OnlyStateViewVisible(w)
  {
    var w := Widget(InitialData(Some(Content)), StateViews(None, None, None, None), None, [], map[], 0, inflatedVisibility);
    var w1 := w.(viewState := w.viewState.(
      loadingLayoutResId := loadingLayout,
      generalErrorLayoutResId := generalErrorLayout,
      networkErrorLayoutResId := networkErrorLayout,
      networkErrorTitleString := Some(networkErrorTitle),
      generalErrorTitleString := Some(generalErrorTitle),
      tapToRetryString := Some(tapToRetry)));
    SetStateFromInt(w1, stateAttribute)
  }
}
