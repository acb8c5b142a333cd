/** What the widget promises, proved about the functions of `WidgetModel`. */
module WidgetProperties {
  import opened Base
  import opened ContentStates
  import opened SavedStates
  import opened WidgetModel

  // ---------------------------------------------------------------------
  // The lazy view cache

  /** A view inflated now is not yet a child, nor described in `attrs`. */
  lemma FreshViewIsNew(w: Widget)
    requires Valid(w)
    ensures BuiltView(w.nextBuilt) !in w.children
    ensures BuiltView(w.nextBuilt) !in w.attrs
  {
  }

  /** Appending is inserting at the end. */
  lemma InsertAtEnd(s: seq<ViewId>, v: ViewId)
    ensures InsertAt(s, v, |s|) == s + [v]
  {
    assert s[..|s|] == s;
  }

  /** `addView` of one of the widget's own views that is not yet a child appends it. */
  lemma InternalAddAppends(w: Widget, v: ViewId)
    requires IsViewInternal(w, Some(v)) && v !in w.children
    ensures AddView(w, Some(v)) == (w.(children := w.children + [v]), Pass)
  {
    InsertAtEnd(w.children, v);
  }

  lemma LoadingViewBuilt(w: Widget)
    requires Valid(w) && w.views.loading.None?
    ensures GetLoadingView(w) == (Built(w, Loading), BuiltView(w.nextBuilt))
  {
    FreshViewIsNew(w);
    var v := BuiltView(w.nextBuilt);
    InsertAtEnd(w.children, v);
    var (w1, _) := Inflate(w, w.viewState.loadingLayoutResId);
    var w2 := w1.(views := w1.views.(loading := Some(v)));
    InternalAddAppends(w2, v);
  }

  lemma NetworkErrorViewBuilt(w: Widget)
    requires Valid(w) && w.views.networkError.None?
    ensures GetNetworkErrorView(w) == (Built(w, ErrorNetwork), BuiltView(w.nextBuilt))
  {
    FreshViewIsNew(w);
    var v := BuiltView(w.nextBuilt);
    InsertAtEnd(w.children, v);
    var (w1, _) := Inflate(w, w.viewState.networkErrorLayoutResId);
    var w2 := w1.(views := w1.views.(networkError := Some(v)));
    var w5 := SetOnClick(SetRetryText(SetTitle(w2, v, w2.viewState.networkErrorTitleString), v,
      w2.viewState.tapToRetryString), v, w2.tapToRetryClickListener);
    assert w5.attrs == w.attrs[v := Fresh(w, ErrorNetwork)];
    InternalAddAppends(w5, v);
  }

  lemma GeneralErrorViewBuilt(w: Widget)
    requires Valid(w) && w.views.generalError.None?
    ensures GetGeneralErrorView(w) == (Built(w, ErrorGeneral), BuiltView(w.nextBuilt))
  {
    FreshViewIsNew(w);
    var v := BuiltView(w.nextBuilt);
    InsertAtEnd(w.children, v);
    var (w1, _) := Inflate(w, w.viewState.generalErrorLayoutResId);
    var w2 := w1.(views := w1.views.(generalError := Some(v)));
    var w5 := SetOnClick(SetRetryText(SetTitle(w2, v, w2.viewState.generalErrorTitleString), v,
      w2.viewState.tapToRetryString), v, w2.tapToRetryClickListener);
    assert w5.attrs == w.attrs[v := Fresh(w, ErrorGeneral)];
    InternalAddAppends(w5, v);
  }

  /** Each auxiliary view getter builds its view only when none is cached:
      then the new view has the configured attributes, is cached, and is
      appended to the children once, the single-content guard being bypassed
      because the field is set before `addView`; otherwise nothing changes and
      the cached view is returned. */
  lemma GetStateViewBuildsOnce(w: Widget, s: Option<ContentState>)
    requires Valid(w)
    ensures s.None? ==> GetStateView(w, s) == (w, None)
    ensures s == Some(Content) ==> GetStateView(w, s) == (w, w.views.content)
    ensures StateView(w, s).Some? ==> GetStateView(w, s) == (w, StateView(w, s))
    ensures s.Some? && s != Some(Content) && StateView(w, s).None? ==>
      GetStateView(w, s) == (Built(w, s.value), Some(BuiltView(w.nextBuilt)))
  {
    if s == Some(Loading) && w.views.loading.None? {
      LoadingViewBuilt(w);
    } else if s == Some(ErrorNetwork) && w.views.networkError.None? {
      NetworkErrorViewBuilt(w);
    } else if s == Some(ErrorGeneral) && w.views.generalError.None? {
      GeneralErrorViewBuilt(w);
    }
  }

  lemma BuiltKeepsValid(w: Widget, k: ContentState)
    requires Valid(w) && k != Content && StateView(w, Some(k)).None?
    ensures Valid(Built(w, k))
  {
    FreshViewIsNew(w);
    var w' := Built(w, k);
    forall i, j | 0 <= i < j < |w'.children| ensures w'.children[i] != w'.children[j] {
      if j < |w.children| {
        assert w'.children[i] == w.children[i] && w'.children[j] == w.children[j];
      } else {
        assert w'.children[i] == w.children[i];
      }
    }
  }

  /** Asking for a state's view keeps the widget valid; asking again returns
      the same view and changes nothing; the child count grows by one exactly
      when an auxiliary view had to be built. */
  lemma {:induction false} GetStateViewCachesOnce(w: Widget, s: Option<ContentState>)
    requires Valid(w)
    ensures Valid(GetStateView(w, s).0)
    ensures GetStateView(GetStateView(w, s).0, s) == GetStateView(w, s)
    ensures |GetStateView(w, s).0.children| ==
      |w.children| + (if s.Some? && s != Some(Content) && StateView(w, s).None? then 1 else 0)
  {
    GetStateViewBuildsOnce(w, s);
    if s.Some? && s != Some(Content) && StateView(w, s).None? {
      BuiltKeepsValid(w, s.value);
      GetStateViewBuildsOnce(Built(w, s.value), s);
    }
  }

  /** `w'` and `v` are what asking `w` for the view of `s` may give: the view
      cached for `s` (built if it had to be, and then the last child), with
      nothing else changed. */
  ghost predicate ViewFrame(w: Widget, s: Option<ContentState>, w': Widget, v: Option<ViewId>) {
    && v == StateView(w', s)
    && (s.Some? && s != Some(Content) ==> v.Some?)
    && w'.viewState == w.viewState && w'.views.content == w.views.content
    && w'.tapToRetryClickListener == w.tapToRetryClickListener
    && w'.inflatedVisibility == w.inflatedVisibility
    && (forall k :: StateView(w, Some(k)).Some? ==> StateView(w', Some(k)) == StateView(w, Some(k)))
    && (forall k :: Some(k) != s ==> StateView(w', Some(k)) == StateView(w, Some(k)))
    && (w'.children == w.children || (v.Some? && w'.children == w.children + [v.value]))
    && (forall x :: Some(x) != v ==> AttrsOf(w'.attrs, x) == AttrsOf(w.attrs, x))
  }

  /** The frame of `getStateView`: it only ever builds the requested view. */
  lemma GetStateViewFrame(w: Widget, s: Option<ContentState>)
    requires Valid(w)
    ensures Valid(GetStateView(w, s).0)
    ensures ViewFrame(w, s, GetStateView(w, s).0, GetStateView(w, s).1)
  {
    GetStateViewBuildsOnce(w, s);
    GetStateViewCachesOnce(w, s);
  }

  lemma SetVisibilityKeepsValid(w: Widget, v: ViewId, vis: Visibility)
    requires Valid(w) && Exists(w, v)
    ensures Valid(SetVisibility(w, v, vis))
  {
  }

  lemma SetTitleKeepsValid(w: Widget, v: ViewId, text: JString)
    requires Valid(w) && Exists(w, v)
    ensures Valid(SetTitle(w, v, text))
  {
  }

  /** `w'` is `w` switched from its stored state `p` to `s`: the stored state
      is `s`, `s`'s view exists and is VISIBLE, `p`'s view is GONE unless it is
      also `s`'s, the general-error title is the configured string, and nothing
      else changed beyond building the views of `p` and `s`. */
  ghost predicate SwitchedTo(w: Widget, s: Option<ContentState>, w': Widget) {
    SwitchShows(w, s, w') && SwitchBuildsOnly(w, s, w') && SwitchTouchesOnly(w, s, w')
  }

  ghost predicate SwitchShows(w: Widget, s: Option<ContentState>, w': Widget) {
    var p := w.viewState.state;
    && w'.viewState == w.viewState.(state := s)
    && w'.views.content == w.views.content
    && w'.tapToRetryClickListener == w.tapToRetryClickListener
    && w'.inflatedVisibility == w.inflatedVisibility
    && (s.Some? ==> StateView(w', s).Some? && AttrsOf(w'.attrs, StateView(w', s).value).visibility == Visible)
    && (StateView(w', p).Some? && StateView(w', p) != StateView(w', s) ==>
          AttrsOf(w'.attrs, StateView(w', p).value).visibility == Gone)
    && (s == Some(ErrorGeneral) ==>
          AttrsOf(w'.attrs, StateView(w', s).value).title == w.viewState.generalErrorTitleString)
  }

  ghost predicate SwitchBuildsOnly(w: Widget, s: Option<ContentState>, w': Widget) {
    var p := w.viewState.state;
    && (forall k :: StateView(w, Some(k)).Some? ==> StateView(w', Some(k)) == StateView(w, Some(k)))
    && (forall k :: Some(k) != p && Some(k) != s ==> StateView(w', Some(k)) == StateView(w, Some(k)))
    && w.children <= w'.children
    && (forall i :: |w.children| <= i < |w'.children| ==>
          Some(w'.children[i]) == StateView(w', p) || Some(w'.children[i]) == StateView(w', s))
  }

  ghost predicate SwitchTouchesOnly(w: Widget, s: Option<ContentState>, w': Widget) {
    var p := w.viewState.state;
    forall x :: Some(x) != StateView(w', p) && Some(x) != StateView(w', s) ==>
      AttrsOf(w'.attrs, x) == AttrsOf(w.attrs, x)
  }

  /** `w'` differs from `w` at most in the attributes of `v`. */
  ghost predicate OnlyAttrsOf(w: Widget, v: Option<ViewId>, w': Widget) {
    && w' == w.(attrs := w'.attrs)
    && (forall x :: Some(x) != v ==> AttrsOf(w'.attrs, x) == AttrsOf(w.attrs, x))
  }

  lemma HideViewEffect(w: Widget, v: Option<ViewId>)
    ensures OnlyAttrsOf(w, v, HideView(w, v))
    ensures v.Some? ==> AttrsOf(HideView(w, v).attrs, v.value).visibility == Gone
  {
  }

  lemma ShowViewEffect(w: Widget, v: Option<ViewId>, s: Option<ContentState>)
    ensures OnlyAttrsOf(w, v, ShowView(w, v, s))
    ensures v.Some? ==> AttrsOf(ShowView(w, v, s).attrs, v.value).visibility == Visible
    ensures v.Some? && s == Some(ErrorGeneral) ==>
      AttrsOf(ShowView(w, v, s).attrs, v.value).title == w.viewState.generalErrorTitleString
  {
  }

  lemma StateViewKnown(w: Widget, s: Option<ContentState>)
    requires Valid(w)
    ensures Known(w, StateView(w, s))
  {
  }

  lemma HideShowKeepValid(w: Widget, v: Option<ViewId>, s: Option<ContentState>)
    requires Valid(w) && Known(w, v)
    ensures Valid(HideView(w, v)) && Valid(ShowView(w, v, s))
  {
    if v.Some? {
      SetTitleKeepsValid(w, v.value, w.viewState.generalErrorTitleString);
    }
  }

  /** The hide, build and show steps of a state switch, composed. */
  lemma SwitchSteps(w: Widget, s: Option<ContentState>, w1: Widget, pv: Option<ViewId>, w3: Widget, nv: Option<ViewId>)
    requires w.views.content.Some?
    requires ViewFrame(w, w.viewState.state, w1, pv)
    requires ViewFrame(HideView(w1, pv), s, w3, nv)
    ensures var w4 := ShowView(w3, nv, s); SwitchedTo(w, s, w4.(viewState := w4.viewState.(state := s)))
  {
    SwitchStepsShow(w, s, w1, pv, w3, nv);
    SwitchStepsBuild(w, s, w1, pv, w3, nv);
    SwitchStepsTouch(w, s, w1, pv, w3, nv);
  }

  lemma SwitchStepsShow(w: Widget, s: Option<ContentState>, w1: Widget, pv: Option<ViewId>, w3: Widget, nv: Option<ViewId>)
    requires w.views.content.Some?
    requires ViewFrame(w, w.viewState.state, w1, pv)
    requires ViewFrame(HideView(w1, pv), s, w3, nv)
    ensures var w4 := ShowView(w3, nv, s); SwitchShows(w, s, w4.(viewState := w4.viewState.(state := s)))
  {
    var p := w.viewState.state;
    HideViewEffect(w1, pv);
    ShowViewEffect(w3, nv, s);
    assert StateView(w3, p) == pv;
  }

  lemma SwitchStepsBuild(w: Widget, s: Option<ContentState>, w1: Widget, pv: Option<ViewId>, w3: Widget, nv: Option<ViewId>)
    requires w.views.content.Some?
    requires ViewFrame(w, w.viewState.state, w1, pv)
    requires ViewFrame(HideView(w1, pv), s, w3, nv)
    ensures var w4 := ShowView(w3, nv, s); SwitchBuildsOnly(w, s, w4.(viewState := w4.viewState.(state := s)))
  {
    var p := w.viewState.state;
    HideViewEffect(w1, pv);
    ShowViewEffect(w3, nv, s);
    var w4 := ShowView(w3, nv, s);
    var wf := w4.(viewState := w4.viewState.(state := s));
    assert StateView(w3, p) == pv;
    forall i | |w.children| <= i < |wf.children|
      ensures Some(wf.children[i]) == pv || Some(wf.children[i]) == nv
    {
      if i < |w1.children| {
        assert wf.children[i] == w1.children[i];
      }
    }
  }

  lemma SwitchStepsTouch(w: Widget, s: Option<ContentState>, w1: Widget, pv: Option<ViewId>, w3: Widget, nv: Option<ViewId>)
    requires w.views.content.Some?
    requires ViewFrame(w, w.viewState.state, w1, pv)
    requires ViewFrame(HideView(w1, pv), s, w3, nv)
    ensures var w4 := ShowView(w3, nv, s); SwitchTouchesOnly(w, s, w4.(viewState := w4.viewState.(state := s)))
  {
    var p := w.viewState.state;
    HideViewEffect(w1, pv);
    ShowViewEffect(w3, nv, s);
    assert StateView(w3, p) == pv;
  }

  /** `setState(s)` with content attached and `s` not the stored state
      switches the widget to `s`. */
  lemma SetStateSwitches(w: Widget, s: Option<ContentState>)
    requires Valid(w)
    requires s != w.viewState.state && w.views.content.Some?
    ensures SwitchedTo(w, s, SetState(w, s))
  {
    var p := w.viewState.state;
    var w1, pv := GetStateView(w, p).0, GetStateView(w, p).1;
    GetStateViewFrame(w, p);
    StateViewKnown(w1, p);
    HideShowKeepValid(w1, pv, s);
    var w2 := HideView(w1, pv);
    GetStateViewFrame(w2, s);
    SwitchSteps(w, s, w1, pv, GetStateView(w2, s).0, GetStateView(w2, s).1);
  }

  /** `setState` keeps the widget valid. */
  lemma SetStateKeepsValid(w: Widget, s: Option<ContentState>)
    requires Valid(w)
    ensures Valid(SetState(w, s))
  {
    if s != w.viewState.state && w.views.content.Some? {
      var p := w.viewState.state;
      var w1, pv := GetStateView(w, p).0, GetStateView(w, p).1;
      GetStateViewFrame(w, p);
      StateViewKnown(w1, p);
      HideShowKeepValid(w1, pv, s);
      var w2 := HideView(w1, pv);
      var w3, nv := GetStateView(w2, s).0, GetStateView(w2, s).1;
      GetStateViewFrame(w2, s);
      StateViewKnown(w3, s);
      HideShowKeepValid(w3, nv, s);
    }
  }

  /** `getState()` after `setState(s)`: `s`, or CONTENT for `null`, unless
      no content view is attached, when the state does not move. */
  lemma GetStateAfterSetState(w: Widget, s: Option<ContentState>)
    requires Valid(w)
    ensures WidgetModel.GetState(SetState(w, s)) ==
      if w.views.content.None? && s != w.viewState.state then WidgetModel.GetState(w)
      else if s.Some? then s.value else Content
  {
    SetStateRecord(w, s);
  }

  /** Setting the same state twice is the same as setting it once. */
  lemma SetStateIdempotent(w: Widget, s: Option<ContentState>)
    requires Valid(w)
    ensures SetState(SetState(w, s), s) == SetState(w, s)
  {
    SetStateRecord(w, s);
  }

  /** `setState(int)` with content attached: a tag 0 to 3 selects the state
      with that tag; any other tag passes `null` on, which is stored. */
  lemma SetStateFromIntTags(w: Widget, nativeInt: int32)
    requires Valid(w) && w.views.content.Some?
    ensures var st := SetStateFromInt(w, nativeInt).viewState.state;
      && (0 <= nativeInt <= 3 ==> st.Some? && NativeInt(st.value) == nativeInt)
      && (!(0 <= nativeInt <= 3) ==> st.None?)
  {
    GetStateDomain(nativeInt);
    SetStateRecord(w, ContentStates.GetState(nativeInt));
  }

  // ---------------------------------------------------------------------
  // The one-visible-child invariant

  /** A state switch keeps the one-visible invariant: if before it only `shown0`
      could be non-GONE, and the switch hid the previous view `pv` (which is
      `shown0` when that existed), added only `pv` and `nv` as children, and
      touched no other view, then afterwards only `nv` can be non-GONE. */
  lemma SwitchKeepsOnlyShownVisible(children0: seq<ViewId>, attrs0: map<ViewId, ViewAttrs>, shown0: Option<ViewId>,
                                    children: seq<ViewId>, attrs: map<ViewId, ViewAttrs>,
                                    pv: Option<ViewId>, nv: Option<ViewId>)
    requires OnlyShownVisible(children0, attrs0, shown0)
    requires children0 <= children
    requires forall i :: |children0| <= i < |children| ==> Some(children[i]) == pv || Some(children[i]) == nv
    requires shown0.Some? ==> shown0 == pv
    requires forall x :: Some(x) != pv && Some(x) != nv ==> AttrsOf(attrs, x) == AttrsOf(attrs0, x)
    requires pv.Some? && pv != nv ==> AttrsOf(attrs, pv.value).visibility == Gone
    ensures OnlyShownVisible(children, attrs, nv)
  {
    forall i | 0 <= i < |children| && Some(children[i]) != nv
      ensures AttrsOf(attrs, children[i]).visibility == Gone
    {
      if Some(children[i]) != pv {
        assert children0[i] == children[i];
      }
    }
  }

  /** `setState` keeps every child other than the current state's view GONE,
      whatever the visibility of newly inflated views. */
  lemma SetStateKeepsOneVisible(w: Widget, s: Option<ContentState>)
    requires Valid(w) && OnlyStateViewVisible(w)
    ensures OnlyStateViewVisible(SetState(w, s))
  {
    if s != w.viewState.state && w.views.content.Some? {
      SetStateSwitches(w, s);
      var w' := SetState(w, s);
      SwitchKeepsOnlyShownVisible(w.children, w.attrs, StateView(w, w.viewState.state),
        w'.children, w'.attrs, StateView(w', w.viewState.state), StateView(w', s));
    }
  }

  lemma BuiltKeepsOneVisible(w: Widget, k: ContentState)
    requires Valid(w) && OnlyStateViewVisible(w) && w.inflatedVisibility == Gone
    requires k != Content && StateView(w, Some(k)).None?
    ensures OnlyStateViewVisible(Built(w, k))
  {
    var w' := Built(w, k);
    var v := BuiltView(w.nextBuilt);
    FreshViewIsNew(w);
    forall i | 0 <= i < |w'.children| && Some(w'.children[i]) != StateView(w', w'.viewState.state)
      ensures AttrsOf(w'.attrs, w'.children[i]).visibility == Gone
    {
      if i < |w.children| {
        assert w'.children[i] == w.children[i] != v;
      }
    }
  }

  /** Building a state's view on demand keeps the invariant when freshly
      inflated views start GONE (the assumption the debug check relies on). */
  lemma GetStateViewKeepsOneVisible(w: Widget, s: Option<ContentState>)
    requires Valid(w) && OnlyStateViewVisible(w) && w.inflatedVisibility == Gone
    ensures OnlyStateViewVisible(GetStateView(w, s).0)
  {
    GetStateViewBuildsOnce(w, s);
    if s.Some? && s != Some(Content) && StateView(w, s).None? {
      BuiltKeepsOneVisible(w, s.value);
    }
  }

  // ---------------------------------------------------------------------
  // The single-content-child guard

  /** `addView(child, index)`: a child that is not one of the widget's own
      views is rejected with `IllegalStateException`, and nothing changes,
      when a different content view is already set; otherwise it becomes the
      content view (even when the framework then refuses it). The framework
      accepts exactly a non-null child that is not yet a child, at an index no
      greater than the child count; it is then inserted at the index, or
      appended for a negative index, and nothing else changes. */
  lemma AddViewGuard(w: Widget, child: Option<ViewId>, index: int)
    ensures var (w', r) := AddViewAt(w, child, index);
      !IsViewInternal(w, child) && w.views.content.Some? && w.views.content != child ==>
        w' == w && r == Fail(IllegalStateException)
    ensures var (w', r) := AddViewAt(w, child, index);
      r == Pass <==>
        && child.Some? && child.value !in w.children && index <= |w.children|
        && (IsViewInternal(w, child) || w.views.content.None? || w.views.content == child)
    ensures var (w', r) := AddViewAt(w, child, index);
      var pos := if index < 0 then |w.children| else index;
      r == Pass ==>
        && 0 <= pos < |w'.children| == |w.children| + 1
        && w'.children[pos] == child.value
        && w'.children[..pos] == w.children[..pos] && w'.children[pos + 1..] == w.children[pos..]
    ensures var (w', r) := AddViewAt(w, child, index);
      && w'.viewState == w.viewState && w'.attrs == w.attrs && w'.nextBuilt == w.nextBuilt
      && w'.tapToRetryClickListener == w.tapToRetryClickListener
      && (r.Fail? ==> w'.children == w.children)
    ensures var (w', r) := AddViewAt(w, child, index);
      var guarded := !IsViewInternal(w, child) && w.views.content.Some? && w.views.content != child;
      && (IsViewInternal(w, child) || guarded ==> w'.views == w.views)
      && (!IsViewInternal(w, child) && !guarded ==> w'.views == w.views.(content := child))
  {
    var pos := if index < 0 then |w.children| else index;
    if pos <= |w.children| {
      var c := if child.Some? then child.value else HostView(0);
      var s' := InsertAt(w.children, c, pos);
      assert s'[..pos] == w.children[..pos];
      assert s'[pos + 1..] == w.children[pos..];
    }
  }

  /** Where every element of `s` lands after inserting `v` at `i`. */
  lemma InsertAtShifts(s: seq<ViewId>, v: ViewId, i: nat)
    requires i <= |s|
    ensures |InsertAt(s, v, i)| == |s| + 1 && InsertAt(s, v, i)[i] == v
    ensures forall j :: 0 <= j < |s| ==> InsertAt(s, v, i)[if j < i then j else j + 1] == s[j]
    ensures forall j :: 0 <= j < |s| + 1 && j != i ==> InsertAt(s, v, i)[j] == s[if j < i then j else j - 1]
  {
  }

  lemma InsertAtKeepsDistinct(s: seq<ViewId>, v: ViewId, i: nat)
    requires i <= |s| && Distinct(s) && v !in s
    ensures Distinct(InsertAt(s, v, i))
  {
    InsertAtShifts(s, v, i);
    var r := InsertAt(s, v, i);
    forall a, b | 0 <= a < b < |r| ensures r[a] != r[b] {
      if a != i && b != i {
        assert r[a] == s[if a < i then a else a - 1];
        assert r[b] == s[if b < i then b else b - 1];
      } else if a == i {
        assert r[b] == s[if b < i then b else b - 1];
      } else {
        assert r[a] == s[if a < i then a else a - 1];
      }
    }
  }

  /** Inserting `v` adds exactly `v` to the members of `s`. */
  lemma InsertAtMembers(s: seq<ViewId>, v: ViewId, i: nat)
    requires i <= |s|
    ensures forall x :: x in InsertAt(s, v, i) <==> x == v || x in s
  {
    assert s == s[..i] + s[i..];
  }

  lemma InsertKeepsValid(w: Widget, c: ViewId, pos: nat)
    requires Valid(w) && Exists(w, c) && c !in w.children && pos <= |w.children|
    ensures Valid(w.(children := InsertAt(w.children, c, pos)))
  {
    var w' := w.(children := InsertAt(w.children, c, pos));
    InsertAtMembers(w.children, c, pos);
    InsertAtKeepsDistinct(w.children, c, pos);
    forall j | 0 <= j < |w'.children| ensures Exists(w', w'.children[j]) {
      assert w'.children[j] in w'.children;
    }
  }

  /** `addView` keeps the widget valid for any existing (or null) child. */
  lemma AddViewKeepsValid(w: Widget, child: Option<ViewId>, index: int)
    requires Valid(w) && Known(w, child)
    ensures Valid(AddViewAt(w, child, index).0)
  {
    AddViewGuard(w, child, index);
    var (w', r) := AddViewAt(w, child, index);
    var w1 := if IsViewInternal(w, child) then w else w.(views := w.views.(content := child));
    if r == Pass {
      var pos := if index < 0 then |w.children| else index;
      assert w' == w1.(children := InsertAt(w.children, child.value, pos));
      InsertKeepsValid(w1, child.value, pos);
    }
  }

  /** `addView` keeps the one-visible invariant when the added child is GONE,
      or when it becomes the content view while the state is CONTENT. */
  lemma AddViewKeepsOneVisible(w: Widget, child: Option<ViewId>, index: int)
    requires OnlyStateViewVisible(w)
    requires child.Some? ==>
      AttrsOf(w.attrs, child.value).visibility == Gone
      || (w.viewState.state == Some(Content) && !IsViewInternal(w, child))
    ensures OnlyStateViewVisible(AddViewAt(w, child, index).0)
  {
    AddViewGuard(w, child, index);
    var (w', r) := AddViewAt(w, child, index);
    var shown, shown' := StateView(w, w.viewState.state), StateView(w', w.viewState.state);
    var pos := if index < 0 then |w.children| else index;
    if r == Pass {
      assert w'.children == InsertAt(w.children, child.value, pos);
      InsertAtShifts(w.children, child.value, pos);
    }
    forall j | 0 <= j < |w'.children| && Some(w'.children[j]) != shown'
      ensures AttrsOf(w'.attrs, w'.children[j]).visibility == Gone
    {
      if r == Pass && j != pos {
        var k := if j < pos then j else j - 1;
        assert w'.children[j] == w.children[k];
      }
    }
  }

  /** `setContentView` keeps the one-visible invariant when the content view
      does not change or the state is not CONTENT: it does nothing else, since
      the `setState` it calls always finds the state unchanged. */
  lemma SetContentViewKeepsOneVisible(w: Widget, child: Option<ViewId>)
    requires OnlyStateViewVisible(w)
    requires w.viewState.state != Some(Content) || child == w.views.content
    ensures OnlyStateViewVisible(SetContentView(w, child))
  {
  }

  // ---------------------------------------------------------------------
  // Setters

  /** `setOnTapToRetryClickListener` stores the listener and puts it on both
      error views already built, and changes nothing else. */
  lemma SetListenerEffect(w: Widget, listener: Option<Listener>)
    requires Valid(w)
    ensures var w' := SetOnTapToRetryClickListener(w, listener);
      && Valid(w')
      && w' == w.(tapToRetryClickListener := listener, attrs := w'.attrs)
      && (forall x :: AttrsOf(w'.attrs, x) ==
            if Some(x) == w.views.networkError || Some(x) == w.views.generalError
            then AttrsOf(w.attrs, x).(onClick := listener) else AttrsOf(w.attrs, x))
  {
  }

  /** Whether the error view was built before or after the listener was set,
      it carries that listener. */
  lemma ListenerReachesErrorViews(w: Widget, listener: Option<Listener>, k: ContentState)
    requires Valid(w) && (k == ErrorNetwork || k == ErrorGeneral)
    ensures var (w'', v) := GetStateView(SetOnTapToRetryClickListener(w, listener), Some(k));
      v.Some? && AttrsOf(w''.attrs, v.value).onClick == listener
  {
    SetListenerEffect(w, listener);
    GetStateViewBuildsOnce(SetOnTapToRetryClickListener(w, listener), Some(k));
  }

  /** `setCustomErrorString` records the string and shows it as the title of
      the general-error view when that is built; nothing else changes. */
  lemma SetCustomErrorStringEffect(w: Widget, text: JString)
    requires Valid(w)
    ensures var w' := SetCustomErrorString(w, text);
      && Valid(w')
      && w' == w.(viewState := w.viewState.(customErrorString := text), attrs := w'.attrs)
      && (forall x :: AttrsOf(w'.attrs, x) ==
            if Some(x) == w.views.generalError then AttrsOf(w.attrs, x).(title := text) else AttrsOf(w.attrs, x))
  {
  }

  /** The custom error string does not outlive the next switch to the
      general-error state: showing that state puts the configured general
      error title back, whether or not the view was built before. */
  lemma CustomErrorStringReplacedOnShow(w: Widget, text: JString)
    requires Valid(w) && w.views.content.Some? && w.viewState.state != Some(ErrorGeneral)
    ensures var w' := SetState(SetCustomErrorString(w, text), Some(ErrorGeneral));
      && w'.views.generalError.Some?
      && AttrsOf(w'.attrs, w'.views.generalError.value).title == w.viewState.generalErrorTitleString
  {
    SetCustomErrorStringEffect(w, text);
    SetStateSwitches(SetCustomErrorString(w, text), Some(ErrorGeneral));
  }

  /** A new loading layout is used by the loading view built next; a loading
      view already built keeps its layout. */
  lemma LoadingLayoutAppliesToNextBuild(w: Widget, layout: int32)
    requires Valid(w)
    ensures var (w'', v) := GetStateView(SetLoadingLayoutResourceId(w, layout), Some(Loading));
      && v.Some?
      && (w.views.loading.None? ==> AttrsOf(w''.attrs, v.value).layout == Some(layout))
      && (w.views.loading.Some? ==> v == w.views.loading && w''.attrs == w.attrs)
  {
    GetStateViewBuildsOnce(SetLoadingLayoutResourceId(w, layout), Some(Loading));
  }

  /** Setters that touch neither visibility nor the children keep both invariants. */
  lemma SettersKeepInvariants(w: Widget, listener: Option<Listener>, text: JString, layout: int32)
    requires Valid(w) && OnlyStateViewVisible(w)
    ensures Valid(SetOnTapToRetryClickListener(w, listener)) && OnlyStateViewVisible(SetOnTapToRetryClickListener(w, listener))
    ensures Valid(SetCustomErrorString(w, text)) && OnlyStateViewVisible(SetCustomErrorString(w, text))
    ensures Valid(SetLoadingLayoutResourceId(w, layout)) && OnlyStateViewVisible(SetLoadingLayoutResourceId(w, layout))
  {
    SetListenerEffect(w, listener);
    SetCustomErrorStringEffect(w, text);
  }

  // ---------------------------------------------------------------------
  // Saving and restoring

  /** What `setState` leaves in the record and the cached views, in all cases;
      with the state already recorded, or no content view, it changes nothing. */
  lemma SetStateRecord(w: Widget, s: Option<ContentState>)
    requires Valid(w)
    ensures var w' := SetState(w, s);
      && w'.viewState == (if s == w.viewState.state || w.views.content.None? then w.viewState
                          else w.viewState.(state := s))
      && w'.views.content == w.views.content
      && (forall k :: StateView(w, Some(k)).Some? ==> StateView(w', Some(k)) == StateView(w, Some(k)))
    ensures s == w.viewState.state || w.views.content.None? ==> SetState(w, s) == w
  {
    if s != w.viewState.state && w.views.content.Some? {
      SetStateSwitches(w, s);
    }
  }

  /** Restoring a record: the framework's own state is passed on; every
      configuration field is taken from the record; the state too, unless no
      content view is attached (then `setState` does nothing and the current
      state stays); and the general-error view, if built, is titled with the
      record's custom error string, `null` included. */
  lemma RestoreAppliesRecord(w: Widget, superState: Parcelable, d: ViewData)
    requires Valid(w)
    ensures var (w', r) := OnRestoreInstanceState(w, SavedState(superState, Some(d)));
      && r == Success(superState)
      && w'.viewState == d.(state := w'.viewState.state)
      && w'.viewState.state == (if w.views.content.Some? then d.state else w.viewState.state)
      && w'.views.content == w.views.content
      && (w'.views.generalError.Some? ==>
            AttrsOf(w'.attrs, w'.views.generalError.value).title == d.customErrorString)
  {
    var w1 := SetState(w, d.state);
    SetStateRecord(w, d.state);
    SetStateKeepsValid(w, d.state);
    var w2 := w1.(viewState := w1.viewState.(
      tapToRetryString := d.tapToRetryString,
      generalErrorTitleString := d.generalErrorTitleString,
      networkErrorTitleString := d.networkErrorTitleString,
      generalErrorLayoutResId := d.generalErrorLayoutResId,
      networkErrorLayoutResId := d.networkErrorLayoutResId,
      loadingLayoutResId := d.loadingLayoutResId));
    SetCustomErrorStringEffect(w2, d.customErrorString);
  }

  /** Restoring keeps both invariants. */
  lemma RestoreKeepsInvariants(w: Widget, state: Parcelable)
    requires Valid(w) && OnlyStateViewVisible(w)
    ensures Valid(OnRestoreInstanceState(w, state).0)
    ensures OnlyStateViewVisible(OnRestoreInstanceState(w, state).0)
  {
    if state.SavedState? && state.data.Some? {
      SetViewStateKeepsInvariants(w, state.data.value);
    }
  }

  lemma SetViewStateKeepsInvariants(w: Widget, d: ViewData)
    requires Valid(w) && OnlyStateViewVisible(w)
    ensures Valid(SetViewState(w, d)) && OnlyStateViewVisible(SetViewState(w, d))
  {
    var w1 := SetState(w, d.state);
    SetStateKeepsValid(w, d.state);
    SetStateKeepsOneVisible(w, d.state);
    var w2 := w1.(viewState := w1.viewState.(
      tapToRetryString := d.tapToRetryString,
      generalErrorTitleString := d.generalErrorTitleString,
      networkErrorTitleString := d.networkErrorTitleString,
      generalErrorLayoutResId := d.generalErrorLayoutResId,
      networkErrorLayoutResId := d.networkErrorLayoutResId,
      loadingLayoutResId := d.loadingLayoutResId));
    SetCustomErrorStringEffect(w2, d.customErrorString);
  }

  /** The corrected restore keeps both invariants too. */
  lemma SetViewStateCorrectedKeepsInvariants(w: Widget, d: ViewData)
    requires Valid(w) && OnlyStateViewVisible(w)
    ensures Valid(SetViewStateCorrected(w, d)) && OnlyStateViewVisible(SetViewStateCorrected(w, d))
  {
    var w1 := w.(viewState := d.(state := w.viewState.state));
    var w2 := SetState(w1, d.state);
    SetStateKeepsValid(w1, d.state);
    SetStateKeepsOneVisible(w1, d.state);
    SetCustomErrorStringEffect(w2, d.customErrorString);
  }

  /** With the corrected order, restoring into the general-error state from
      another state, with content attached, shows the general-error view titled with the record's custom
      error string when it has one, and with its general error title otherwise. */
  lemma RestoreShowsGeneralErrorTitle(w: Widget, d: ViewData)
    requires Valid(w) && w.views.content.Some?
    requires w.viewState.state != Some(ErrorGeneral) && d.state == Some(ErrorGeneral)
    ensures var w' := SetViewStateCorrected(w, d);
      && w'.views.generalError.Some?
      && AttrsOf(w'.attrs, w'.views.generalError.value).visibility == Visible
      && AttrsOf(w'.attrs, w'.views.generalError.value).title ==
           (if d.customErrorString.Some? then d.customErrorString else d.generalErrorTitleString)
  {
    var w1 := w.(viewState := d.(state := w.viewState.state));
    SetStateSwitches(w1, d.state);
    SetStateKeepsValid(w1, d.state);
    SetCustomErrorStringEffect(SetState(w1, d.state), d.customErrorString);
  }

  /** In the order written, the same restore without a custom error string leaves the
      general-error view shown with no title at all: `setState` puts the
      title in, then the `null` custom error string overwrites it. */
  lemma AsWrittenRestoreBlanksGeneralErrorTitle(w: Widget, d: ViewData)
    requires Valid(w) && w.views.content.Some?
    requires w.viewState.state != Some(ErrorGeneral) && d.state == Some(ErrorGeneral)
    requires d.customErrorString.None?
    ensures var w' := SetViewState(w, d);
      && w'.viewState.state == Some(ErrorGeneral)
      && w'.views.generalError.Some?
      && AttrsOf(w'.attrs, w'.views.generalError.value).visibility == Visible
      && AttrsOf(w'.attrs, w'.views.generalError.value).title == None
  {
    var w1 := SetState(w, d.state);
    SetStateSwitches(w, d.state);
    SetStateKeepsValid(w, d.state);
    var w2 := w1.(viewState := w1.viewState.(
      tapToRetryString := d.tapToRetryString,
      generalErrorTitleString := d.generalErrorTitleString,
      networkErrorTitleString := d.networkErrorTitleString,
      generalErrorLayoutResId := d.generalErrorLayoutResId,
      networkErrorLayoutResId := d.networkErrorLayoutResId,
      loadingLayoutResId := d.loadingLayoutResId));
    SetCustomErrorStringEffect(w2, d.customErrorString);
  }

  /** Restore passes anything but this widget's own saved state through
      untouched, and a saved state without a record fails as Java does when
      dereferencing it. */
  lemma RestorePassesThrough(w: Widget, state: Parcelable)
    ensures state.OtherParcelable? ==> OnRestoreInstanceState(w, state) == (w, Success(state))
    ensures state.SavedState? && state.data.None? ==>
      OnRestoreInstanceState(w, state) == (w, Failure(NullPointerException))
    ensures state.SavedState? && state.data.Some? ==> OnRestoreInstanceState(w, state).1 == Success(state.superState)
  {
  }

  /** Saving and then restoring into the same widget changes nothing but the
      general-error view's title, which becomes the custom error string, even
      when that is `null`. */
  lemma SaveRestoreRoundTrip(w: Widget, superState: Parcelable)
    requires Valid(w)
    ensures var (w', r) := OnRestoreInstanceState(w, OnSaveInstanceState(w, superState));
      && r == Success(superState)
      && w' == w.(attrs := w'.attrs)
      && (forall x :: AttrsOf(w'.attrs, x) ==
            if Some(x) == w.views.generalError
            then AttrsOf(w.attrs, x).(title := w.viewState.customErrorString)
            else AttrsOf(w.attrs, x))
  {
    SetStateRecord(w, w.viewState.state);
    var d := w.viewState;
    assert w.(viewState := w.viewState.(
      tapToRetryString := d.tapToRetryString,
      generalErrorTitleString := d.generalErrorTitleString,
      networkErrorTitleString := d.networkErrorTitleString,
      generalErrorLayoutResId := d.generalErrorLayoutResId,
      networkErrorLayoutResId := d.networkErrorLayoutResId,
      loadingLayoutResId := d.loadingLayoutResId)) == w;
    SetCustomErrorStringEffect(w, w.viewState.customErrorString);
  }

  /** `setState(null)` with content attached is accepted, and afterwards the
      record can no longer be written to a parcel. */
  lemma NullStateBreaksWrite(w: Widget, dest: seq<ParcelValue>)
    requires Valid(w) && w.views.content.Some? && w.viewState.state.Some?
    ensures SetState(w, None).viewState.state.None?
    ensures WriteToParcel(SetState(w, None).viewState, dest) == Failure(NullPointerException)
  {
    SetStateRecord(w, None);
  }

  // ---------------------------------------------------------------------
  // At most one visible child

  lemma {:induction false} AllGoneCountsZero(children: seq<ViewId>, attrs: map<ViewId, ViewAttrs>)
    requires forall i :: 0 <= i < |children| ==> AttrsOf(attrs, children[i]).visibility == Gone
    ensures NonGoneCount(children, attrs) == 0
  {
    if children != [] {
      AllGoneCountsZero(children[..|children| - 1], attrs);
    }
  }

  /** When only one (distinct) child may be non-GONE, at most one is. */
  lemma {:induction false} OnlyShownVisibleAtMostOne(children: seq<ViewId>, attrs: map<ViewId, ViewAttrs>,
                                                     shown: Option<ViewId>)
    requires Distinct(children)
    requires OnlyShownVisible(children, attrs, shown)
    ensures NonGoneCount(children, attrs) <= 1
  {
    if children != [] {
      var init, last := children[..|children| - 1], children[|children| - 1];
      if AttrsOf(attrs, last).visibility == Gone {
        OnlyShownVisibleAtMostOne(init, attrs, shown);
      } else {
        assert Some(last) == shown;
        forall i | 0 <= i < |init| ensures AttrsOf(attrs, init[i]).visibility == Gone {
          assert init[i] == children[i] != last;
        }
        AllGoneCountsZero(init, attrs);
      }
    }
  }

  /** Under the invariant, the debug check in `setState` never finds a second
      visible child. */
  lemma AtMostOneVisibleChild(w: Widget)
    requires Valid(w) && OnlyStateViewVisible(w)
    ensures NonGoneCount(w.children, w.attrs) <= 1
  {
    OnlyShownVisibleAtMostOne(w.children, w.attrs, StateView(w, w.viewState.state));
  }
}
