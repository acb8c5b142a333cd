/** The widget as the object it is: the fields of `MultiStateView`, with the
    children and view attributes it changes in the framework, updated in place
    by methods that follow the Java bodies statement by statement. Each method
    is proved to do what the matching function of `WidgetModel` describes, so
    everything proved in `WidgetProperties` holds of the object. */
module MultiStateViews {
  import opened Base
  import opened ContentStates
  import opened SavedStates
  import W = WidgetModel
  import WidgetProperties

  class MultiStateView {
    /** `mViewState`: configuration strings, layout ids and the current state. */
    var viewState: ViewData
    var contentView: Option<W.ViewId>
    var loadingView: Option<W.ViewId>
    var networkErrorView: Option<W.ViewId>
    var generalErrorView: Option<W.ViewId>
    var tapToRetryClickListener: Option<W.Listener>
    /** The framework's side: the children in order, what is known of each
        view, and how many views have been inflated. */
    var children: seq<W.ViewId>
    var attrs: map<W.ViewId, W.ViewAttrs>
    var nextBuilt: nat
    /** The visibility the widget's layouts give a freshly inflated root view. */
    const inflatedVisibility: W.Visibility

    /** The object's fields as a value. */
    function Snap(): W.Widget
      reads this
    {
      W.Widget(viewState, W.StateViews(contentView, loadingView, networkErrorView, generalErrorView),
        tapToRetryClickListener, children, attrs, nextBuilt, inflatedVisibility)
    }

    /** The constructor with `parseAttrs`: each layout id and string comes from
        the attribute set or its built-in default, and the `msvState` tag is
        passed to `setState`. */
    constructor(loadingLayout: int32, generalErrorLayout: int32, networkErrorLayout: int32,
                networkErrorTitle: string, generalErrorTitle: string, tapToRetry: string,
                stateAttribute: int32, inflatedVisibility: W.Visibility)
      ensures Snap() == W.Create(loadingLayout, generalErrorLayout, networkErrorLayout,
        networkErrorTitle, generalErrorTitle, tapToRetry, stateAttribute, inflatedVisibility)
    {
      viewState := InitialData(Some(Content));
      contentView, loadingView, networkErrorView, generalErrorView := None, None, None, None;
      tapToRetryClickListener := None;
      children, attrs, nextBuilt := [], map[], 0;
      this.inflatedVisibility := inflatedVisibility;
      new;
      viewState := viewState.(loadingLayoutResId := loadingLayout);
      viewState := viewState.(generalErrorLayoutResId := generalErrorLayout);
      viewState := viewState.(networkErrorLayoutResId := networkErrorLayout);
      viewState := viewState.(networkErrorTitleString := Some(networkErrorTitle));
      viewState := viewState.(generalErrorTitleString := Some(generalErrorTitle));
      viewState := viewState.(tapToRetryString := Some(tapToRetry));
      SetStateFromInt(stateAttribute);
    }

    /** `getState()`. */
    function GetState(): ContentState
      reads this
    {
      W.GetState(Snap())
    }

    /** `isViewInternal`. */
    function IsViewInternal(view: Option<W.ViewId>): bool
      reads this
    {
      W.IsViewInternal(Snap(), view)
    }

    // -------------------------------------------------------------------
    // Effects on views, as the framework performs them

    method SetVisibility(v: W.ViewId, vis: W.Visibility)
      modifies this
      ensures Snap() == W.SetVisibility(old(Snap()), v, vis)
    {
      attrs := attrs[v := W.AttrsOf(attrs, v).(visibility := vis)];
    }

    method SetTitle(v: W.ViewId, text: JString)
      modifies this
      ensures Snap() == W.SetTitle(old(Snap()), v, text)
    {
      attrs := attrs[v := W.AttrsOf(attrs, v).(title := text)];
    }

    method SetRetryText(v: W.ViewId, text: JString)
      modifies this
      ensures Snap() == W.SetRetryText(old(Snap()), v, text)
    {
      attrs := attrs[v := W.AttrsOf(attrs, v).(retryText := text)];
    }

    method SetOnClick(v: W.ViewId, listener: Option<W.Listener>)
      modifies this
      ensures Snap() == W.SetOnClick(old(Snap()), v, listener)
    {
      attrs := attrs[v := W.AttrsOf(attrs, v).(onClick := listener)];
    }

    method Inflate(layout: int32) returns (v: W.ViewId)
      modifies this
      ensures (Snap(), v) == W.Inflate(old(Snap()), layout)
    {
      v := W.BuiltView(nextBuilt);
      nextBuilt := nextBuilt + 1;
      attrs := attrs[v := W.ViewAttrs(inflatedVisibility, None, None, None, Some(layout))];
    }

    /** `ViewGroup.addView(child, index)`. */
    method SuperAddView(child: Option<W.ViewId>, index: int) returns (r: Outcome<Exception>)
      modifies this
      ensures (Snap(), r) == W.SuperAddView(old(Snap()), child, index)
    {
      if child.None? {
        return Fail(IllegalArgumentException);
      }
      if child.value in children {
        return Fail(IllegalStateException);
      }
      if index > |children| {
        return Fail(IndexOutOfBoundsException);
      }
      var at := if index < 0 then |children| else index;
      children := children[..at] + [child.value] + children[at..];
      return Pass;
    }

    // -------------------------------------------------------------------
    // The widget's operations

    /** `setState(int)`. */
    method SetStateFromInt(nativeInt: int32)
      modifies this
      ensures Snap() == W.SetStateFromInt(old(Snap()), nativeInt)
    {
      SetState(ContentStates.GetState(nativeInt));
    }

    /** `setState(ContentState)`. */
    method SetState(state: Option<ContentState>)
      modifies this
      decreases 5
      ensures Snap() == W.SetState(old(Snap()), state)
      ensures W.Valid(old(Snap())) ==> W.Valid(Snap())
      ensures W.Valid(old(Snap())) && W.OnlyStateViewVisible(old(Snap())) ==> W.OnlyStateViewVisible(Snap())
    {
      if W.Valid(Snap()) {
        WidgetProperties.SetStateKeepsValid(Snap(), state);
        if W.OnlyStateViewVisible(Snap()) {
          WidgetProperties.SetStateKeepsOneVisible(Snap(), state);
        }
      }
      if state == viewState.state {
        return;
      }
      if contentView.None? {
        return;
      }
      var previousView := GetStateView(viewState.state);
      if previousView.Some? {
        SetVisibility(previousView.value, W.Gone);
      }
      var newStateView := GetStateView(state);
      if newStateView.Some? {
        if state == Some(ErrorGeneral) {
          SetTitle(newStateView.value, viewState.generalErrorTitleString);
        }
        SetVisibility(newStateView.value, W.Visible);
      }
      viewState := viewState.(state := state);
    }

    /** `getStateView`. */
    method GetStateView(state: Option<ContentState>) returns (v: Option<W.ViewId>)
      modifies this
      decreases 4
      ensures (Snap(), v) == W.GetStateView(old(Snap()), state)
    {
      match state {
        case None => v := None;
        case Some(Content) => v := contentView;
        case Some(Loading) => var view := GetLoadingView(); v := Some(view);
        case Some(ErrorNetwork) => var view := GetNetworkErrorView(); v := Some(view);
        case Some(ErrorGeneral) => var view := GetGeneralErrorView(); v := Some(view);
      }
    }

    /** `getLoadingView`. */
    method GetLoadingView() returns (v: W.ViewId)
      modifies this
      decreases 3
      ensures (Snap(), v) == W.GetLoadingView(old(Snap()))
    {
      if loadingView.None? {
        var view := Inflate(viewState.loadingLayoutResId);
        loadingView := Some(view);
        var _ := AddView(loadingView);
      }
      v := loadingView.value;
    }

    /** `getNetworkErrorView`. */
    method GetNetworkErrorView() returns (v: W.ViewId)
      modifies this
      decreases 3
      ensures (Snap(), v) == W.GetNetworkErrorView(old(Snap()))
    {
      if networkErrorView.None? {
        var view := Inflate(viewState.networkErrorLayoutResId);
        networkErrorView := Some(view);
        SetTitle(view, viewState.networkErrorTitleString);
        SetRetryText(view, viewState.tapToRetryString);
        SetOnClick(view, tapToRetryClickListener);
        var _ := AddView(networkErrorView);
      }
      v := networkErrorView.value;
    }

    /** `getGeneralErrorView`. */
    method GetGeneralErrorView() returns (v: W.ViewId)
      modifies this
      decreases 3
      ensures (Snap(), v) == W.GetGeneralErrorView(old(Snap()))
    {
      if generalErrorView.None? {
        var view := Inflate(viewState.generalErrorLayoutResId);
        generalErrorView := Some(view);
        SetTitle(view, viewState.generalErrorTitleString);
        SetRetryText(view, viewState.tapToRetryString);
        SetOnClick(view, tapToRetryClickListener);
        var _ := AddView(generalErrorView);
      }
      v := generalErrorView.value;
    }

    /** `addView(child)`. */
    method AddView(child: Option<W.ViewId>) returns (r: Outcome<Exception>)
      modifies this
      decreases if IsViewInternal(child) then 2 else 12
      ensures (Snap(), r) == W.AddView(old(Snap()), child)
    {
      r := AddViewAt(child, -1);
    }

    /** `addView(child, index)`. */
    method AddViewAt(child: Option<W.ViewId>, index: int) returns (r: Outcome<Exception>)
      modifies this
      decreases if IsViewInternal(child) then 1 else 11
      ensures (Snap(), r) == W.AddViewAt(old(Snap()), child, index)
      ensures !old(IsViewInternal(child)) && old(contentView).Some? && old(contentView) != child ==>
        r == Fail(IllegalStateException) && Snap() == old(Snap())
    {
      WidgetProperties.AddViewGuard(Snap(), child, index);
      if !IsViewInternal(child) {
        r := AddContentView(child);
        if r.Fail? {
          return;
        }
      }
      r := SuperAddView(child, index);
    }

    /** `addContentView`. */
    method AddContentView(child: Option<W.ViewId>) returns (r: Outcome<Exception>)
      modifies this
      decreases 10
      ensures (Snap(), r) == W.AddContentView(old(Snap()), child)
    {
      if contentView.Some? && contentView != child {
        return Fail(IllegalStateException);
      }
      SetContentView(child);
      return Pass;
    }

    /** `setContentView`. */
    method SetContentView(child: Option<W.ViewId>)
      modifies this
      decreases 9
      ensures Snap() == W.SetContentView(old(Snap()), child)
    {
      contentView := child;
      SetState(viewState.state);
    }

    /** `setOnTapToRetryClickListener`. */
    method SetOnTapToRetryClickListener(listener: Option<W.Listener>)
      modifies this
      ensures Snap() == W.SetOnTapToRetryClickListener(old(Snap()), listener)
    {
      tapToRetryClickListener := listener;
      if networkErrorView.Some? {
        SetOnClick(networkErrorView.value, listener);
      }
      if generalErrorView.Some? {
        SetOnClick(generalErrorView.value, listener);
      }
    }

    /** `setCustomErrorString`. */
    method SetCustomErrorString(text: JString)
      modifies this
      ensures Snap() == W.SetCustomErrorString(old(Snap()), text)
    {
      viewState := viewState.(customErrorString := text);
      if generalErrorView.Some? {
        SetTitle(generalErrorView.value, text);
      }
    }

    /** `setLoadingLayoutResourceId`. */
    method SetLoadingLayoutResourceId(layout: int32)
      modifies this
      ensures Snap() == W.SetLoadingLayoutResourceId(old(Snap()), layout)
    {
      viewState := viewState.(loadingLayoutResId := layout);
    }

    /** `setViewState`: the state first, then the configuration fields, then
        the custom error string, `null` included. */
    method SetViewState(d: ViewData)
      modifies this
      ensures Snap() == W.SetViewState(old(Snap()), d)
    {
      SetState(d.state);
      viewState := viewState.(
        tapToRetryString := d.tapToRetryString,
        generalErrorTitleString := d.generalErrorTitleString,
        networkErrorTitleString := d.networkErrorTitleString,
        generalErrorLayoutResId := d.generalErrorLayoutResId,
        networkErrorLayoutResId := d.networkErrorLayoutResId,
        loadingLayoutResId := d.loadingLayoutResId);
      SetCustomErrorString(d.customErrorString);
    }

    /** `onSaveInstanceState`: the framework's state wrapped with the record. */
    method OnSaveInstanceState(superState: Parcelable) returns (p: Parcelable)
      ensures p == W.OnSaveInstanceState(Snap(), superState)
    {
      p := SavedState(superState, Some(viewState));
    }

    /** `onRestoreInstanceState`: returns what is handed to the framework's own
        restore, or the exception thrown instead. */
    method OnRestoreInstanceState(state: Parcelable) returns (forwarded: Result<Parcelable, Exception>)
      modifies this
      ensures (Snap(), forwarded) == W.OnRestoreInstanceState(old(Snap()), state)
    {
      match state {
        case SavedState(superState, data) =>
          if data.None? {
            return Failure(NullPointerException);
          }
          SetViewState(data.value);
          forwarded := Success(superState);
        case OtherParcelable(_) =>
          forwarded := Success(state);
      }
    }

    /** The debug check after a state change: walks the children and reports
        whether a second non-GONE child was met. */
    method HasMultipleVisibleChildren() returns (warned: bool)
      ensures warned <==> W.NonGoneCount(children, attrs) >= 2
      ensures W.Valid(Snap()) && W.OnlyStateViewVisible(Snap()) ==> !warned
    {
      var hasVisible := false;
      warned := false;
      for i := 0 to |children|
        invariant hasVisible <==> W.NonGoneCount(children[..i], attrs) >= 1
        invariant warned <==> W.NonGoneCount(children[..i], attrs) >= 2
      {
        assert children[..i + 1][..i] == children[..i];
        if W.AttrsOf(attrs, children[i]).visibility != W.Gone {
          if hasVisible {
            warned := true;
          }
          hasVisible := true;
        }
      }
      assert children[..|children|] == children;
      if W.Valid(Snap()) && W.OnlyStateViewVisible(Snap()) {
        WidgetProperties.AtMostOneVisibleChild(Snap());
      }
    }
  }
}
