# MultiStateView — a Dafny model

MultiStateView is an Android `FrameLayout` that shows one of four faces:
the developer's own **content** view, a **loading** view, a **network error**
view or a **general error** view. The three auxiliary views are inflated
lazily from layout resources the first time they are needed, configured
(error title, "tap to retry" text, retry click listener) and added as
children. Switching state hides the previous state's view and shows the new
one, so that in normal use exactly one child is visible. The configuration
(layout ids, strings, current state) lives in a parcelable record that is
saved and restored with the view hierarchy.

The model is split as the program is:

- `base.dfy` (`Base`): `Option` for Java `null`, `Result` and `Outcome` for
  thrown exceptions, the exception kinds, a 32-bit `int32`.
- `content_state.dfy` (`ContentStates`): the `ContentState` enum, its integer
  tags, the static tag table built by a loop, `getState(int)`, and
  `name()`/`valueOf`.
- `saved_state.dfy` (`SavedStates`): the `MultiStateViewData` record, its
  parcel write and read (a parcel is a sequence of string and int slots), and
  the `SavedState` wrapper.
- `widget_model.dfy` (`WidgetModel`): a value snapshot `Widget` of every field
  the widget and its children carry, and one function per operation of the
  widget, with the same mutual recursion as the source (`setState` →
  `getStateView` → the lazy getters → `addView` → `addContentView` →
  `setContentView` → `setState`). Child views are identities; views the
  widget inflates get fresh identities. The framework's `addView` is
  `SuperAddView`.
- `widget_properties.dfy` (`WidgetProperties`): the lemmas. The central
  invariants are `Valid` (children distinct and known, every built auxiliary
  view is a child, the content view is known) and `OnlyStateViewVisible`
  (every child other than the current state's view is `GONE`).
- `multi_state_view.dfy` (`MultiStateViews`): the class `MultiStateView`
  whose fields are the widget's fields, whose methods update them in place,
  each proved to leave the object in the state the corresponding
  `WidgetModel` function describes; the debug "multiple visible children"
  scan is a loop proved never to warn while the invariants hold.

The model follows the code as written: the previous view is hidden
synchronously, in the same call that shows the new one; the new state is
recorded after the new view is shown; the state is parcelled by enum name,
not by its integer tag; `setState` does nothing at all until a content view
exists, so the `msvState` attribute read in the constructor has no effect
(the state stays `CONTENT`); and `setViewState` applies the restored state
before the restored strings and then writes the custom error string, even a
null one, into the general error title.

## Model

| member | source | states |
|---|---|---|
| ContentStates.BuildStates | library/src/com/meetme/android/multistateview/MultiStateView.java:509-515 | after the static registration loop, every state is found under its own tag and no key lies outside the tags of the declared states |
| ContentStates.StatesTable | library/src/com/meetme/android/multistateview/MultiStateView.java:488-515 | the tag table has exactly the keys 0, 1, 2, 3 (the tags are distinct) and maps each tag back to its state |
| ContentStates.GetStateOfNativeInt | library/src/com/meetme/android/multistateview/MultiStateView.java:517-523 | `getState(s.nativeInt)` is `s` for every state |
| ContentStates.GetStateDomain | library/src/com/meetme/android/multistateview/MultiStateView.java:517-523 | `getState(n)` is non-null exactly for 0 ≤ n ≤ 3, and then returns the state whose tag is n |
| ContentStates.ValueOfName | library/src/com/meetme/android/multistateview/MultiStateView.java:581 | `valueOf` accepts a string exactly when it is the name of a declared state and then inverts `name()` |
| ContentStates.NativeInt | library/src/com/meetme/android/multistateview/MultiStateView.java:488-506 | no contract of its own; `StatesTable` and `GetStateOfNativeInt` state that the four tags are distinct and lead back to their states |
| ContentStates.GetState | library/src/com/meetme/android/multistateview/MultiStateView.java:517-523 | no contract of its own; `GetStateDomain` states it is non-null exactly for 0..3 with the matching tag, and `GetStateOfNativeInt` that it inverts the tag |
| ContentStates.Name | library/src/com/meetme/android/multistateview/MultiStateView.java:488-506 | no contract of its own; `ValueOfName` states that `valueOf` inverts it |
| ContentStates.ValueOf | library/src/com/meetme/android/multistateview/MultiStateView.java:581 | no contract of its own; `ValueOfName` states what it accepts and that it inverts `name()`; `UnknownStateNameRejected` states its two exceptions |
| SavedStates.InitialData | library/src/com/meetme/android/multistateview/MultiStateView.java:569-571 | the record built for a state holds that state, null strings and zero layout ids |
| SavedStates.WriteToParcel | library/src/com/meetme/android/multistateview/MultiStateView.java:588-597 | writing throws a NullPointerException exactly when the state is null; otherwise it appends eight slots and keeps what was already written |
| SavedStates.ReadFromParcel | library/src/com/meetme/android/multistateview/MultiStateView.java:573-582 | a successful read yields a non-null state and consumes exactly eight slots |
| SavedStates.ReadWriteRoundTrip | library/src/com/meetme/android/multistateview/MultiStateView.java:573-597 | reading back what `writeToParcel` appended restores the record field for field and stops right after it, whatever follows |
| SavedStates.UnknownStateNameRejected | library/src/com/meetme/android/multistateview/MultiStateView.java:581 | a parcel whose state slot is null fails with NullPointerException and one holding an unknown name fails with IllegalArgumentException |
| WidgetModel.GetState | library/src/com/meetme/android/multistateview/MultiStateView.java:160-162 | `getState()` is never null: CONTENT while the recorded state is null, the recorded state otherwise |
| WidgetModel.IsViewInternal | library/src/com/meetme/android/multistateview/MultiStateView.java:398-400 | a view is internal exactly when it is one of the three auxiliary views; `null` counts as internal while any of them is still unbuilt |
| WidgetModel.WithCache | library/src/com/meetme/android/multistateview/MultiStateView.java:302-350 | storing a view in one state's cache sets that state's view and leaves every other state's view as it was |
| WidgetModel.SetContentView | library/src/com/meetme/android/multistateview/MultiStateView.java:392-396 | the only lasting effect is the new content field: the `setState` it calls always meets the state already recorded and returns |
| WidgetModel.OnSaveInstanceState | library/src/com/meetme/android/multistateview/MultiStateView.java:403-409 | restoring what it returns hands the framework's own saved state back unchanged |
| WidgetModel.Create | library/src/com/meetme/android/multistateview/MultiStateView.java:43-102 | a new widget is in CONTENT whatever the `msvState` attribute says, has no children and no built views, holds the configured layout ids and strings, no custom error string and the given visibility for inflated views, and satisfies both invariants |
| WidgetModel.SetState | library/src/com/meetme/android/multistateview/MultiStateView.java:181-220 | no contract of its own; `SetStateSwitches`, `SetStateRecord`, `SetStateKeepsValid`, `SetStateKeepsOneVisible`, `GetStateAfterSetState` and `SetStateIdempotent` state its effect |
| WidgetModel.SetStateFromInt | library/src/com/meetme/android/multistateview/MultiStateView.java:172-174 | no contract of its own; `SetStateFromIntTags` states which state each integer selects |
| WidgetModel.GetStateView | library/src/com/meetme/android/multistateview/MultiStateView.java:276-294 | no contract of its own; `GetStateViewBuildsOnce`, `GetStateViewCachesOnce` and `GetStateViewFrame` state its cases and its frame |
| WidgetModel.GetNetworkErrorView | library/src/com/meetme/android/multistateview/MultiStateView.java:302-315 | no contract of its own; `NetworkErrorViewBuilt` states how an unbuilt view is built |
| WidgetModel.GetGeneralErrorView | library/src/com/meetme/android/multistateview/MultiStateView.java:323-336 | no contract of its own; `GeneralErrorViewBuilt` states how an unbuilt view is built |
| WidgetModel.GetLoadingView | library/src/com/meetme/android/multistateview/MultiStateView.java:342-350 | no contract of its own; `LoadingViewBuilt` states how an unbuilt view is built |
| WidgetModel.SetOnTapToRetryClickListener | library/src/com/meetme/android/multistateview/MultiStateView.java:352-362 | no contract of its own; `SetListenerEffect` and `ListenerReachesErrorViews` state its effect |
| WidgetModel.AddContentView | library/src/com/meetme/android/multistateview/MultiStateView.java:370-376 | no contract of its own; its guard is part of what `AddViewGuard` states |
| WidgetModel.AddView | library/src/com/meetme/android/multistateview/MultiStateView.java:435-441 | no contract of its own; it is `AddViewAt` with index -1; `AddViewGuard`, `AddViewKeepsValid` and `AddViewKeepsOneVisible` state its effect |
| WidgetModel.AddViewAt | library/src/com/meetme/android/multistateview/MultiStateView.java:444-450 | no contract of its own; `AddViewGuard`, `AddViewKeepsValid` and `AddViewKeepsOneVisible` state its effect |
| WidgetModel.SetCustomErrorString | library/src/com/meetme/android/multistateview/MultiStateView.java:124-134 | no contract of its own; `SetCustomErrorStringEffect` states its effect |
| WidgetModel.SetLoadingLayoutResourceId | library/src/com/meetme/android/multistateview/MultiStateView.java:152-154 | no contract of its own; `LoadingLayoutAppliesToNextBuild` states its effect |
| WidgetModel.SetViewState | library/src/com/meetme/android/multistateview/MultiStateView.java:422-432 | no contract of its own; the order written; `SetViewStateKeepsInvariants` and `AsWrittenRestoreBlanksGeneralErrorTitle` state its effect |
| WidgetModel.SetViewStateCorrected | library/src/com/meetme/android/multistateview/MultiStateView.java:422-432 | no contract of its own; the corrected order; `SetViewStateCorrectedKeepsInvariants` and `RestoreShowsGeneralErrorTitle` state its effect |
| WidgetModel.OnRestoreInstanceState | library/src/com/meetme/android/multistateview/MultiStateView.java:412-420 | no contract of its own; `RestorePassesThrough`, `RestoreAppliesRecord`, `RestoreKeepsInvariants` and `SaveRestoreRoundTrip` state its effect |
| WidgetProperties.InternalAddAppends | library/src/com/meetme/android/multistateview/MultiStateView.java:311 | `addView` of one of the widget's own views that is not yet a child appends it and changes nothing else, the content guard being bypassed |
| WidgetProperties.LoadingViewBuilt | library/src/com/meetme/android/multistateview/MultiStateView.java:342-350 | an unbuilt loading view is inflated from the current loading layout, cached and appended as the last child |
| WidgetProperties.NetworkErrorViewBuilt | library/src/com/meetme/android/multistateview/MultiStateView.java:302-315 | an unbuilt network error view is inflated from its layout, given the network error title, the retry text and the retry listener, cached and appended |
| WidgetProperties.GeneralErrorViewBuilt | library/src/com/meetme/android/multistateview/MultiStateView.java:323-336 | an unbuilt general error view is inflated from its layout, given the general error title, the retry text and the retry listener, cached and appended |
| WidgetProperties.GetStateViewBuildsOnce | library/src/com/meetme/android/multistateview/MultiStateView.java:276-294 | null gives null and no change; CONTENT gives the content view and no change; a cached auxiliary view is returned with no change; otherwise exactly that view is built |
| WidgetProperties.BuiltKeepsValid | library/src/com/meetme/android/multistateview/MultiStateView.java:302-350 | building an auxiliary view keeps the widget valid |
| WidgetProperties.GetStateViewCachesOnce | library/src/com/meetme/android/multistateview/MultiStateView.java:276-350 | asking for a state's view keeps the widget valid, asking again returns the same view and changes nothing, and the child count grows by one exactly when a view was built |
| WidgetProperties.GetStateViewFrame | library/src/com/meetme/android/multistateview/MultiStateView.java:276-350 | asking for a state's view changes nothing but that state's cache, the children and the new view's own attributes |
| WidgetProperties.SetStateSwitches | library/src/com/meetme/android/multistateview/MultiStateView.java:195-220 | switching to a different state with content present hides the previous view, shows the new one (with the general error title for ERROR_GENERAL), records the state, builds at most the previous and the new state's views and touches no other view |
| WidgetProperties.SetStateKeepsValid | library/src/com/meetme/android/multistateview/MultiStateView.java:181-220 | `setState` keeps the widget valid for every argument, null included |
| WidgetProperties.SetStateRecord | library/src/com/meetme/android/multistateview/MultiStateView.java:181-220 | `setState` with the state already recorded, or with no content view, changes nothing at all; otherwise it changes only the record's state and keeps the content view and every built view |
| WidgetProperties.GetStateAfterSetState | library/src/com/meetme/android/multistateview/MultiStateView.java:160-220 | after `setState(s)`, `getState()` is `s` (CONTENT for null), except that without a content view a different state is ignored and `getState()` is unchanged |
| WidgetProperties.SetStateIdempotent | library/src/com/meetme/android/multistateview/MultiStateView.java:181-186 | setting the same state twice is the same as setting it once |
| WidgetProperties.SetStateFromIntTags | library/src/com/meetme/android/multistateview/MultiStateView.java:172-174 | with content present, `setState(int)` with a tag in 0..3 switches to the state with that tag and any other integer records a null state |
| WidgetProperties.SetStateKeepsOneVisible | library/src/com/meetme/android/multistateview/MultiStateView.java:195-236 | from a valid widget, `setState` leaves every child other than the current state's view `GONE` |
| WidgetProperties.GetStateViewKeepsOneVisible | library/src/com/meetme/android/multistateview/MultiStateView.java:302-350 | when layouts inflate `GONE` views, building an auxiliary view keeps the one-visible invariant |
| WidgetProperties.AddViewGuard | library/src/com/meetme/android/multistateview/MultiStateView.java:434-450 | `addView` succeeds exactly for a non-null child that is not yet a child, an index within bounds, and a child that is internal or matches the content slot; a second distinct content view is refused with IllegalStateException and nothing changes; on success the child sits at the index (or last) with the other children in order |
| WidgetProperties.InsertAtKeepsDistinct | library/src/com/meetme/android/multistateview/MultiStateView.java:444-450 | inserting a view that is not a child keeps the children distinct |
| WidgetProperties.AddViewKeepsValid | library/src/com/meetme/android/multistateview/MultiStateView.java:434-450 | adding a known view keeps the widget valid, whether it succeeds or not |
| WidgetProperties.AddViewKeepsOneVisible | library/src/com/meetme/android/multistateview/MultiStateView.java:434-450 | adding a `GONE` child, or a content child while in CONTENT, keeps the one-visible invariant |
| WidgetProperties.SetContentViewKeepsOneVisible | library/src/com/meetme/android/multistateview/MultiStateView.java:392-396 | replacing the content view keeps the one-visible invariant when the state is not CONTENT or the content is unchanged |
| WidgetProperties.SetListenerEffect | library/src/com/meetme/android/multistateview/MultiStateView.java:352-362 | the listener is stored and set on both error views that exist, and no other view changes |
| WidgetProperties.ListenerReachesErrorViews | library/src/com/meetme/android/multistateview/MultiStateView.java:302-362 | after setting the listener, either error view, built before or after, carries that listener |
| WidgetProperties.SetCustomErrorStringEffect | library/src/com/meetme/android/multistateview/MultiStateView.java:124-134 | the custom string is stored and becomes the general error view's title if that view exists; nothing else changes |
| WidgetProperties.CustomErrorStringReplacedOnShow | library/src/com/meetme/android/multistateview/MultiStateView.java:207-214 | switching to ERROR_GENERAL overwrites a custom error title with the general error title |
| WidgetProperties.LoadingLayoutAppliesToNextBuild | library/src/com/meetme/android/multistateview/MultiStateView.java:152-154 | a new loading layout is used by the next loading view built, and not by one already built |
| WidgetProperties.SettersKeepInvariants | library/src/com/meetme/android/multistateview/MultiStateView.java:124-362 | the listener, custom string and loading layout setters keep both invariants |
| WidgetProperties.RestoreAppliesRecord | library/src/com/meetme/android/multistateview/MultiStateView.java:412-432 | restoring a saved record adopts all its fields, switches to its state when content exists, keeps the content view, titles a built general error view with the record's custom error string (null included), and passes the framework's state on |
| WidgetProperties.RestoreKeepsInvariants | library/src/com/meetme/android/multistateview/MultiStateView.java:412-420 | restoring any parcelable keeps both invariants |
| WidgetProperties.SetViewStateKeepsInvariants | library/src/com/meetme/android/multistateview/MultiStateView.java:422-432 | `setViewState` in the order written keeps both invariants |
| WidgetProperties.SetViewStateCorrectedKeepsInvariants | library/src/com/meetme/android/multistateview/MultiStateView.java:422-432 | `setViewState` in the corrected order keeps both invariants |
| WidgetProperties.RestoreShowsGeneralErrorTitle | library/src/com/meetme/android/multistateview/MultiStateView.java:422-432 | with the corrected order, restoring into ERROR_GENERAL shows the general error view titled with the custom string if there is one and the restored general error title otherwise |
| WidgetProperties.AsWrittenRestoreBlanksGeneralErrorTitle | library/src/com/meetme/android/multistateview/MultiStateView.java:422-432 | in the order written, restoring into ERROR_GENERAL without a custom string leaves the general error view visible with a null title |
| WidgetProperties.RestorePassesThrough | library/src/com/meetme/android/multistateview/MultiStateView.java:412-420 | a parcelable of another kind is passed on untouched; a saved state without a record throws NullPointerException; otherwise the inner framework state is passed on |
| WidgetProperties.SaveRestoreRoundTrip | library/src/com/meetme/android/multistateview/MultiStateView.java:403-432 | restoring the widget's own saved state changes nothing except setting a built general error view's title to the custom error string, null included |
| WidgetProperties.NullStateBreaksWrite | library/src/com/meetme/android/multistateview/MultiStateView.java:181-220 | `setState(null)` with content present records a null state, after which writing the record throws NullPointerException |
| WidgetProperties.OnlyShownVisibleAtMostOne | library/src/com/meetme/android/multistateview/MultiStateView.java:225-236 | distinct children of which all but one are `GONE` have at most one non-`GONE` child |
| WidgetProperties.AtMostOneVisibleChild | library/src/com/meetme/android/multistateview/MultiStateView.java:225-236 | under both invariants at most one child is not `GONE` |
| MultiStateViews.MultiStateView.constructor | library/src/com/meetme/android/multistateview/MultiStateView.java:43-102 | the new object is the widget `Create` describes |
| MultiStateViews.MultiStateView.SetStateFromInt | library/src/com/meetme/android/multistateview/MultiStateView.java:172-174 | the object ends as `setState` of the tag's state leaves it |
| MultiStateViews.MultiStateView.SetState | library/src/com/meetme/android/multistateview/MultiStateView.java:181-220 | the object ends as the `setState` function describes, and stays valid with one visible child |
| MultiStateViews.MultiStateView.GetStateView | library/src/com/meetme/android/multistateview/MultiStateView.java:276-294 | returns the view and leaves the object as the `getStateView` function describes |
| MultiStateViews.MultiStateView.GetNetworkErrorView | library/src/com/meetme/android/multistateview/MultiStateView.java:302-315 | returns the (possibly new) network error view and the state the function describes |
| MultiStateViews.MultiStateView.GetGeneralErrorView | library/src/com/meetme/android/multistateview/MultiStateView.java:323-336 | returns the (possibly new) general error view and the state the function describes |
| MultiStateViews.MultiStateView.GetLoadingView | library/src/com/meetme/android/multistateview/MultiStateView.java:342-350 | returns the (possibly new) loading view and the state the function describes |
| MultiStateViews.MultiStateView.SetOnTapToRetryClickListener | library/src/com/meetme/android/multistateview/MultiStateView.java:352-362 | the object ends as the listener setter function describes |
| MultiStateViews.MultiStateView.AddContentView | library/src/com/meetme/android/multistateview/MultiStateView.java:370-376 | the object ends as `addContentView` describes: refused for a second distinct content view, the content slot set otherwise |
| MultiStateViews.MultiStateView.SetContentView | library/src/com/meetme/android/multistateview/MultiStateView.java:392-396 | the object ends with the new content view and nothing else changed |
| MultiStateViews.MultiStateView.AddView | library/src/com/meetme/android/multistateview/MultiStateView.java:435-441 | the object ends as `addView(child)` describes |
| MultiStateViews.MultiStateView.AddViewAt | library/src/com/meetme/android/multistateview/MultiStateView.java:444-450 | the object ends as `addView(child, index)` describes, with the guard of `AddViewGuard` |
| MultiStateViews.MultiStateView.SetCustomErrorString | library/src/com/meetme/android/multistateview/MultiStateView.java:124-134 | the object ends as the custom string setter describes |
| MultiStateViews.MultiStateView.SetLoadingLayoutResourceId | library/src/com/meetme/android/multistateview/MultiStateView.java:152-154 | only the loading layout id changes |
| MultiStateViews.MultiStateView.SetViewState | library/src/com/meetme/android/multistateview/MultiStateView.java:422-432 | the object ends as `setViewState` describes: `setState` first, then the configuration fields, then the custom error string, null included |
| MultiStateViews.MultiStateView.OnSaveInstanceState | library/src/com/meetme/android/multistateview/MultiStateView.java:403-409 | returns the framework's state wrapped with the current record, changing nothing |
| MultiStateViews.MultiStateView.OnRestoreInstanceState | library/src/com/meetme/android/multistateview/MultiStateView.java:412-420 | forwards what `onRestoreInstanceState` passes to the framework and ends in the state it describes |
| MultiStateViews.MultiStateView.HasMultipleVisibleChildren | library/src/com/meetme/android/multistateview/MultiStateView.java:225-236 | warns exactly when two or more children are not `GONE`, and never warns while both invariants hold |

## Left out

- Android view inflation, `findViewById` and `TextView.setText` are modelled as attribute updates on view identities; a layout lacking the `error_title` or `tap_to_retry` view (a NullPointerException in the getters) is not modelled.
- `canScrollVertically` (lines 49-55) is a framework scrolling query and is not part of this model.
- `dumpState` and all `Log` calls are debug output and are left out; the debug scan of lines 225-236 is the separate method `HasMultipleVisibleChildren`, not called from `SetState`.
- The `Context` and `AttributeSet` lookups of `parseAttrs` are replaced by their results, which `Create` and the constructor take as parameters.
- The `addView` overloads with layout parameters or a width and height (lines 452-477) apply the same guard as `addView(child, index)` and are not modelled separately.
- The framework's `ViewGroup.addView` is reduced to its checks for a null child, a child already present and an index past the end; a child that already has another parent, layout requests and the framework's own re-dispatch to the overridden `addView` are not modelled.
- The plain getters of the record's strings and layout ids (lines 116-150) and its private setters are represented by the record fields themselves.
- `SavedState` (lines 530-557), the `Parcelable.Creator` objects and `describeContents` are framework parcel plumbing; the parcel is a sequence of slots and `SavedState` a pair of the framework's state and the record.
- WidgetModel.OnSaveInstanceState: stores a copy of the record, whereas the source stores a reference, so changes made after saving and before the parcel is written are not reflected.
- WidgetProperties.GetStateViewKeepsOneVisible: assumes the inflated layouts' root views are `GONE`, since the layouts themselves are not part of this model.
- The corrected order of `setViewState` (see Findings) is `WidgetModel.SetViewStateCorrected`; the class and `WidgetModel.OnRestoreInstanceState` follow the order as written.
- SavedStates.WriteToParcel: on a null state it returns the exception without the seven slots the source has already written before `state.name()` throws; the partly written parcel is abandoned either way.
- SavedStates.ReadFromParcel: reading past the end of the parcel, or a slot of the other kind, fails at once with BadParcelableException, whereas Android's `Parcel` returns null or 0 there, so a truncated record would instead fail later at `valueOf(null)`; the parcel's internals are not part of this model.
- The sample application (`MainActivity`) is not part of this model.

## Findings

| source | as written | input that shows it | evidently intended | confidence | as-written member | corrected member |
|---|---|---|---|---|---|---|
| library/src/com/meetme/android/multistateview/MultiStateView.java:422-432 | `setViewState` calls `setState` before restoring the strings, then always calls `setCustomErrorString(state.customErrorString)`, which writes null into the general error title | a widget with content in CONTENT restores a record whose state is ERROR_GENERAL and whose custom error string is null (the usual case) | the visible general error view shows the restored general error title, or the custom string when one was set | medium, not executed | WidgetProperties.AsWrittenRestoreBlanksGeneralErrorTitle | WidgetProperties.RestoreShowsGeneralErrorTitle |
