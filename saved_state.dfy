/** The persisted record of the widget (`MultiStateViewData`), its field-by-field
    parcel encoding, and the saved-state wrapper handed to the framework. */
module SavedStates {
  import opened Base
  import opened ContentStates

  /** The widget's configuration and current state; the unit of save and restore. */
  datatype ViewData = ViewData(
    customErrorString: JString,
    loadingLayoutResId: int32,
    generalErrorLayoutResId: int32,
    networkErrorLayoutResId: int32,
    networkErrorTitleString: JString,
    generalErrorTitleString: JString,
    tapToRetryString: JString,
    state: Option<ContentState>)

  /** `new MultiStateViewData(contentState)`: only the state is set; strings are
      `null` and layout ids 0, as Java initialises fields. */
  function InitialData(contentState: Option<ContentState>): (d: ViewData)
    ensures d.state == contentState
    ensures d.customErrorString.None? && d.networkErrorTitleString.None?
    ensures d.generalErrorTitleString.None? && d.tapToRetryString.None?
    ensures d.loadingLayoutResId == 0 && d.generalErrorLayoutResId == 0 && d.networkErrorLayoutResId == 0
  {
    ViewData(None, 0, 0, 0, None, None, None, contentState)
  }

  /** One value written to a parcel. */
  datatype ParcelValue = PString(s: JString) | PInt(i: int32)

  /** `MultiStateViewData.writeToParcel`: appends the eight fields to `dest`:
      the custom error string, the loading, general-error and network-error
      layout ids, the network-error title, general-error title and tap-to-retry
      strings, then the state by name. `state.name()` on a `null` state throws. */
  function WriteToParcel(d: ViewData, dest: seq<ParcelValue>): (r: Result<seq<ParcelValue>, Exception>)
    ensures r.Failure? <==> d.state.None?
    ensures r.Failure? ==> r.error == NullPointerException
    ensures r.Success? ==> |r.value| == |dest| + 8 && r.value[..|dest|] == dest
  {
    if d.state.None? then Failure(NullPointerException)
    else Success(dest + [
      PString(d.customErrorString),
      PInt(d.loadingLayoutResId),
      PInt(d.generalErrorLayoutResId),
      PInt(d.networkErrorLayoutResId),
      PString(d.networkErrorTitleString),
      PString(d.generalErrorTitleString),
      PString(d.tapToRetryString),
      PString(Some(Name(d.state.value)))])
  }

  /** `Parcel.readString` at position `pos`: the string and the next position. */
  function ReadString(p: seq<ParcelValue>, pos: nat): (r: Result<(JString, nat), Exception>)
    ensures r.Success? <==> pos < |p| && p[pos].PString?
    ensures r.Success? ==> r.value == (p[pos].s, pos + 1)
  {
    if pos < |p| && p[pos].PString? then Success((p[pos].s, pos + 1))
    else Failure(BadParcelableException)
  }

  /** `Parcel.readInt` at position `pos`: the integer and the next position. */
  function ReadInt(p: seq<ParcelValue>, pos: nat): (r: Result<(int32, nat), Exception>)
    ensures r.Success? <==> pos < |p| && p[pos].PInt?
    ensures r.Success? ==> r.value == (p[pos].i, pos + 1)
  {
    if pos < |p| && p[pos].PInt? then Success((p[pos].i, pos + 1))
    else Failure(BadParcelableException)
  }

  /** `new MultiStateViewData(Parcel)`: reads the fields back in the order they
      are written, from position `pos`; the state is looked up by name with
      `ContentState.valueOf`, so a read record never has a `null` state. */
  function ReadFromParcel(p: seq<ParcelValue>, pos: nat): (r: Result<(ViewData, nat), Exception>)
    ensures r.Success? ==> r.value.0.state.Some? && r.value.1 == pos + 8 <= |p|
  {
    var (customErrorString, pos) :- ReadString(p, pos);
    var (loadingLayoutResId, pos) :- ReadInt(p, pos);
    var (generalErrorLayoutResId, pos) :- ReadInt(p, pos);
    var (networkErrorLayoutResId, pos) :- ReadInt(p, pos);
    var (networkErrorTitleString, pos) :- ReadString(p, pos);
    var (generalErrorTitleString, pos) :- ReadString(p, pos);
    var (tapToRetryString, pos) :- ReadString(p, pos);
    var (stateName, pos) :- ReadString(p, pos);
    var state :- ValueOf(stateName);
    Success((ViewData(customErrorString, loadingLayoutResId, generalErrorLayoutResId,
      networkErrorLayoutResId, networkErrorTitleString, generalErrorTitleString,
      tapToRetryString, Some(state)), pos))
  }

  /** Reading back what was written reproduces every field, and leaves the
      reader just past the record, whatever precedes or follows it. */
  lemma {:induction false} ReadWriteRoundTrip(d: ViewData, dest: seq<ParcelValue>, rest: seq<ParcelValue>)
    requires d.state.Some?
    ensures WriteToParcel(d, dest).Success?
    ensures ReadFromParcel(WriteToParcel(d, dest).value + rest, |dest|) == Success((d, |dest| + 8))
  {
    ValueOfName(Name(d.state.value));
    var p := WriteToParcel(d, dest).value + rest;
    assert p[|dest| + 7] == PString(Some(Name(d.state.value)));
  }

  /** A record whose state field holds no declared name cannot be read back:
      `null` throws `NullPointerException`, any other unknown name
      `IllegalArgumentException`. */
  lemma UnknownStateNameRejected(d: ViewData, name: JString)
    requires name.Some? ==> forall s :: Name(s) != name.value
    ensures ReadFromParcel([PString(d.customErrorString), PInt(d.loadingLayoutResId),
      PInt(d.generalErrorLayoutResId), PInt(d.networkErrorLayoutResId),
      PString(d.networkErrorTitleString), PString(d.generalErrorTitleString),
      PString(d.tapToRetryString), PString(name)], 0)
      == Failure(if name.None? then NullPointerException else IllegalArgumentException)
  {
    if name.Some? {
      ValueOfName(name.value);
    }
  }

  /** What the widget hands to and receives from the framework on save and
      restore: its own `SavedState` (the framework's state plus the record), or
      any other `Parcelable`, identified only by an opaque token. */
  datatype Parcelable =
    | SavedState(superState: Parcelable, data: Option<ViewData>)
    | OtherParcelable(token: nat)
}
