/** The widget's display states (`MultiStateView.ContentState`), the integer
    tag each carries, the lookup table from tags back to states, and the
    name encoding used when a state is persisted. */
module ContentStates {
  import opened Base

  /** The four states, in declaration order. */
  datatype ContentState = Content | Loading | ErrorNetwork | ErrorGeneral

  /** The tag a state carries (`nativeInt`), as used by the `msvState` attribute. */
  function NativeInt(s: ContentState): int32 {
    match s
    case Content => 0x00
    case Loading => 0x01
    case ErrorNetwork => 0x02
    case ErrorGeneral => 0x03
  }

  /** `values()`: every state, in declaration order. */
  function Values(): seq<ContentState> {
    [Content, Loading, ErrorNetwork, ErrorGeneral]
  }

  /** The table that results from putting `NativeInt(v) -> v` for each `v` of
      `vs` in turn; a later put for the same tag replaces an earlier one. */
  function Table(vs: seq<ContentState>): map<int32, ContentState> {
    if vs == [] then map[]
    else Table(vs[..|vs| - 1])[NativeInt(vs[|vs| - 1]) := vs[|vs| - 1]]
  }

  /** The static initialiser of the enum: fills the tag table from `values()`. */
  method BuildStates() returns (table: map<int32, ContentState>)
    ensures table == Table(Values())
    ensures forall s :: NativeInt(s) in table && table[NativeInt(s)] == s
    ensures forall n :: n in table ==> 0 <= n <= 3
  {
    var vs := Values();
    table := map[];
    for i := 0 to |vs|
      invariant table == Table(vs[..i])
      invariant forall j :: 0 <= j < i ==> NativeInt(vs[j]) in table && table[NativeInt(vs[j])] == vs[j]
      invariant forall n :: n in table ==> 0 <= n < i as int32
    {
      assert vs[..i + 1][..i] == vs[..i];
      table := table[NativeInt(vs[i]) := vs[i]];
    }
    assert vs[..|vs|] == vs;
    forall s ensures NativeInt(s) in table && table[NativeInt(s)] == s {
      assert s == vs[NativeInt(s) as int];
    }
  }

  /** The filled table (`sStates`). */
  function States(): map<int32, ContentState> {
    Table(Values())
  }

  /** The table maps exactly the tags 0..3, each to the state that carries it. */
  lemma {:induction false} StatesTable()
    ensures States().Keys == {0, 1, 2, 3}
    ensures forall s :: States()[NativeInt(s)] == s
  {
    var vs := Values();
    assert vs[..0] == [];
    assert vs[..1][..0] == vs[..0];
    assert vs[..2][..1] == vs[..1];
    assert vs[..3][..2] == vs[..2];
    assert vs[..4][..3] == vs[..3];
    assert vs[..4] == vs;
    assert Table(vs[..1]) == map[0 := Content];
    assert Table(vs[..2]) == map[0 := Content, 1 := Loading];
    assert Table(vs[..3]) == map[0 := Content, 1 := Loading, 2 := ErrorNetwork];
  }

  /** `ContentState.getState(int)`: the state with the given tag, or `null`
      (`None`) for a negative or unmapped tag. */
  function GetState(nativeInt: int32): Option<ContentState> {
    if nativeInt >= 0 then
      (if nativeInt in States() then Some(States()[nativeInt]) else None)
    else None
  }

  /** `GetState` undoes `NativeInt`. */
  lemma GetStateOfNativeInt(s: ContentState)
    ensures GetState(NativeInt(s)) == Some(s)
  {
    StatesTable();
  }

  /** `GetState` finds a state exactly for the tags 0..3, and the state it finds carries the tag. */
  lemma GetStateDomain(n: int32)
    ensures GetState(n).Some? <==> 0 <= n <= 3
    ensures GetState(n).Some? ==> NativeInt(GetState(n).value) == n
  {
    StatesTable();
    if 0 <= n <= 3 {
      var s := [Content, Loading, ErrorNetwork, ErrorGeneral][n as int];
      assert NativeInt(s) == n;
    }
  }

  /** `name()`: the identifier a state is declared with. */
  function Name(s: ContentState): string {
    match s
    case Content => "CONTENT"
    case Loading => "LOADING"
    case ErrorNetwork => "ERROR_NETWORK"
    case ErrorGeneral => "ERROR_GENERAL"
  }

  /** `ContentState.valueOf(String)`: throws `NullPointerException` for `null`
      and `IllegalArgumentException` for a name no state is declared with. */
  function ValueOf(name: JString): Result<ContentState, Exception> {
    match name
    case None => Failure(NullPointerException)
    case Some(n) =>
      if n == "CONTENT" then Success(Content)
      else if n == "LOADING" then Success(Loading)
      else if n == "ERROR_NETWORK" then Success(ErrorNetwork)
      else if n == "ERROR_GENERAL" then Success(ErrorGeneral)
      else Failure(IllegalArgumentException)
  }

  /** `ValueOf` accepts exactly the declared names and undoes `Name`. */
  lemma ValueOfName(name: string)
    ensures ValueOf(Some(name)).Success? <==> exists s :: Name(s) == name
    ensures forall s :: ValueOf(Some(Name(s))) == Success(s)
  {
    if ValueOf(Some(name)).Success? {
      assert Name(ValueOf(Some(name)).value) == name;
    }
  }
}
