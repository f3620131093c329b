/** The ordered list of key kinds and what an accepted list guarantees. */
module Hierarchy {
  import opened Model

  datatype Role = RootRole | Kek | Dek | Tek

  datatype KeySpec = KeySpec(kind: Name, role: Role, supported: bool)

  datatype KeyHierarchy = KeyHierarchy(name: Name, specs: seq<KeySpec>)

  datatype HierarchyError =
    | NameEmpty | KeysListEmpty | KindEmpty | AlgorithmInvalid
    | FirstKeyNotRoot | LastKeyNotDek | DuplicateRoot | InvalidIntermediateKey | DuplicateKind

  /** Position of a kind, -1 when it is absent. */
  function IndexOf(specs: seq<KeySpec>, kind: Name): (i: int)
    ensures -1 <= i < |specs|
    ensures i >= 0 ==> specs[i].kind == kind
    ensures forall j | 0 <= j < |specs| && (i < 0 || j < i) :: specs[j].kind != kind
  {
    if specs == [] then -1
    else if specs[0].kind == kind then 0
    else
      var r := IndexOf(specs[1..], kind);
      if r < 0 then -1 else r + 1
  }

  function FindKeySpec(specs: seq<KeySpec>, kind: Name): (r: Option<KeySpec>) {
    var i := IndexOf(specs, kind);
    if i < 0 then None else Some(specs[i])
  }

  function FindParentKeySpec(specs: seq<KeySpec>, kind: Name): (r: Option<KeySpec>) {
    var i := IndexOf(specs, kind);
    if i <= 0 then None else Some(specs[i - 1])
  }

  ghost predicate DistinctKinds(specs: seq<KeySpec>) {
    forall i, j | 0 <= i < j < |specs| :: specs[i].kind != specs[j].kind
  }

  /** What acceptance means: one root, first; a dek, last; keks and teks between; kinds distinct. */
  ghost predicate Valid(h: KeyHierarchy) {
    && h.name != "" && h.specs != []
    && (forall i | 0 <= i < |h.specs| :: h.specs[i].kind != "" && h.specs[i].supported)
    && (forall i | 0 <= i < |h.specs| :: h.specs[i].role == RootRole <==> i == 0)
    && (forall i | 1 <= i < |h.specs| :: h.specs[i].role == Dek <==> i == |h.specs| - 1)
    && DistinctKinds(h.specs)
  }

  /** The verdict on one position, given the positions before it. */
  ghost function Verdict(h: KeyHierarchy, i: nat): (r: Option<HierarchyError>)
    requires i < |h.specs|
  {
    var k := h.specs[i];
    if k.kind == "" then Some(KindEmpty)
    else if !k.supported then Some(AlgorithmInvalid)
    else if i == 0 && k.role != RootRole then Some(FirstKeyNotRoot)
    else if 0 < i == |h.specs| - 1 && k.role != Dek then Some(LastKeyNotDek)
    else if 0 < i < |h.specs| - 1 && k.role == RootRole then Some(DuplicateRoot)
    else if 0 < i < |h.specs| - 1 && k.role == Dek then Some(InvalidIntermediateKey)
    else if exists j | 0 <= j < i :: h.specs[j].kind == k.kind then Some(DuplicateKind)
    else None
  }

  /** Accepts exactly the valid hierarchies; otherwise reports the first position at fault. */
  method Validate(h: KeyHierarchy) returns (err: Option<HierarchyError>)
    ensures err.None? <==> Valid(h)
    ensures h.name == "" ==> err == Some(NameEmpty)
    ensures h.name != "" && h.specs == [] ==> err == Some(KeysListEmpty)
    ensures h.name != "" && h.specs != [] && err.Some? ==>
              exists i: nat :: i < |h.specs| && err == Verdict(h, i)
                               && forall j: nat | j < i :: Verdict(h, j).None?
  {
    if h.name == "" { return Some(NameEmpty); }
    var n := |h.specs|;
    if n == 0 { return Some(KeysListEmpty); }
    var seenKind: set<Name> := {};
    var i := 0;
    while i < n
      invariant 0 <= i <= n
      invariant seenKind == set j | 0 <= j < i :: h.specs[j].kind
      invariant forall j: nat | j < i :: Verdict(h, j).None?
    {
      var k := h.specs[i];
      if k.kind == "" { return FaultAt(h, i, KindEmpty); }
      if !k.supported { return FaultAt(h, i, AlgorithmInvalid); }
      if i == 0 {
        if k.role != RootRole { return FaultAt(h, i, FirstKeyNotRoot); }
      } else if i == n - 1 {
        if k.role != Dek { return FaultAt(h, i, LastKeyNotDek); }
      } else {
        if k.role == RootRole { return FaultAt(h, i, DuplicateRoot); }
        if k.role == Dek { return FaultAt(h, i, InvalidIntermediateKey); }
      }
      if k.kind in seenKind { return FaultAt(h, i, DuplicateKind); }
      seenKind := seenKind + {k.kind};
      i := i + 1;
    }
    err := None;
    AllVerdictsClear(h);
  }

  /** Names the position an error is reported for. */
  function FaultAt(h: KeyHierarchy, ghost i: nat, e: HierarchyError): (r: Option<HierarchyError>)
    requires i < |h.specs| && Verdict(h, i) == Some(e)
    ensures r == Verdict(h, i) && !Valid(h)
  {
    Some(e)
  }

  lemma AllVerdictsClear(h: KeyHierarchy)
    requires h.name != "" && h.specs != []
    requires forall j: nat | j < |h.specs| :: Verdict(h, j).None?
    ensures Valid(h)
  {
    forall i: nat | i < |h.specs|
      ensures h.specs[i].kind != "" && h.specs[i].supported
      ensures h.specs[i].role == RootRole <==> i == 0
      ensures 1 <= i ==> (h.specs[i].role == Dek <==> i == |h.specs| - 1)
      ensures forall j | 0 <= j < i :: h.specs[j].kind != h.specs[i].kind
    {
      assert Verdict(h, i).None?;
    }
  }

  /** In an accepted hierarchy a kind's position is where it stands. */
  lemma IndexAt(specs: seq<KeySpec>, i: nat)
    requires DistinctKinds(specs) && i < |specs|
    ensures IndexOf(specs, specs[i].kind) == i
  {
  }
}
