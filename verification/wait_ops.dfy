/**
 * `WaitOps`: how many DHT ops each kind of source-chain change produces, and the
 * op counts that tests wait for.
 */
module WaitOps {

  const Genesis: nat := 7
  const Init: nat := 2
  const CapToken: nat := 2
  const Entry: nat := 3
  const Link: nat := 3
  const DeleteLink: nat := 2
  const Update: nat := 5
  const Delete: nat := 4

  /** The app was added but no zome call was made, so init has not run. */
  function ColdStart(): (r: nat)
    ensures r == TotalOps([GenesisChange])
  {
    assert [GenesisChange][1..] == [];
    Genesis
  }

  /** Genesis and init. */
  function Start(): (r: nat)
    ensures r == TotalOps([GenesisChange, InitChange])
  {
    assert [GenesisChange, InitChange][1..] == [InitChange];
    assert [InitChange][1..] == [];
    Genesis + Init
  }

  /** Genesis and an init that grants a capability. */
  function StartWithCap(): (r: nat)
    ensures r == TotalOps([GenesisChange, InitChange, CapTokenChange])
  {
    assert [GenesisChange, InitChange, CapTokenChange][1..] == [InitChange, CapTokenChange];
    assert [InitChange, CapTokenChange][1..] == [CapTokenChange];
    assert [CapTokenChange][1..] == [];
    Genesis + Init + CapToken
  }

  /** A path to the given depth, without sharding: the ops of a root entry and one link and one entry per level. */
  function Path(depth: nat): (r: nat)
    ensures r == TotalOps(PathChanges(depth))
  {
    PathChangesOps(depth);
    Entry + (Link + Entry) * depth
  }

  // ------------------------------------------------------------ reference: a list of changes

  /** One change to a source chain. */
  datatype Change =
    | GenesisChange | InitChange | CapTokenChange | EntryChange
    | LinkChange | DeleteLinkChange | UpdateChange | DeleteChange

  function OpsPer(c: Change): nat
  {
    match c
    case GenesisChange => Genesis
    case InitChange => Init
    case CapTokenChange => CapToken
    case EntryChange => Entry
    case LinkChange => Link
    case DeleteLinkChange => DeleteLink
    case UpdateChange => Update
    case DeleteChange => Delete
  }

  /** The ops produced by a list of changes. */
  function TotalOps(changes: seq<Change>): nat
  {
    if changes == [] then 0 else OpsPer(changes[0]) + TotalOps(changes[1..])
  }

  lemma {:induction false} TotalOpsAppend(a: seq<Change>, b: seq<Change>)
    ensures TotalOps(a + b) == TotalOps(a) + TotalOps(b)
  {
    if a == [] {
      assert a + b == b;
    } else {
      assert (a + b)[1..] == a[1..] + b;
      TotalOpsAppend(a[1..], b);
    }
  }

  /** A path of depth d: a root entry, then per level one link and one entry. */
  function PathChanges(depth: nat): (cs: seq<Change>)
    ensures |cs| == 2 * depth + 1
  {
    if depth == 0 then [EntryChange] else PathChanges(depth - 1) + [LinkChange, EntryChange]
  }

  /** The fixed counts, and how each extends the one before. */
  lemma StartCounts()
    ensures ColdStart() == 7 && Start() == 9 && StartWithCap() == 11
    ensures Start() == ColdStart() + Init
    ensures StartWithCap() == Start() + CapToken
  {
  }

  /** The ops of a path of depth d: one entry, then one link and one entry per level. */
  lemma {:induction false} PathChangesOps(depth: nat)
    ensures TotalOps(PathChanges(depth)) == Entry + (Link + Entry) * depth
  {
    if depth == 0 {
      assert [EntryChange][1..] == [];
    } else {
      PathChangesOps(depth - 1);
      TotalOpsAppend(PathChanges(depth - 1), [LinkChange, EntryChange]);
      assert [LinkChange, EntryChange][1..] == [EntryChange];
      assert [EntryChange][1..] == [];
    }
  }

  /** Each level adds one link and one entry. */
  lemma PathStep(depth: nat)
    ensures Path(0) == Entry
    ensures Path(depth + 1) == Path(depth) + Link + Entry
  {
  }

  /** Deeper paths produce strictly more ops. */
  lemma {:induction false} PathStrictlyIncreasing(d1: nat, d2: nat)
    requires d1 < d2
    ensures Path(d1) < Path(d2)
  {
    if d1 + 1 < d2 {
      PathStrictlyIncreasing(d1, d2 - 1);
    }
    PathStep(d2 - 1);
  }
}
