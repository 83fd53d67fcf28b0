/**
  How the coordinator finds the images of a checkpoint (xnd/coordinator/xnd_coord.c:613-631
  and xnd/ckptfile.c:253-285). CheckpointProtocol uses the set this yields.
 */
module Manifest {
  import opened Wrappers
  import P = CheckpointProtocol

  const MAX_ID: nat := 0xFFFF_FFFF

  predicate Ascending(ids: seq<nat>) { forall i, j :: 0 <= i < j < |ids| ==> ids[i] < ids[j] }

  /** The smallest and the largest xnd_pid of the process list. */
  method Bounds(listed: seq<nat>) returns (lo: nat, hi: nat)
    requires forall p | p in listed :: p < MAX_ID
    ensures forall p | p in listed :: lo <= p <= hi
    ensures if listed == [] then lo == MAX_ID && hi == 0 else lo in listed && hi in listed
  {
    lo, hi := MAX_ID, 0;
    for i := 0 to |listed|
      invariant forall p | p in listed[..i] :: lo <= p <= hi
      invariant if i == 0 then lo == MAX_ID && hi == 0 else lo in listed[..i] && hi in listed[..i]
    {
      assert listed[..i + 1] == listed[..i] + [listed[i]] && listed[i] in listed;
      hi := if listed[i] > hi then listed[i] else hi;
      lo := if listed[i] < lo then listed[i] else lo;
    }
    assert listed[..|listed|] == listed;
  }

  function InRange(files: set<nat>, lo: nat, hi: nat): set<nat> { set p | p in files && lo <= p < hi }

  /**
    The manifest: in ascending order exactly the ids between the bounds that have an image;
    none is written unless there are as many of them as peers. An id of MAX_ID is excluded:
    the loop variable of the source is a u32 and would wrap around.
   */
  method WriteManifest(files: set<nat>, listed: seq<nat>, total: nat) returns (ids: Option<seq<nat>>)
    requires listed != [] && forall p | p in listed :: p < MAX_ID
    ensures ids.Some? <==> |P.ScannedIds(files, set p | p in listed)| == total
    ensures ids.Some? ==> Ascending(ids.value) && (set p | p in ids.value) == P.ScannedIds(files, set p | p in listed)
  {
    var lo, hi := Bounds(listed);
    var found: seq<nat> := [];
    for id := lo to hi + 1
      invariant Ascending(found) && (forall i :: 0 <= i < |found| ==> found[i] < id)
      invariant (set p | p in found) == InRange(files, lo, id) && |InRange(files, lo, id)| == |found|
    {
      OneIdMore(files, lo, id);
      if id in files {
        found := found + [id];
      }
    }
    ScanIs(files, listed, lo, hi);
    ids := if |found| == total then Some(found) else None;
  }

  lemma OneIdMore(files: set<nat>, lo: nat, id: nat)
    requires lo <= id
    ensures InRange(files, lo, id + 1) == InRange(files, lo, id) + (if id in files then {id} else {})
    ensures id !in InRange(files, lo, id)
  {}

  /** The scan between the bounds finds the ids that CheckpointProtocol speaks of. */
  lemma ScanIs(files: set<nat>, listed: seq<nat>, lo: nat, hi: nat)
    requires lo in listed && hi in listed && forall p | p in listed :: lo <= p <= hi
    ensures InRange(files, lo, hi + 1) == P.ScannedIds(files, set p | p in listed)
  {
    var ids := set p | p in listed;
    forall p | p in files && lo <= p <= hi
      ensures p in P.ScannedIds(files, ids)
    {
      assert lo in ids && hi in ids;
    }
  }
}
