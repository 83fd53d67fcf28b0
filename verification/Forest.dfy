/**
  Reconstruction of the process forest (xnd/xnd_restart.cpp, xnd/xnd_restart.h): what the
  headers of the images say, who has to create whom, and what the created processes are.
 */
module Forest {

  /** struct xnd_ckpt_header: virtual ids of the checkpointed process. */
  datatype Target = Target(
    xndPid: nat, xndPpid: nat, pid: nat, ppid: nat, sid: nat, pgid: nat, isRoot: bool)
  {
    predicate WasOrphan() { ppid == 1 }
    predicate WasSessionLeader() { pid == sid }
    predicate WasGroupLeader() { pid == pgid }
    predicate WasSessionLeaderOf(t: Target) { pid == t.sid }
    predicate WasGroupLeaderOf(t: Target) { pid == t.pgid }
    predicate WasParentOf(t: Target) { xndPid == t.xndPpid }
  }

  /** What the checkpointed computation guarantees about its headers. */
  predicate WellFormed(ts: seq<Target>) {
    && (forall i, j :: 0 <= i < j < |ts| ==> ts[i].xndPid != ts[j].xndPid && ts[i].pid != ts[j].pid)
    && (forall t | t in ts :: t.xndPpid < t.xndPid)
    && (forall t | t in ts :: t.isRoot <==> !HasParent(ts, t))
    && (forall s, t | s in ts && t in ts && s.WasSessionLeaderOf(t) :: s.xndPid <= t.xndPid)
    && (forall t | t in ts :: GroupAssumption(ts, t))
  }

  predicate HasParent(ts: seq<Target>, t: Target) { exists p | p in ts :: p.WasParentOf(t) }

  /** The leader of a root's group, if it was checkpointed, is the root or its session leader. */
  predicate GroupAssumption(ts: seq<Target>, t: Target) {
    t.isRoot ==> forall g | g in ts && g.WasGroupLeaderOf(t) :: g == t || g.WasSessionLeaderOf(t)
  }

  lemma SameTarget(ts: seq<Target>, s: Target, t: Target)
    requires WellFormed(ts) && s in ts && t in ts && (s.xndPid == t.xndPid || s.pid == t.pid)
    ensures s == t
  {}

  // ----- who creates whom -----

  /** `s` creates `t` after it has become a leader itself. */
  predicate Late(s: Target, t: Target) { s.WasSessionLeaderOf(t) || s.WasGroupLeaderOf(t) }

  /** The cases in which create_process of `s` forks for `t`. */
  predicate Creates(ts: seq<Target>, s: Target, t: Target) {
    s in ts && s != t && (s.WasParentOf(t) || (t.isRoot && Late(s, t)))
  }

  predicate Independent(ts: seq<Target>, t: Target) {
    t.isRoot && forall s | s in ts && s.WasSessionLeaderOf(t) :: s == t
  }

  /** An independent root has no creator, every other target has exactly one. */
  lemma OneCreator(ts: seq<Target>, t: Target)
    requires WellFormed(ts) && t in ts
    ensures Independent(ts, t) <==> forall s :: !Creates(ts, s, t)
    ensures forall s, s' :: Creates(ts, s, t) && Creates(ts, s', t) ==> s == s'
    ensures forall s :: Creates(ts, s, t) ==> s.xndPid < t.xndPid
  {
    forall s, s' | Creates(ts, s, t) && Creates(ts, s', t)
      ensures s == s'
    {
      if s.WasParentOf(t) { assert HasParent(ts, t); }
      if s'.WasParentOf(t) { assert HasParent(ts, t); }
      SameTarget(ts, s, s');
    }
    forall s | Creates(ts, s, t)
      ensures s.xndPid < t.xndPid
    {
      if !s.WasParentOf(t) && s.xndPid == t.xndPid { SameTarget(ts, s, t); }
    }
    if !Independent(ts, t) {
      if t.isRoot {
        var s :| s in ts && s.WasSessionLeaderOf(t) && s != t;
        assert Creates(ts, s, t);
      } else {
        var p :| p in ts && p.WasParentOf(t);
        assert Creates(ts, p, t);
      }
    }
  }

  /**
    Without the assumption about groups the reconstruction is wrong: a root has one creator
    (the launcher, if it is independent) if and only if its checkpointed group leader is
    itself or its session leader.
   */
  lemma OneCreatorIffGroupAssumption(ts: seq<Target>, t: Target)
    requires forall i, j :: 0 <= i < j < |ts| ==> ts[i].xndPid != ts[j].xndPid && ts[i].pid != ts[j].pid
    requires t in ts && t.isRoot && !HasParent(ts, t)
    ensures GroupAssumption(ts, t) <==>
            if Independent(ts, t) then forall s :: !Creates(ts, s, t)
            else forall s, s' :: Creates(ts, s, t) && Creates(ts, s', t) ==> s == s'
  {
    if !GroupAssumption(ts, t) {
      var g :| g in ts && g.WasGroupLeaderOf(t) && g != t && !g.WasSessionLeaderOf(t);
      assert Creates(ts, g, t);
      if !Independent(ts, t) {
        var s :| s in ts && s.WasSessionLeaderOf(t) && s != t;
        assert Creates(ts, s, t);
      }
    } else {
      forall s | Creates(ts, s, t)
        ensures s.WasSessionLeaderOf(t)
      {}
    }
  }

  /** A pipeline of two processes whose common parent has exited: the first one leads their group. */
  function PipelineHead(): Target { Target(2, 1, 12, 1, 5, 12, true) }

  function PipelineTail(): Target { Target(3, 1, 13, 1, 5, 12, true) }

  /** All else that WellFormed demands holds, and both the launcher and the head create the tail. */
  lemma PipelineTailHasTwoCreators()
    ensures var ts := [PipelineHead(), PipelineTail()];
            && (forall t | t in ts :: t.xndPpid < t.xndPid && t.isRoot && !HasParent(ts, t))
            && (forall s, t | s in ts && t in ts && s.WasSessionLeaderOf(t) :: s.xndPid <= t.xndPid)
            && Independent(ts, PipelineTail()) && Creates(ts, PipelineHead(), PipelineTail())
            && !GroupAssumption(ts, PipelineTail())
  {
    var ts := [PipelineHead(), PipelineTail()];
    assert forall x | x in ts :: x == PipelineHead() || x == PipelineTail();
    assert PipelineHead() in ts && PipelineHead().WasGroupLeaderOf(PipelineTail());
  }

  // ----- how often a target is created -----

  /**
    How many processes are created for `t`, in a plan of at most `n` levels: the launcher
    sees to an independent root once, and every process of a creator forks for `t` once.
   */
  function Copies(ts: seq<Target>, t: Target, n: nat): nat
    decreases n, 0
  {
    if n == 0 then 0 else (if Independent(ts, t) then 1 else 0) + CopiesBy(ts, t, |ts|, n - 1)
  }

  /** How many of these are forked for the first `k` targets. */
  function CopiesBy(ts: seq<Target>, t: Target, k: nat, n: nat): nat
    requires k <= |ts|
    decreases n, k
  {
    if k == 0 then 0
    else CopiesBy(ts, t, k - 1, n) + (if Creates(ts, ts[k - 1], t) then Copies(ts, ts[k - 1], n) else 0)
  }

  predicate DistinctTargets(ts: seq<Target>) { forall i, j :: 0 <= i < j < |ts| ==> ts[i] != ts[j] }

  lemma {:induction false} NoCopies(ts: seq<Target>, t: Target, k: nat, n: nat)
    requires k <= |ts| && forall i :: 0 <= i < k ==> !Creates(ts, ts[i], t)
    ensures CopiesBy(ts, t, k, n) == 0
  {
    if k > 0 { NoCopies(ts, t, k - 1, n); }
  }

  /** A single creator contributes all there are. */
  lemma {:induction false} CopiesByOne(ts: seq<Target>, t: Target, k: nat, n: nat, i: nat)
    requires i < k <= |ts| && Creates(ts, ts[i], t) && forall j :: 0 <= j < k && Creates(ts, ts[j], t) ==> j == i
    ensures CopiesBy(ts, t, k, n) == Copies(ts, ts[i], n)
  {
    if k - 1 == i { NoCopies(ts, t, i, n); } else { CopiesByOne(ts, t, k - 1, n, i); }
  }

  /** Two creators contribute at least the sum. */
  lemma {:induction false} CopiesByTwo(ts: seq<Target>, t: Target, k: nat, n: nat, i: nat, j: nat)
    requires i < j < k <= |ts| && Creates(ts, ts[i], t) && Creates(ts, ts[j], t)
    ensures CopiesBy(ts, t, k, n) >= Copies(ts, ts[i], n) + Copies(ts, ts[j], n)
  {
    if k - 1 == j { CopiesAtLeast(ts, t, j, n, i); } else { CopiesByTwo(ts, t, k - 1, n, i, j); }
  }

  lemma {:induction false} CopiesAtLeast(ts: seq<Target>, t: Target, k: nat, n: nat, i: nat)
    requires i < k <= |ts| && Creates(ts, ts[i], t)
    ensures CopiesBy(ts, t, k, n) >= Copies(ts, ts[i], n)
  {
    if k - 1 > i { CopiesAtLeast(ts, t, k - 1, n, i); }
  }

  lemma OnlyCreator(ts: seq<Target>, t: Target, s: Target, n: nat)
    requires DistinctTargets(ts) && Creates(ts, s, t) && forall s' :: Creates(ts, s', t) ==> s' == s
    ensures CopiesBy(ts, t, |ts|, n) == Copies(ts, s, n)
  {
    var i :| 0 <= i < |ts| && ts[i] == s;
    CopiesByOne(ts, t, |ts|, n, i);
  }

  lemma CopyOfRoot(ts: seq<Target>, t: Target, n: nat)
    requires WellFormed(ts) && t in ts && Independent(ts, t) && n > 0
    ensures Copies(ts, t, n) == 1
  {
    OneCreator(ts, t);
    NoCopies(ts, t, |ts|, n - 1);
  }

  lemma CopyOfOther(ts: seq<Target>, t: Target, n: nat) returns (s: Target)
    requires WellFormed(ts) && t in ts && !Independent(ts, t) && n > 0
    ensures s in ts && s.xndPid < t.xndPid && Copies(ts, t, n) == Copies(ts, s, n - 1)
  {
    OneCreator(ts, t);
    s :| Creates(ts, s, t);
    OnlyCreator(ts, t, s, n - 1);
  }

  /** Under all assumptions every target is created exactly once. */
  lemma {:induction false} OneCopy(ts: seq<Target>, t: Target, n: nat)
    requires WellFormed(ts) && t in ts && t.xndPid < n
    ensures Copies(ts, t, n) == 1
    decreases n
  {
    var s := CopyOf(ts, t, n);
    if s != t { OneCopy(ts, s, n - 1); }
  }

  lemma CopyOf(ts: seq<Target>, t: Target, n: nat) returns (s: Target)
    requires WellFormed(ts) && t in ts && n > 0
    ensures s in ts && if s == t then Copies(ts, t, n) == 1
                       else s.xndPid < t.xndPid && Copies(ts, t, n) == Copies(ts, s, n - 1)
  {
    if Independent(ts, t) {
      CopyOfRoot(ts, t, n);
      s := t;
    } else {
      s := CopyOfOther(ts, t, n);
    }
  }

  /**
    A root whose creators are created once each is itself created once if and only if it
    meets the assumption about groups.
   */
  lemma OneCopyIff(ts: seq<Target>, t: Target, n: nat)
    requires forall i, j :: 0 <= i < j < |ts| ==> ts[i].xndPid != ts[j].xndPid && ts[i].pid != ts[j].pid
    requires t in ts && t.isRoot && !HasParent(ts, t) && forall s :: Creates(ts, s, t) ==> Copies(ts, s, n) == 1
    ensures Copies(ts, t, n + 1) == 1 <==> GroupAssumption(ts, t)
  {
    OneCreatorIffGroupAssumption(ts, t);
    if Independent(ts, t) {
      if s :| Creates(ts, s, t) { SomeCopy(ts, t, s, n); } else { NoCopies(ts, t, |ts|, n); }
    } else {
      var s :| s in ts && s.WasSessionLeaderOf(t) && s != t;
      assert Creates(ts, s, t);
      if s' :| Creates(ts, s', t) && s' != s { TwoCopies(ts, t, s, s', n); } else { OnlyCreator(ts, t, s, n); }
    }
  }

  lemma SomeCopy(ts: seq<Target>, t: Target, s: Target, n: nat)
    requires Creates(ts, s, t)
    ensures CopiesBy(ts, t, |ts|, n) >= Copies(ts, s, n)
  {
    var i :| 0 <= i < |ts| && ts[i] == s;
    CopiesAtLeast(ts, t, |ts|, n, i);
  }

  lemma TwoCopies(ts: seq<Target>, t: Target, s: Target, s': Target, n: nat)
    requires Creates(ts, s, t) && Creates(ts, s', t) && s != s'
    ensures CopiesBy(ts, t, |ts|, n) >= Copies(ts, s, n) + Copies(ts, s', n)
  {
    var i :| 0 <= i < |ts| && ts[i] == s;
    var j :| 0 <= j < |ts| && ts[j] == s';
    if i < j { CopiesByTwo(ts, t, |ts|, n, i, j); } else { CopiesByTwo(ts, t, |ts|, n, j, i); }
  }

  /** The tail of the pipeline is created twice. */
  lemma PipelineTailIsCreatedTwice(n: nat)
    requires n >= 2
    ensures Copies([PipelineHead(), PipelineTail()], PipelineHead(), n) == 1
    ensures Copies([PipelineHead(), PipelineTail()], PipelineTail(), n) == 2
  {
    var ts := [PipelineHead(), PipelineTail()];
    PipelineTailHasTwoCreators();
    assert ts[0] == PipelineHead() && ts[1] == PipelineTail();
    forall m: nat | m >= 1
      ensures Copies(ts, PipelineHead(), m) == 1
    {
      assert Independent(ts, PipelineHead());
      NoCopies(ts, PipelineHead(), 2, m - 1);
    }
    CopiesByOne(ts, PipelineTail(), 2, n - 1, 0);
  }

  function Creator(ts: seq<Target>, t: Target): (s: Target)
    requires WellFormed(ts) && t in ts && !Independent(ts, t)
    ensures Creates(ts, s, t) && s.xndPid < t.xndPid
  {
    OneCreator(ts, t);
    var s :| Creates(ts, s, t);
    s
  }

  /** `t` is in the part of the forest that `s` creates. */
  predicate Under(ts: seq<Target>, s: Target, t: Target)
    requires WellFormed(ts) && t in ts
    decreases t.xndPid
  {
    t == s || (!Independent(ts, t) && Under(ts, s, Creator(ts, t)))
  }

  function Subtree(ts: seq<Target>, s: Target): set<Target>
    requires WellFormed(ts)
  {
    set t | t in ts && Under(ts, s, t)
  }

  lemma {:induction false} UnderIsYounger(ts: seq<Target>, s: Target, t: Target)
    requires WellFormed(ts) && s in ts && t in ts && Under(ts, s, t)
    ensures s.xndPid <= t.xndPid
    decreases t.xndPid
  {
    if t != s { UnderIsYounger(ts, s, Creator(ts, t)); }
  }

  lemma {:induction false} UnderTransitive(ts: seq<Target>, r: Target, s: Target, t: Target)
    requires WellFormed(ts) && s in ts && t in ts && Under(ts, r, s) && Under(ts, s, t)
    ensures Under(ts, r, t)
    decreases t.xndPid
  {
    if t != s { UnderTransitive(ts, r, s, Creator(ts, t)); }
  }

  /** The parts created by two different forks of the same process do not overlap. */
  lemma {:induction false} SiblingsDisjoint(ts: seq<Target>, s: Target, a: Target, b: Target, t: Target)
    requires WellFormed(ts) && a in ts && b in ts && t in ts && a != b
    requires Creates(ts, s, a) && Creates(ts, s, b)
    ensures !(Under(ts, a, t) && Under(ts, b, t))
    decreases t.xndPid
  {
    OneCreator(ts, a);
    OneCreator(ts, b);
    if Under(ts, a, t) && Under(ts, b, t) {
      if t == a {
        UnderIsYounger(ts, b, Creator(ts, a));
      } else if t == b {
        UnderIsYounger(ts, a, Creator(ts, b));
      } else {
        SiblingsDisjoint(ts, s, a, b, Creator(ts, t));
      }
    }
  }

  /** Every target is under exactly one independent root. */
  lemma {:induction false} OneRoot(ts: seq<Target>, t: Target) returns (r: Target)
    requires WellFormed(ts) && t in ts
    ensures r in ts && Independent(ts, r) && Under(ts, r, t)
    ensures forall r' | r' in ts && Independent(ts, r') && Under(ts, r', t) :: r' == r
    decreases t.xndPid
  {
    if Independent(ts, t) {
      r := t;
    } else {
      r := OneRoot(ts, Creator(ts, t));
    }
  }

  /** What a process creates is itself and what the processes it forks create. */
  lemma SubtreeIs(ts: seq<Target>, s: Target, forked: set<Target>)
    requires WellFormed(ts) && s in ts
    requires forall t | t in ts :: t in forked <==> Creates(ts, s, t)
    requires forall t | t in forked :: t in ts
    ensures Subtree(ts, s) == {s} + Subtrees(ts, forked)
  {
    forall t | t in ts
      ensures t in Subtree(ts, s) <==> t in {s} + Subtrees(ts, forked)
    {
      if t in Subtree(ts, s) && t != s {
        var c := FirstStep(ts, s, t);
      }
      if t in Subtrees(ts, forked) {
        var c :| c in forked && Under(ts, c, t);
        OneCreator(ts, c);
        assert Under(ts, s, c);
        UnderTransitive(ts, s, c, t);
      }
    }
  }

  lemma {:induction false} FirstStep(ts: seq<Target>, s: Target, t: Target) returns (c: Target)
    requires WellFormed(ts) && t in ts && s != t && Under(ts, s, t)
    ensures c in ts && Creates(ts, s, c) && Under(ts, c, t)
    decreases t.xndPid
  {
    var p := Creator(ts, t);
    if p == s { c := t; } else { c := FirstStep(ts, s, p); }
  }

  function Subtrees(ts: seq<Target>, roots: set<Target>): set<Target>
    requires WellFormed(ts)
  {
    set t | t in ts && exists c :: c in roots && Under(ts, c, t)
  }

  lemma ForestGrows(ts: seq<Target>, roots: set<Target>, c: Target)
    requires WellFormed(ts)
    ensures Subtrees(ts, roots + {c}) == Subtrees(ts, roots) + Subtree(ts, c)
  {
    forall t | t in ts && Under(ts, c, t)
      ensures t in Subtrees(ts, roots + {c})
    {
      assert c in roots + {c};
    }
    forall t | t in Subtrees(ts, roots)
      ensures t in Subtrees(ts, roots + {c})
    {
      var r :| r in roots && Under(ts, r, t);
      assert r in roots + {c};
    }
  }

  /** There is always a root that nobody else has to create. */
  lemma SomeIndependentRoot(ts: seq<Target>) returns (t: Target)
    requires WellFormed(ts) && ts != []
    ensures t in ts && Independent(ts, t)
  {
    t := OneRoot(ts, ts[0]);
  }

  // ----- what the created processes are -----

  /** Ids of the new processes: each is called after the target it is forked for. */
  datatype Id = Launcher | InitProcess | For(t: Target)

  /** A process of the operating system. */
  datatype Process = Process(id: Id, parent: Id, sid: Id, pgid: Id)

  /** setsid and setpgid(0, 0) as create_process calls them. */
  function Lead(t: Target, me: Process): Process {
    if t.WasSessionLeader() then
      if me.id != me.sid then me.(sid := me.id, pgid := me.id) else me
    else if t.WasGroupLeader() then
      if me.id != me.pgid then me.(pgid := me.id) else me
    else me
  }

  function NewParent(ts: seq<Target>, t: Target): Id
    requires WellFormed(ts) && t in ts
  {
    if Independent(ts, t) || !Creator(ts, t).WasParentOf(t) then InitProcess else For(Creator(ts, t))
  }

  /** The process for `t` right after the fork. */
  function Born(ts: seq<Target>, t: Target): Process
    requires WellFormed(ts) && t in ts
    decreases t.xndPid
  {
    var parent := NewParent(ts, t);
    if Independent(ts, t) then Process(For(t), parent, Launcher, Launcher)
    else
      var s := Creator(ts, t);
      var maker := if Late(s, t) then Lead(s, Born(ts, s)) else Born(ts, s);
      Process(For(t), parent, maker.sid, maker.pgid)
  }

  /** The process for `t` when it executes xnd_restart_internal. */
  function Restored(ts: seq<Target>, t: Target): Process
    requires WellFormed(ts) && t in ts
  {
    Lead(t, Born(ts, t))
  }

  /** The rebuilt forest has the parents of the original one. */
  lemma ParentIsRestored(ts: seq<Target>, t: Target, p: Target)
    requires WellFormed(ts) && t in ts && p in ts
    ensures Restored(ts, t).parent == For(p) <==> p.WasParentOf(t)
  {
    OneCreator(ts, t);
    if p.WasParentOf(t) {
      assert HasParent(ts, t) && Creates(ts, p, t);
    }
  }

  /** A new process is never the leader of the session or group it is born into. */
  lemma {:induction false} BornAmongElders(ts: seq<Target>, t: Target, v: Target)
    requires WellFormed(ts) && t in ts && (Born(ts, t).sid == For(v) || Born(ts, t).pgid == For(v))
    ensures v in ts && v.xndPid < t.xndPid
    decreases t.xndPid
  {
    if !Independent(ts, t) {
      var s := Creator(ts, t);
      if v != s { BornAmongElders(ts, s, v); }
    }
  }

  /** So setsid and setpgid do what the code assumes. */
  lemma LeadIs(ts: seq<Target>, t: Target)
    requires WellFormed(ts) && t in ts
    ensures var me, me' := Born(ts, t), Restored(ts, t);
            && me.id != me.sid && me.id != me.pgid
            && me'.sid == (if t.WasSessionLeader() then For(t) else me.sid)
            && me'.pgid == (if t.WasSessionLeader() || t.WasGroupLeader() then For(t) else me.pgid)
  {
    if Born(ts, t).sid == For(t) || Born(ts, t).pgid == For(t) { BornAmongElders(ts, t, t); }
  }

  // ----- sessions and groups -----

  /** What the kernel guarantees about the ids of the checkpointed processes. */
  predicate KernelIds(ts: seq<Target>) {
    && (forall s, t | s in ts && t in ts && s.WasSessionLeaderOf(t) :: s.WasSessionLeader())
    && (forall t | t in ts && t.WasSessionLeader() :: t.WasGroupLeader())
  }

  /** What a checkpointed session or group id is called among the new processes. */
  predicate IsNameOf(ts: seq<Target>, id: Id, n: nat) {
    match id
    case For(v) => v in ts && v.pid == n
    case Launcher => forall v | v in ts :: v.pid != n
    case InitProcess => false
  }

  predicate SessionIsRestored(ts: seq<Target>, t: Target)
    requires WellFormed(ts) && t in ts
  {
    IsNameOf(ts, Restored(ts, t).sid, t.sid)
  }

  predicate GroupIsRestored(ts: seq<Target>, t: Target)
    requires WellFormed(ts) && t in ts
  {
    IsNameOf(ts, Restored(ts, t).pgid, t.pgid)
  }

  /** Session and group of a process that is not independent, in terms of its creator's. */
  predicate KeptNear(s: Target, t: Target) {
    && (t.sid == t.pid || t.sid == s.sid)
    && (t.pgid == t.pid || t.pgid == s.pgid)
  }

  /** The process and all processes it is created under kept near their creators. */
  predicate Restorable(ts: seq<Target>, t: Target)
    requires WellFormed(ts) && t in ts
    decreases t.xndPid
  {
    Independent(ts, t) || (KeptNear(Creator(ts, t), t) && Restorable(ts, Creator(ts, t)))
  }

  /** An independent root always gets its session and group back. */
  lemma IndependentIsRestored(ts: seq<Target>, t: Target)
    requires WellFormed(ts) && KernelIds(ts) && t in ts && Independent(ts, t)
    ensures SessionIsRestored(ts, t) && GroupIsRestored(ts, t)
  {
    LeadIs(ts, t);
    assert GroupAssumption(ts, t);
  }

  /** A process with the session or group of its creator is born into exactly that one. */
  lemma BornIntoCreators(ts: seq<Target>, t: Target)
    requires WellFormed(ts) && KernelIds(ts) && t in ts && !Independent(ts, t)
    ensures var s := Creator(ts, t);
            && (t.sid == s.sid ==> Born(ts, t).sid == Restored(ts, s).sid)
            && (t.pgid == s.pgid && (t.sid == t.pid || t.sid == s.sid) ==> Born(ts, t).pgid == Restored(ts, s).pgid)
  {
    LeadIs(ts, Creator(ts, t));
  }

  /**
    Sessions and groups: a process whose ancestors and itself have each kept the session
    and group of their creator or lead their own gets both back.
   */
  lemma {:induction false} SessionAndGroupAreRestored(ts: seq<Target>, t: Target)
    requires WellFormed(ts) && KernelIds(ts) && t in ts && Restorable(ts, t)
    ensures SessionIsRestored(ts, t) && GroupIsRestored(ts, t)
    decreases t.xndPid
  {
    if Independent(ts, t) {
      IndependentIsRestored(ts, t);
    } else {
      SessionAndGroupAreRestored(ts, Creator(ts, t));
      BornIntoCreators(ts, t);
      LeadIs(ts, t);
    }
  }

  // ----- exactly when an id is restored -----

  datatype Leader = Outside | Led(t: Target)

  /** Whose session and group `t` is forked into, read off the headers. */
  function InheritedSession(ts: seq<Target>, t: Target): Leader
    requires WellFormed(ts) && t in ts
    decreases t.xndPid
  {
    if Independent(ts, t) then Outside
    else
      var s := Creator(ts, t);
      if Late(s, t) && s.WasSessionLeader() then Led(s) else InheritedSession(ts, s)
  }

  function InheritedGroup(ts: seq<Target>, t: Target): Leader
    requires WellFormed(ts) && t in ts
    decreases t.xndPid
  {
    if Independent(ts, t) then Outside
    else
      var s := Creator(ts, t);
      if Late(s, t) && (s.WasSessionLeader() || s.WasGroupLeader()) then Led(s) else InheritedGroup(ts, s)
  }

  /** The creator of `v` leads a session (or a group) of its own before it forks `v`. */
  predicate IsLateFork(ts: seq<Target>, v: Target, group: bool)
    requires WellFormed(ts) && v in ts
  {
    && !Independent(ts, v)
    && var s := Creator(ts, v);
       Late(s, v) && (s.WasSessionLeader() || (group && s.WasGroupLeader()))
  }

  /** What is inherited comes from the nearest such fork among `t` and those it was created under. */
  lemma {:induction false} NearestLateFork(ts: seq<Target>, t: Target, group: bool) returns (u: Target)
    requires WellFormed(ts) && t in ts
    ensures var l := if group then InheritedGroup(ts, t) else InheritedSession(ts, t);
            if l.Led? then
              && u in ts && Under(ts, u, t) && IsLateFork(ts, u, group) && Creator(ts, u) == l.t
              && forall v | v in ts && Under(ts, v, t) && IsLateFork(ts, v, group) :: Under(ts, v, u)
            else forall v | v in ts && Under(ts, v, t) :: !IsLateFork(ts, v, group)
    decreases t.xndPid
  {
    u := t;
    if !Independent(ts, t) && !IsLateFork(ts, t, group) {
      u := NearestLateFork(ts, Creator(ts, t), group);
    }
  }

  predicate IsLedBy(ts: seq<Target>, l: Leader, n: nat) {
    if l.Led? then l.t.pid == n else forall v | v in ts :: v.pid != n
  }

  lemma {:induction false} BornIs(ts: seq<Target>, t: Target)
    requires WellFormed(ts) && t in ts
    ensures var l := InheritedSession(ts, t);
            (l.Led? ==> l.t in ts) && Born(ts, t).sid == if l.Led? then For(l.t) else Launcher
    ensures var l := InheritedGroup(ts, t);
            (l.Led? ==> l.t in ts) && Born(ts, t).pgid == if l.Led? then For(l.t) else Launcher
    decreases t.xndPid
  {
    if !Independent(ts, t) {
      BornIs(ts, Creator(ts, t));
      LeadIs(ts, Creator(ts, t));
    }
  }

  /** The session and the group of a process are restored exactly under these conditions. */
  lemma RestoredIff(ts: seq<Target>, t: Target)
    requires WellFormed(ts) && KernelIds(ts) && t in ts
    ensures SessionIsRestored(ts, t) <==> t.sid == t.pid || IsLedBy(ts, InheritedSession(ts, t), t.sid)
    ensures GroupIsRestored(ts, t) <==> t.pgid == t.pid || IsLedBy(ts, InheritedGroup(ts, t), t.pgid)
  {
    BornIs(ts, t);
    LeadIs(ts, t);
  }

  /** A shell 1 forks 2, which forks 3 and then calls setsid. 3 stays in the session of 1. */
  function Shell(): Target { Target(1, 0, 11, 1, 11, 11, true) }

  function Daemon(): Target { Target(2, 1, 12, 11, 12, 12, false) }

  function Helper(): Target { Target(3, 2, 13, 12, 11, 13, false) }

  function ThreeProcesses(): seq<Target> { [Shell(), Daemon(), Helper()] }

  lemma ThreeRoots()
    ensures forall t | t in ThreeProcesses() :: t.isRoot <==> !HasParent(ThreeProcesses(), t)
  {
    var ts := ThreeProcesses();
    assert forall x | x in ts :: x == Shell() || x == Daemon() || x == Helper();
    assert Shell() in ts && Daemon() in ts;
    assert Shell().WasParentOf(Daemon()) && Daemon().WasParentOf(Helper());
  }

  lemma ThreeIds()
    ensures var ts := ThreeProcesses();
            && (forall i, j :: 0 <= i < j < |ts| ==> ts[i].xndPid != ts[j].xndPid && ts[i].pid != ts[j].pid)
            && (forall t | t in ts :: t.xndPpid < t.xndPid)
            && (forall s, t | s in ts && t in ts && s.WasSessionLeaderOf(t) :: s.xndPid <= t.xndPid)
            && (forall t | t in ts :: GroupAssumption(ts, t)) && KernelIds(ts)
  {
    assert forall x | x in ThreeProcesses() :: x == Shell() || x == Daemon() || x == Helper();
  }

  lemma ThreeAreWellFormed()
    ensures WellFormed(ThreeProcesses()) && KernelIds(ThreeProcesses())
  {
    ThreeRoots();
    ThreeIds();
  }

  lemma ThreeCreators()
    requires WellFormed(ThreeProcesses())
    ensures var ts := ThreeProcesses();
            && Shell() in ts && Daemon() in ts && Helper() in ts
            && !Independent(ts, Daemon()) && Creator(ts, Daemon()) == Shell()
            && !Independent(ts, Helper()) && Creator(ts, Helper()) == Daemon()
            && Independent(ts, Shell())
  {
    var ts := ThreeProcesses();
    assert forall x | x in ts :: x == Shell() || x == Daemon() || x == Helper();
    assert Shell() in ts && Daemon() in ts && Helper() in ts;
    OneCreator(ts, Daemon());
    OneCreator(ts, Helper());
    assert Creates(ts, Shell(), Daemon()) && Creates(ts, Daemon(), Helper());
  }

  /** On restart 2 is forked before 1 calls setsid, so 3 ends up outside of 1's session. */
  lemma GrandchildLosesItsSession()
    ensures WellFormed(ThreeProcesses()) && Helper() in ThreeProcesses()
    ensures Shell().WasSessionLeaderOf(Helper()) && !SessionIsRestored(ThreeProcesses(), Helper())
  {
    var ts := ThreeProcesses();
    ThreeAreWellFormed();
    ThreeCreators();
    assert InheritedSession(ts, Daemon()) == InheritedSession(ts, Shell()) == Outside;
    assert InheritedSession(ts, Helper()) == Outside;
    RestoredIff(ts, Helper());
  }
}
