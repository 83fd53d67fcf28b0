/**
  xnd_restart: the graph of the targets, and the recursive plan that forks them
  (xnd/xnd_restart.h:233-290 and xnd/xnd_restart.cpp:117-251). A fork is modelled by
  letting the child run to its exec before the parent goes on: a child works on its own
  copy of everything, so the order of the two does not change what either of them becomes.
 */
module ForestRestart {
  import opened Forest

  function ChildrenOf(ts: seq<Target>, t: Target): seq<Target> {
    if ts == [] then []
    else
      var rest := ChildrenOf(ts[..|ts| - 1], t);
      var c := ts[|ts| - 1];
      if c != t && t.WasParentOf(c) then rest + [c] else rest
  }

  lemma {:induction false} InChildrenOf(ts: seq<Target>, t: Target, c: Target)
    ensures c in ChildrenOf(ts, t) <==> c in ts && c != t && t.WasParentOf(c)
  {
    if ts != [] {
      InChildrenOf(ts[..|ts| - 1], t, c);
      assert ts == ts[..|ts| - 1] + [ts[|ts| - 1]];
    }
  }

  lemma {:induction false} ChildrenAreDistinct(ts: seq<Target>, t: Target)
    requires forall i, j :: 0 <= i < j < |ts| ==> ts[i] != ts[j]
    ensures forall i, j :: 0 <= i < j < |ChildrenOf(ts, t)| ==> ChildrenOf(ts, t)[i] != ChildrenOf(ts, t)[j]
  {
    if ts != [] {
      ChildrenAreDistinct(ts[..|ts| - 1], t);
      InChildrenOf(ts[..|ts| - 1], t, ts[|ts| - 1]);
    }
  }

  predicate Distinct(ts: seq<Target>) { forall i, j :: 0 <= i < j < |ts| ==> ts[i] != ts[j] }

  predicate ParentIn(ts: seq<Target>, t: Target) { exists p | p in ts :: p != t && p.WasParentOf(t) }

  lemma ParentInPrefix(ts: seq<Target>, i: nat, t: Target)
    requires i < |ts|
    ensures ParentIn(ts[..i + 1], t) <==> ParentIn(ts[..i], t) || (ts[i] != t && ts[i].WasParentOf(t))
  {
    assert ts[..i + 1] == ts[..i] + [ts[i]];
    if ParentIn(ts[..i], t) {
      var p :| p in ts[..i] && p != t && p.WasParentOf(t);
      assert p in ts[..i + 1];
    }
    assert ts[i] in ts[..i + 1];
  }

  /** xnd_restart_dag */
  class Dag {
    var indegree: map<Target, nat>
    var children: map<Target, seq<Target>>

    constructor (targets: seq<Target>)
      requires Distinct(targets)
      ensures forall t | t in targets :: Children(t) == ChildrenOf(targets, t)
      ensures forall t | t in targets :: Indegree(t) > 0 <==> ParentIn(targets, t)
    {
      indegree, children := map[], map[];
      new;
      for i := 0 to |targets|
        invariant forall j :: 0 <= j < i ==> targets[j] in indegree && indegree[targets[j]] == 0
        invariant forall j :: 0 <= j < i ==> Children(targets[j]) == ChildrenOf(targets, targets[j])
        invariant forall j :: i <= j < |targets| ==> targets[j] !in children
      {
        indegree := indegree[targets[i] := 0];
        FindChildren(targets, targets[i]);
      }
      for i := 0 to |targets|
        invariant forall t | t in targets :: t in indegree && (indegree[t] > 0 <==> ParentIn(targets[..i], t))
        invariant forall t | t in targets :: Children(t) == ChildrenOf(targets, t)
      {
        CountChildren(targets, targets[i]);
        forall t | t in targets
          ensures indegree[t] > 0 <==> ParentIn(targets[..i + 1], t)
        {
          ParentInPrefix(targets, i, t);
        }
      }
      assert targets[..|targets|] == targets;
    }

    /** One turn of the first loop of the constructor. */
    method FindChildren(targets: seq<Target>, t: Target)
      requires t !in children
      modifies this`children
      ensures Children(t) == ChildrenOf(targets, t)
      ensures forall s | s != t :: (s in children <==> s in old(children)) && Children(s) == old(Children(s))
    {
      for j := 0 to |targets|
        invariant Children(t) == ChildrenOf(targets[..j], t)
        invariant forall s | s != t :: (s in children <==> s in old(children)) && Children(s) == old(Children(s))
      {
        assert targets[..j + 1][..j] == targets[..j];
        var c := targets[j];
        if c != t && t.WasParentOf(c) {
          children := children[t := Children(t) + [c]];
        }
      }
      assert targets[..|targets|] == targets;
    }

    /** One turn of the second loop of the constructor. */
    method CountChildren(targets: seq<Target>, p: Target)
      requires forall t | t in targets :: t in indegree
      requires Children(p) == ChildrenOf(targets, p)
      modifies this`indegree
      ensures indegree.Keys == old(indegree.Keys)
      ensures forall t | t in targets ::
                indegree[t] > 0 <==> old(indegree[t]) > 0 || (p != t && p.WasParentOf(t))
    {
      var cs := Children(p);
      forall t
        ensures t in cs <==> t in targets && t != p && p.WasParentOf(t)
      {
        InChildrenOf(targets, p, t);
      }
      for j := 0 to |cs|
        invariant indegree.Keys == old(indegree.Keys)
        invariant forall t | t in targets :: indegree[t] > 0 <==> old(indegree[t]) > 0 || t in cs[..j]
      {
        assert cs[..j + 1] == cs[..j] + [cs[j]];
        indegree := indegree[cs[j] := indegree[cs[j]] + 1];
      }
      assert cs[..|cs|] == cs;
    }

    function Indegree(t: Target): nat
      reads this
    {
      if t in indegree then indegree[t] else 0
    }

    function Children(t: Target): seq<Target>
      reads this
    {
      if t in children then children[t] else []
    }
  }

  /** For which targets a process was created, and how often. */
  function Made(created: seq<Process>): multiset<Target> {
    if created == [] then multiset{}
    else
      var id := created[|created| - 1].id;
      Made(created[..|created| - 1]) + (if id.For? then multiset{id.t} else multiset{})
  }

  lemma MadeOneMore(created: seq<Process>, p: Process)
    ensures Made(created + [p]) == Made(created) + (if p.id.For? then multiset{p.id.t} else multiset{})
  {
    assert (created + [p])[..|created|] == created;
  }

  /** The one process whose parent may be the launcher: the one the launcher became. */
  predicate AsPlanned(ts: seq<Target>, top: Process, p: Process)
    requires WellFormed(ts)
  {
    && p.id.For? && p.id.t in ts
    && if p.id == top.id then p == Restored(ts, p.id.t).(parent := top.parent) else p == Restored(ts, p.id.t)
  }

  /** From `before` to `after` exactly the targets in `s` were created, each once and as planned. */
  predicate Adds(ts: seq<Target>, top: Process, before: seq<Process>, after: seq<Process>, s: set<Target>)
    requires WellFormed(ts)
  {
    && before <= after
    && Made(after) == Made(before) + multiset(s)
    && forall i :: |before| <= i < |after| ==> AsPlanned(ts, top, after[i])
  }

  lemma AddsBoth(
    ts: seq<Target>, top: Process, a: seq<Process>, b: seq<Process>, c: seq<Process>, s: set<Target>, s': set<Target>)
    requires WellFormed(ts) && Adds(ts, top, a, b, s) && Adds(ts, top, b, c, s') && s !! s'
    ensures Adds(ts, top, a, c, s + s')
  {
    assert multiset(s + s') == multiset(s) + multiset(s');
  }

  function MaxPid(ts: seq<Target>): (m: nat)
    ensures forall t | t in ts :: t.xndPid <= m
  {
    if ts == [] then 0
    else if MaxPid(ts[1..]) < ts[0].xndPid then ts[0].xndPid
    else MaxPid(ts[1..])
  }

  /** The process for `t` right after the fork; `top` is the first one. */
  function Expected(ts: seq<Target>, top: Process, t: Target): Process
    requires WellFormed(ts) && t in ts
  {
    if For(t) == top.id then Born(ts, t).(parent := top.parent) else Born(ts, t)
  }

  lemma BornOf(ts: seq<Target>, s: Target, t: Target)
    requires WellFormed(ts) && t in ts && Creates(ts, s, t)
    ensures !Independent(ts, t)
    ensures var maker := if Late(s, t) then Lead(s, Born(ts, s)) else Born(ts, s);
            Born(ts, t) == Process(For(t), if s.WasParentOf(t) then For(s) else InitProcess, maker.sid, maker.pgid)
  {
    OneCreator(ts, t);
  }

  lemma ForkedDisjoint(ts: seq<Target>, s: Target, forked: set<Target>, c: Target)
    requires WellFormed(ts) && c in ts && Creates(ts, s, c) && c !in forked
    requires forall t | t in forked :: t in ts && Creates(ts, s, t)
    ensures Subtrees(ts, forked) !! Subtree(ts, c)
  {
    forall t | t in Subtrees(ts, forked) && t in Subtree(ts, c)
      ensures false
    {
      var d :| d in forked && Under(ts, d, t);
      SiblingsDisjoint(ts, s, c, d, t);
    }
  }

  lemma RootsDisjoint(ts: seq<Target>, roots: set<Target>, c: Target)
    requires WellFormed(ts) && c in ts && Independent(ts, c) && c !in roots
    requires forall r | r in roots :: r in ts && Independent(ts, r)
    ensures Subtrees(ts, roots) !! Subtree(ts, c)
  {
    forall t | t in Subtrees(ts, roots) && t in Subtree(ts, c)
      ensures false
    {
      var d :| d in roots && Under(ts, d, t);
      var r := OneRoot(ts, t);
    }
  }

  lemma AllUnderRoots(ts: seq<Target>, roots: set<Target>)
    requires WellFormed(ts)
    requires forall r | r in ts :: r in roots <==> Independent(ts, r)
    ensures Subtrees(ts, roots) == set t | t in ts
  {
    forall t | t in ts
      ensures t in Subtrees(ts, roots)
    {
      var r := OneRoot(ts, t);
    }
  }

  lemma OneMore(
    ts: seq<Target>, top: Process, a: seq<Process>, b: seq<Process>, c: seq<Process>, forked: set<Target>, t: Target)
    requires WellFormed(ts) && Adds(ts, top, a, b, Subtrees(ts, forked)) && Adds(ts, top, b, c, Subtree(ts, t))
    requires Subtrees(ts, forked) !! Subtree(ts, t)
    ensures Adds(ts, top, a, c, Subtrees(ts, forked + {t}))
  {
    ForestGrows(ts, forked, t);
    AddsBoth(ts, top, a, b, c, Subtrees(ts, forked), Subtree(ts, t));
  }

  class Restart {
    const targets: seq<Target>
    const dag: Dag
    var independentRoots: seq<Target>
    var created: seq<Process>                     // what has executed xnd_restart_internal

    constructor (ts: seq<Target>)
      requires WellFormed(ts)
      ensures targets == ts && independentRoots == [] && created == []
      ensures fresh(dag) && DagIsRight()
    {
      targets := ts;
      dag := new Dag(ts);
      independentRoots, created := [], [];
    }

    predicate DagIsRight()
      reads dag
    {
      && (forall t | t in targets :: dag.Children(t) == ChildrenOf(targets, t))
      && (forall t | t in targets :: dag.Indegree(t) > 0 <==> ParentIn(targets, t))
    }

    ghost predicate Ready()
      reads this`independentRoots, dag
    {
      && WellFormed(targets) && DagIsRight() && Distinct(independentRoots)
      && forall t :: t in independentRoots <==> t in targets && Independent(targets, t)
    }

    /** The first process of the restart is created for an independent root. */
    predicate IsTop(top: Process)
      requires WellFormed(targets)
    {
      top.id.For? && top.id.t in targets && Independent(targets, top.id.t)
    }

    /**
      Every target is created exactly once, by a plan that terminates, and each of the new
      processes is what Forest.Restored says. The top one is a child of the launcher,
      unless all independent roots were orphans. In that case create_orphan comes back, and
      the process that called it goes on into `unreachable()`.
     */
    method ProcessTargets() returns (top: Process, returned: bool)
      requires WellFormed(targets) && DagIsRight() && targets != []
      requires independentRoots == [] && created == []
      modifies this
      ensures Made(created) == multiset(targets)
      ensures top.id.For? && top.id.t in targets && Independent(targets, top.id.t)
      ensures forall i :: 0 <= i < |created| ==> AsPlanned(targets, top, created[i])
      ensures top.parent == Launcher <==> exists t | t in targets :: Independent(targets, t) && t.ppid != 1
      ensures returned <==> forall t | t in targets :: Independent(targets, t) ==> t.ppid == 1
    {
      FindIndependentRoots();
      SomeRootIsFound();
      assert |independentRoots| != 0;
      var i := FirstNotOrphan();
      if i < |independentRoots| {
        top := Process(For(independentRoots[i]), Launcher, Launcher, Launcher);
        CreateProcess(independentRoots[i], top, true, top);
        returned := false;                        // it has executed xnd_restart_internal
      } else {
        var launcher := Process(Launcher, Launcher, Launcher, Launcher);
        top := Process(For(independentRoots[0]), InitProcess, Launcher, Launcher);
        CreateOrphan(independentRoots[0], launcher, true, top);
        returned := true;
      }
      AllCreated(top, created);
    }

    method FirstNotOrphan() returns (i: nat)
      requires Ready()
      ensures i <= |independentRoots| && (i < |independentRoots| ==> !independentRoots[i].WasOrphan())
      ensures i < |independentRoots| <==> exists t | t in targets :: Independent(targets, t) && !t.WasOrphan()
    {
      i := 0;
      while i < |independentRoots| && independentRoots[i].WasOrphan()
        invariant 0 <= i <= |independentRoots|
        invariant forall j :: 0 <= j < i ==> independentRoots[j].WasOrphan()
      {
        i := i + 1;
      }
      if i < |independentRoots| { assert independentRoots[i] in independentRoots; }
    }

    lemma AllCreated(top: Process, after: seq<Process>)
      requires WellFormed(targets) && Adds(targets, top, [], after, set t | t in targets)
      ensures Made(after) == multiset(targets)
      ensures forall i :: 0 <= i < |after| ==> AsPlanned(targets, top, after[i])
    {
      TargetsAreDistinct(targets);
    }

    lemma TargetsAreDistinct(ts: seq<Target>)
      requires Distinct(ts)
      ensures multiset(ts) == multiset(set t | t in ts)
    {
      if ts != [] {
        var rest := ts[..|ts| - 1];
        TargetsAreDistinct(rest);
        assert ts == rest + [ts[|ts| - 1]];
        assert (set t | t in ts) == (set t | t in rest) + {ts[|ts| - 1]};
      } else {
        assert (set t | t in ts) == {};
      }
    }

    lemma SomeRootIsFound()
      requires WellFormed(targets) && targets != []
      requires forall t :: t in independentRoots <==> t in targets && Independent(targets, t)
      ensures independentRoots != []
    {
      var t := SomeIndependentRoot(targets);
      assert t in independentRoots;
    }

    /** The assertions about the root flag hold, and the roots found are the right ones. */
    method FindIndependentRoots()
      requires WellFormed(targets) && DagIsRight() && independentRoots == []
      modifies this`independentRoots
      ensures Ready()
    {
      for i := 0 to |targets|
        invariant Distinct(independentRoots)
        invariant forall t :: t in independentRoots <==> t in targets[..i] && Independent(targets, t)
      {
        var t := targets[i];
        assert targets[..i + 1] == targets[..i] + [t];
        assert t !in targets[..i];
        ParentIffIndegree(t);
        if dag.Indegree(t) > 0 {
          assert !t.isRoot;
        } else {
          assert t.isRoot;
          var led := FindSessionLeader(t);
          if !led {
            independentRoots := independentRoots + [t];
          }
        }
      }
      assert targets[..|targets|] == targets;
    }

    lemma ParentIffIndegree(t: Target)
      requires WellFormed(targets) && DagIsRight() && t in targets
      ensures dag.Indegree(t) > 0 <==> !t.isRoot
    {
      if HasParent(targets, t) {
        var p :| p in targets && p.WasParentOf(t);
        assert p != t;
      }
    }

    method FindSessionLeader(t: Target) returns (found: bool)
      ensures found <==> exists s | s in targets :: s != t && s.WasSessionLeaderOf(t)
    {
      found := false;
      for i := 0 to |targets|
        invariant !found ==> forall s | s in targets[..i] :: !(s != t && s.WasSessionLeaderOf(t))
      {
        if targets[i] != t && targets[i].WasSessionLeaderOf(t) {
          return true;
        }
      }
    }

    method CreateChild(t: Target, me: Process, ghost top: Process)
      requires Ready() && IsTop(top) && t in targets && !Independent(targets, t)
      requires Process(For(t), me.id, me.sid, me.pgid) == Born(targets, t)
      modifies this`created
      ensures Adds(targets, top, old(created), created, Subtree(targets, t))
      decreases 0, MaxPid(targets) - t.xndPid, 3
    {
      CreateProcess(t, Process(For(t), me.id, me.sid, me.pgid), false, top);
    }

    /** The process in between exits, so the new one is handed to init. */
    method CreateOrphan(t: Target, me: Process, createRoots: bool, ghost top: Process)
      requires Ready() && IsTop(top) && t in targets && (createRoots ==> t == top.id.t)
      requires Process(For(t), InitProcess, me.sid, me.pgid) == Expected(targets, top, t)
      modifies this`created
      ensures Adds(targets, top, old(created), created,
                   if createRoots then set u | u in targets else Subtree(targets, t))
      decreases if createRoots then 1 else 0, MaxPid(targets) - t.xndPid, 3
    {
      var between := Process(InitProcess, me.id, me.sid, me.pgid);
      CreateProcess(t, Process(For(t), InitProcess, between.sid, between.pgid), createRoots, top);
    }

    method CreateProcess(self: Target, born: Process, createRoots: bool, ghost top: Process)
      requires Ready() && IsTop(top) && self in targets && (createRoots ==> self == top.id.t)
      requires born == Expected(targets, top, self)
      modifies this`created
      ensures Adds(targets, top, old(created), created,
                   if createRoots then set u | u in targets else Subtree(targets, self))
      decreases if createRoots then 1 else 0, MaxPid(targets) - self.xndPid, 2
    {
      ghost var others := {};
      if createRoots {
        others := CreateRoots(self, born, top);
      }
      ghost var mid := created;

      ghost var early := CreateEarly(self, born, top);
      ghost var between := created;

      var me := born;
      LeadIs(targets, self);
      if self.WasSessionLeader() {
        if me.id != me.sid {
          assert me.id != me.pgid;
          me := me.(sid := me.id, pgid := me.id);
        }
      } else if self.WasGroupLeader() {
        if me.id != me.pgid {
          me := me.(pgid := me.id);
        }
      }

      CreateLate(self, me, mid, early, top);

      ghost var forked := set t | t in targets && Creates(targets, self, t);
      ghost var before := created;
      created := created + [me];
      Executed(self, me, top, mid, before, forked);
      if createRoots {
        RootsDisjoint(targets, others, self);
        OneMore(targets, top, old(created), mid, created, others, self);
        AllUnderRoots(targets, others + {self});
      }
    }

    lemma Executed(
      self: Target, me: Process, top: Process, mid: seq<Process>, before: seq<Process>, forked: set<Target>)
      requires WellFormed(targets) && self in targets
      requires forked == set t | t in targets && Creates(targets, self, t)
      requires Adds(targets, top, mid, before, Subtrees(targets, forked))
      requires AsPlanned(targets, top, me) && me.id == For(self)
      ensures Adds(targets, top, mid, before + [me], Subtree(targets, self))
    {
      SubtreeIs(targets, self, forked);
      NotUnderItsOwn(self, forked);
      AddSelf(self, me, top, mid, before, Subtrees(targets, forked));
    }

    lemma AddSelf(self: Target, me: Process, top: Process, mid: seq<Process>, before: seq<Process>, s: set<Target>)
      requires WellFormed(targets) && self !in s
      requires Adds(targets, top, mid, before, s) && AsPlanned(targets, top, me) && me.id == For(self)
      ensures Adds(targets, top, mid, before + [me], {self} + s)
    {
      MadeOneMore(before, me);
      assert multiset({self} + s) == multiset(s) + multiset{self};
    }

    lemma NotUnderItsOwn(self: Target, forked: set<Target>)
      requires WellFormed(targets) && self in targets
      requires forall t | t in forked :: t in targets && Creates(targets, self, t)
      ensures self !in Subtrees(targets, forked)
    {
      if self in Subtrees(targets, forked) {
        var c :| c in forked && Under(targets, c, self);
        OneCreator(targets, c);
        UnderIsYounger(targets, c, self);
      }
    }

    /** The first loop of create_process. */
    method CreateRoots(self: Target, me: Process, ghost top: Process) returns (ghost others: set<Target>)
      requires Ready() && IsTop(top) && self == top.id.t && me == Expected(targets, top, self)
      modifies this`created
      ensures others == Except(independentRoots, self)
      ensures Adds(targets, top, old(created), created, Subtrees(targets, others))
      decreases 1, MaxPid(targets) - self.xndPid, 1
    {
      others := {};
      var roots := independentRoots;
      for i := 0 to |roots|
        invariant Ready() && independentRoots == roots
        invariant others == Except(roots[..i], self)
        invariant Adds(targets, top, old(created), created, Subtrees(targets, others))
      {
        ExceptNext(roots, i, self);
        if roots[i] != self {
          RootTurn(roots[i], me, old(created), others, top);
          others := others + {roots[i]};
        }
      }
      assert roots[..|roots|] == roots;
    }

    function Except(ts: seq<Target>, t: Target): set<Target> { set u | u in ts && u != t }

    lemma ExceptNext(ts: seq<Target>, i: nat, t: Target)
      requires i < |ts| && Distinct(ts)
      ensures Except(ts[..i + 1], t) == Except(ts[..i], t) + (if ts[i] != t then {ts[i]} else {})
      ensures ts[i] !in Except(ts[..i], t) && Except(ts[..i], t) <= set u | u in ts
    {
      assert ts[..i + 1] == ts[..i] + [ts[i]];
    }

    method RootTurn(ir: Target, me: Process, ghost start: seq<Process>, ghost others: set<Target>, ghost top: Process)
      requires Ready() && IsTop(top) && me == Expected(targets, top, top.id.t)
      requires ir in targets && Independent(targets, ir) && ir != top.id.t && ir !in others
      requires forall r | r in others :: r in targets && Independent(targets, r)
      requires Adds(targets, top, start, created, Subtrees(targets, others))
      modifies this`created
      ensures Adds(targets, top, start, created, Subtrees(targets, others + {ir}))
      decreases 1, 0, 0
    {
      ghost var before := created;
      CreateOrphan(ir, me, false, top);
      RootsDisjoint(targets, others, ir);
      OneMore(targets, top, start, before, created, others, ir);
    }

    /** The second loop: children that belong to neither a session nor a group of `self`. */
    method CreateEarly(self: Target, me: Process, ghost top: Process) returns (ghost forked: set<Target>)
      requires Ready() && IsTop(top) && self in targets && me == Expected(targets, top, self)
      modifies this`created
      ensures forked == set t | t in targets && Creates(targets, self, t) && !Late(self, t)
      ensures Adds(targets, top, old(created), created, Subtrees(targets, forked))
      decreases 0, MaxPid(targets) - self.xndPid, 1
    {
      var children := dag.Children(self);
      ChildrenAreDistinct(targets, self);
      forked := {};
      for i := 0 to |children|
        invariant Ready() && independentRoots == old(independentRoots)
        invariant forked == EarlyIn(self, children[..i])
        invariant Adds(targets, top, old(created), created, Subtrees(targets, forked))
      {
        forked := EarlyTurn(self, children, i, me, old(created), forked, top);
      }
      EarlyAre(self, children);
      assert children[..|children|] == children;
    }

    function EarlyIn(self: Target, children: seq<Target>): set<Target> { set t | t in children && !Late(self, t) }

    lemma EarlyNext(self: Target, children: seq<Target>, i: nat)
      requires i < |children| && Distinct(children) && children == ChildrenOf(targets, self)
      ensures var c := children[i];
              && EarlyIn(self, children[..i + 1]) == EarlyIn(self, children[..i]) + (if !Late(self, c) then {c} else {})
              && c !in EarlyIn(self, children[..i])
              && c in targets && c != self && self.WasParentOf(c)
    {
      assert children[..i + 1] == children[..i] + [children[i]];
      InChildrenOf(targets, self, children[i]);
    }

    lemma ChildrenAreCreated(self: Target, children: seq<Target>)
      requires WellFormed(targets) && self in targets && children <= ChildrenOf(targets, self)
      ensures forall t | t in EarlyIn(self, children) :: t in targets && Creates(targets, self, t)
    {
      forall t | t in EarlyIn(self, children)
        ensures t in targets && Creates(targets, self, t)
      {
        InChildrenOf(targets, self, t);
      }
    }

    lemma EarlyAre(self: Target, children: seq<Target>)
      requires WellFormed(targets) && self in targets && children == ChildrenOf(targets, self)
      ensures EarlyIn(self, children) == (set t | t in targets && Creates(targets, self, t) && !Late(self, t))
    {
      forall t
        ensures t in children <==> t in targets && t != self && self.WasParentOf(t)
      {
        InChildrenOf(targets, self, t);
      }
    }

    method EarlyTurn(
      self: Target, children: seq<Target>, i: nat, me: Process, ghost start: seq<Process>, ghost forked: set<Target>,
      ghost top: Process)
      returns (ghost forked': set<Target>)
      requires Ready() && IsTop(top) && self in targets && me == Expected(targets, top, self)
      requires i < |children| && Distinct(children) && children == ChildrenOf(targets, self)
      requires forked == EarlyIn(self, children[..i]) && Adds(targets, top, start, created, Subtrees(targets, forked))
      modifies this`created
      ensures forked' == EarlyIn(self, children[..i + 1])
      ensures Adds(targets, top, start, created, Subtrees(targets, forked'))
      decreases 0, MaxPid(targets) - self.xndPid, 0
    {
      var child := children[i];
      forked' := forked;
      EarlyNext(self, children, i);
      assert child != self;
      if !self.WasSessionLeaderOf(child) && !self.WasGroupLeaderOf(child) {
        ghost var before := created;
        ChildrenAreCreated(self, children[..i]);
        ForkIs(self, child, forked);
        BornNow(self, child, me, top);
        CreateChild(child, me, top);
        OneMore(targets, top, start, before, created, forked, child);
        forked' := forked + {child};
      }
    }

    /** The last loop: everything in a session or group of `self` that `self` has to create. */
    method CreateLate(self: Target, me: Process, ghost mid: seq<Process>, ghost early: set<Target>, ghost top: Process)
      requires Ready() && IsTop(top) && self in targets && me == Lead(self, Expected(targets, top, self))
      requires early == set t | t in targets && Creates(targets, self, t) && !Late(self, t)
      requires Adds(targets, top, mid, created, Subtrees(targets, early))
      modifies this`created
      ensures Adds(targets, top, mid, created, Subtrees(targets, set t | t in targets && Creates(targets, self, t)))
      decreases 0, MaxPid(targets) - self.xndPid, 1
    {
      ghost var forked := early;
      for i := 0 to |targets|
        invariant Ready() && independentRoots == old(independentRoots)
        invariant forked == ForkedBy(self, i)
        invariant Adds(targets, top, mid, created, Subtrees(targets, forked))
      {
        ForkedNext(self, i);
        if targets[i] != self && (self.WasSessionLeaderOf(targets[i]) || self.WasGroupLeaderOf(targets[i])) {
          forked := LateTurn(self, targets[i], me, mid, forked, top);
        }
      }
      assert forked == set t | t in targets && Creates(targets, self, t);
    }

    /** What `self` has forked for before turn `i` of the last loop. */
    ghost function ForkedBy(self: Target, i: nat): set<Target>
      requires i <= |targets|
    {
      set t | t in targets && Creates(targets, self, t) && (Late(self, t) ==> t in targets[..i])
    }

    lemma ForkedNext(self: Target, i: nat)
      requires WellFormed(targets) && i < |targets|
      ensures var t := targets[i];
              && ForkedBy(self, i + 1) ==
                 ForkedBy(self, i) + (if Creates(targets, self, t) && Late(self, t) then {t} else {})
              && (Late(self, t) ==> t !in ForkedBy(self, i))
    {
      assert targets[..i + 1] == targets[..i] + [targets[i]];
    }

    method LateTurn(
      self: Target, t: Target, me: Process, ghost mid: seq<Process>, ghost forked: set<Target>, ghost top: Process)
      returns (ghost forked': set<Target>)
      requires Ready() && IsTop(top) && self in targets && me == Lead(self, Expected(targets, top, self))
      requires t in targets && t != self && Late(self, t) && t !in forked
      requires forall u | u in forked :: u in targets && Creates(targets, self, u)
      requires Adds(targets, top, mid, created, Subtrees(targets, forked))
      modifies this`created
      ensures forked' == forked + (if Creates(targets, self, t) then {t} else {})
      ensures Adds(targets, top, mid, created, Subtrees(targets, forked'))
      decreases 0, MaxPid(targets) - self.xndPid, 0
    {
      ghost var before := created;
      forked' := forked;
      if !self.WasParentOf(t) && !t.isRoot {
        return;
      }
      ForkIs(self, t, forked);
      BornNow(self, t, me, top);
      if self.WasParentOf(t) {
        CreateChild(t, me, top);
      } else {
        CreateOrphan(t, me, false, top);
      }
      OneMore(targets, top, mid, before, created, forked, t);
      forked' := forked + {t};
    }

    lemma ForkIs(self: Target, t: Target, forked: set<Target>)
      requires WellFormed(targets) && self in targets && t in targets && Creates(targets, self, t) && t !in forked
      requires forall u | u in forked :: u in targets && Creates(targets, self, u)
      ensures !Independent(targets, t) && self.xndPid < t.xndPid
      ensures Subtrees(targets, forked) !! Subtree(targets, t)
    {
      OneCreator(targets, t);
      ForkedDisjoint(targets, self, forked, t);
    }

    /** What the forked process is: `me` is the process of `self` at that moment. */
    lemma BornNow(self: Target, t: Target, me: Process, top: Process)
      requires WellFormed(targets) && IsTop(top) && self in targets && t in targets && Creates(targets, self, t)
      requires var b := Expected(targets, top, self); me == if Late(self, t) then Lead(self, b) else b
      ensures Process(For(t), if self.WasParentOf(t) then me.id else InitProcess, me.sid, me.pgid) == Born(targets, t)
      ensures Expected(targets, top, t) == Born(targets, t)
    {
      BornOf(targets, self, t);
    }
  }
}
