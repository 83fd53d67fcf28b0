/**
  The ids the coordinator gives out (xnd/coordinator/xnd_coord.c: registration on launch,
  fork and restart, exit, and the root flags), and what they guarantee to a restart.
 */
module Identity {
  import F = Forest

  /** struct proc; real ids are the kernel's, the others the coordinator's. */
  datatype Proc = Proc(
    realPid: nat, realPpid: nat, virtPid: nat, virtPpid: nat,
    xndPid: nat, xndPpid: nat, xndPgid: nat, isRoot: bool)

  datatype Outcome = Registered | Known | CoordinatorExits

  const INITIAL_VIRT_PID: nat := 1
  const INITIAL_XND_PID: nat := 1000

  /** A parent's ids are smaller than its child's, and no id is above the counters. */
  predicate InOrder(p: Proc, nextVirt: nat, nextXnd: nat) {
    p.virtPpid < p.virtPid < nextVirt && p.xndPpid < p.xndPid < nextXnd
  }

  /** `q` is the parent of `p` by its rpid, its virtual and its xnd pid, or by none; a child has its parent's group. */
  predicate SameParenthood(p: Proc, q: Proc) {
    && (q.realPid == p.realPpid <==> q.xndPid == p.xndPpid) && (q.realPid == p.realPpid <==> q.virtPid == p.virtPpid)
    && (q.realPid == p.realPpid ==> p.xndPgid == q.xndPgid)
  }

  predicate Different(p: Proc, q: Proc) {
    p.realPid != q.realPid && p.virtPid != q.virtPid && p.xndPid != q.xndPid
  }

  /** The process list, newest first. */
  predicate Consistent(procs: seq<Proc>, nextVirt: nat, nextXnd: nat) {
    && (forall p | p in procs :: InOrder(p, nextVirt, nextXnd))
    && (forall p, q | p in procs && q in procs :: SameParenthood(p, q))
    && (forall i, j :: 0 <= i < j < |procs| ==> Different(procs[i], procs[j]))
  }

  lemma AddConsistent(procs: seq<Proc>, v: nat, x: nat, p: Proc, v': nat, x': nat)
    requires Consistent(procs, v, x) && v <= v' && x <= x' && InOrder(p, v', x') && p.realPid != p.realPpid
    requires forall q | q in procs :: Different(p, q) && SameParenthood(p, q) && SameParenthood(q, p)
    ensures Consistent([p] + procs, v', x')
  {}

  function Find(procs: seq<Proc>, rpid: nat): (i: nat)
    ensures i <= |procs| && (i < |procs| ==> procs[i].realPid == rpid)
    ensures forall j :: 0 <= j < i ==> procs[j].realPid != rpid
  {
    if procs == [] || procs[0].realPid == rpid then 0 else 1 + Find(procs[1..], rpid)
  }

  /** Flags from the real pids: coord_determine_roots. */
  predicate RootFlags(procs: seq<Proc>) {
    forall p | p in procs :: p.isRoot <==> forall q | q in procs :: q.realPid != p.realPpid
  }

  class Registry {
    var procs: seq<Proc>
    var nextVirt: nat
    var nextXnd: nat
    var table: map<nat, nat>                      // pid_table: virtual to rpid
    var epoch: nat
    ghost var used: set<nat>                      // every real pid any process or its parent ever had

    ghost predicate Valid()
      reads this
    {
      && Consistent(procs, nextVirt, nextXnd)
      && (forall p | p in procs ::
            p.realPid in used && p.realPpid in used && p.virtPid in table && table[p.virtPid] == p.realPid)
      && (forall v | v in table :: v < nextVirt)
    }

    constructor ()
      ensures Valid() && procs == [] && epoch == 0 && used == {} && table == map[]
      ensures nextVirt == INITIAL_VIRT_PID && nextXnd == INITIAL_XND_PID
    {
      procs, nextVirt, nextXnd, table, epoch, used := [], INITIAL_VIRT_PID, INITIAL_XND_PID, map[], 0, {};
    }

    /** A virtual pid never used before; the coordinator's own test for that cannot fail. */
    method NextVirtPid() returns (v: nat)
      requires forall u | u in table :: u < nextVirt
      modifies this`nextVirt
      ensures v == old(nextVirt) && nextVirt == v + 1 && v !in table
    {
      v := nextVirt;
      nextVirt := nextVirt + 1;
      assert v !in table;
    }

    method NextXndPid() returns (x: nat)
      modifies this`nextXnd
      ensures x == old(nextXnd) && nextXnd == x + 1
    {
      x := nextXnd;
      nextXnd := nextXnd + 1;
    }

    /** The end of every registration: both pid_table_update calls and proc_list_add. */
    method Add(p: Proc)
      requires Valid() && InOrder(p, nextVirt, nextXnd) && p.realPid != p.realPpid
      requires forall q | q in procs :: Different(p, q) && SameParenthood(p, q) && SameParenthood(q, p)
      modifies this`procs, this`table, this`used
      ensures Valid() && procs == [p] + old(procs) && used == old(used) + {p.realPid, p.realPpid}
      ensures p.realPid in table.Values && p.realPpid in table.Values
    {
      AddConsistent(procs, nextVirt, nextXnd, p, nextVirt, nextXnd);
      table := table[p.virtPid := p.realPid][p.virtPpid := p.realPpid];
      assert table[p.virtPid] == p.realPid && table[p.virtPpid] == p.realPpid;
      procs := [p] + procs;
      used := used + {p.realPid, p.realPpid};
    }

    /** The kernel gives a new process a pid that nobody has had. */
    ghost predicate NewReal(rpid: nat, ppid: nat)
      reads this
    {
      rpid !in used && rpid != ppid
    }

    predicate Listed(rpid: nat)
      reads this
    {
      exists p :: p in procs && p.realPid == rpid
    }

    /**
      coord_connect_with_process_on_launch. A process is registered exactly if its real pid
      is not in the pid table, no checkpoint has been taken, and its parent is listed or has
      never been seen.
     */
    method Launch(rpid: nat, ppid: nat) returns (outcome: Outcome)
      requires Valid() && (NewReal(rpid, ppid) || Listed(rpid))
      modifies this
      ensures Valid()
      ensures !outcome.Registered? ==> procs == old(procs) && nextXnd == old(nextXnd)
      ensures outcome.Known? <==> rpid in old(table.Values) && old(Listed(rpid))
      ensures outcome.Registered? <==>
                rpid !in old(table.Values) && old(epoch) == 0 && (ppid !in old(table.Values) || old(Listed(ppid)))
      ensures outcome.Registered? ==>
                && |procs| == |old(procs)| + 1 && procs[1..] == old(procs) && epoch == 0
                && procs[0].realPid == rpid && procs[0].realPpid == ppid
                && rpid in table.Values && ppid in table.Values && used == old(used) + {rpid, ppid}
                && (!old(Listed(ppid)) ==> procs[0].xndPgid == procs[0].xndPid && procs[0].xndPpid == old(nextXnd))
                && forall p | p in procs[1..] :: p.xndPid < procs[0].xndPid && p.virtPid < procs[0].virtPid
    {
      if rpid in table.Values {
        // a process that has executed a new image; if it is not listed the code crashes
        return if Find(procs, rpid) < |procs| then Known else CoordinatorExits;
      }
      if epoch != 0 {
        return CoordinatorExits;
      }
      NotListed(rpid);
      var p: Proc;
      if ppid in table.Values {
        var i := Find(procs, ppid);
        if i == |procs| {
          return CoordinatorExits;
        }
        p := RegisterChild(rpid, procs[i]);
      } else {
        NotListed(ppid);
        var virtPpid := NextVirtPid();
        var virtPid := NextVirtPid();
        var xndPpid := NextXndPid();
        var xndPid := NextXndPid();
        p := Proc(rpid, ppid, virtPid, virtPpid, xndPid, xndPpid, xndPid, false);
        Add(p);
      }
      outcome := Registered;
    }

    lemma NotListed(rpid: nat)
      requires Valid() && rpid !in table.Values
      ensures forall p | p in procs :: p.realPid != rpid
    {}

    method RegisterChild(rpid: nat, parent: Proc) returns (p: Proc)
      requires Valid() && parent in procs && rpid !in used
      modifies this
      ensures Valid() && procs == [p] + old(procs) && epoch == old(epoch)
      ensures rpid in table.Values && parent.realPid in table.Values && used == old(used) + {rpid, parent.realPid}
      ensures p.realPid == rpid && p.realPpid == parent.realPid
      ensures p.xndPpid == parent.xndPid && p.xndPgid == parent.xndPgid
      ensures p.xndPid == old(nextXnd) && p.virtPid == old(nextVirt)
    {
      var virtPid := NextVirtPid();
      var xndPid := NextXndPid();
      p := Proc(rpid, parent.realPid, virtPid, parent.virtPid, xndPid, parent.xndPid, parent.xndPgid, false);
      ChildIsConsistent(p, parent);
      Add(p);
    }

    lemma ChildIsConsistent(p: Proc, parent: Proc)
      requires Valid() && parent in procs && p.realPid !in used
      requires p.virtPid == nextVirt - 1 && p.xndPid == nextXnd - 1
      requires Consistent(procs, nextVirt - 1, nextXnd - 1)
      requires p.realPpid == parent.realPid && p.virtPpid == parent.virtPid && p.xndPpid == parent.xndPid
      requires p.xndPgid == parent.xndPgid
      ensures forall q | q in procs :: Different(p, q) && SameParenthood(p, q) && SameParenthood(q, p)
    {
      forall q | q in procs
        ensures Different(p, q) && SameParenthood(p, q) && SameParenthood(q, p)
      {
        assert InOrder(q, nextVirt - 1, nextXnd - 1);
      }
    }

    /**
      coord_atfork. The parent sends its own ids, so what it says about itself is true. The
      ids of the child are spent even if the registration then fails.
     */
    method AtFork(parentVirt: nat, parentXnd: nat, parentXndPgid: nat, childReal: nat, childRealPpid: nat)
      returns (outcome: Outcome)
      requires Valid() && childReal !in used
      requires forall q | q in procs && q.virtPid == parentVirt :: q.xndPid == parentXnd && q.xndPgid == parentXndPgid
      modifies this
      ensures Valid() && nextVirt == old(nextVirt) + 1 && nextXnd == old(nextXnd) + 1
      ensures outcome.Registered? <==>
              exists q | q in old(procs) :: q.virtPid == parentVirt && q.realPid == childRealPpid
      ensures !outcome.Registered? ==> procs == old(procs)
      ensures outcome.Registered? ==>
                var p := Proc(childReal, childRealPpid, old(nextVirt), parentVirt,
                              old(nextXnd), parentXnd, parentXndPgid, false);
                procs == [p] + old(procs)
    {
      var virtPid := NextVirtPid();
      var xndPid := NextXndPid();
      var i := 0;
      while i < |procs| && procs[i].virtPid != parentVirt
        invariant i <= |procs|
        invariant forall j :: 0 <= j < i ==> procs[j].virtPid != parentVirt
      {
        i := i + 1;
      }
      if i == |procs| || procs[i].realPid != childRealPpid {
        return CoordinatorExits;
      }
      var p := Proc(childReal, childRealPpid, virtPid, parentVirt, xndPid, parentXnd, parentXndPgid, false);
      ChildIsConsistent(p, procs[i]);
      Add(p);
      outcome := Registered;
    }

    /** XND_EXIT: proc_list_remove and its callback, which erases the virtual pid. */
    method Exit(rpid: nat)
      requires Valid()
      modifies this`procs, this`table
      ensures Valid()
      ensures forall p :: p in procs <==> p in old(procs) && p.realPid != rpid
      ensures table == old(table) - set p | p in old(procs) && p.realPid == rpid :: p.virtPid
      ensures |procs| == |old(procs)| - (if exists p :: p in old(procs) && p.realPid == rpid then 1 else 0)
    {
      var i := Find(procs, rpid);
      if i < |procs| {
        ghost var before := procs;
        table := table - {procs[i].virtPid};
        procs := procs[..i] + procs[i + 1..];
        Removed(before, i);
      }
    }

    lemma Removed(before: seq<Proc>, i: nat)
      requires Consistent(before, nextVirt, nextXnd) && i < |before|
      ensures var after := before[..i] + before[i + 1..];
              && Consistent(after, nextVirt, nextXnd)
              && forall p :: p in after <==> p in before && p.realPid != before[i].realPid
    {
      RemovedIs(before, i);
      StillDifferent(before, i);
    }

    lemma StillDifferent(before: seq<Proc>, i: nat)
      requires i < |before| && forall j, k :: 0 <= j < k < |before| ==> Different(before[j], before[k])
      ensures var after := before[..i] + before[i + 1..];
              forall j, k :: 0 <= j < k < |after| ==> Different(after[j], after[k])
    {
      var after := before[..i] + before[i + 1..];
      forall j, k | 0 <= j < k < |after|
        ensures Different(after[j], after[k])
      {
        assert after[j] == before[if j < i then j else j + 1] && after[k] == before[if k < i then k else k + 1];
      }
    }

    lemma RemovedIs(before: seq<Proc>, i: nat)
      requires i < |before| && forall j, k :: 0 <= j < k < |before| ==> Different(before[j], before[k])
      ensures forall p :: p in before[..i] + before[i + 1..] <==> p in before && p.realPid != before[i].realPid
    {
      var after := before[..i] + before[i + 1..];
      assert before == before[..i] + [before[i]] + before[i + 1..];
      forall p | p in after
        ensures p in before && p.realPid != before[i].realPid
      {
        var j :| 0 <= j < |after| && after[j] == p;
        assert p == before[if j < i then j else j + 1];
      }
    }

    /** What a restarted process may say about itself, given who is already there. */
    ghost predicate MayReconnect(m: Proc)
      reads this
    {
      && m.virtPpid < m.virtPid && m.xndPpid < m.xndPid && m.realPid != m.realPpid
      && forall q | q in procs :: Different(m, q) && SameParenthood(m, q) && SameParenthood(q, m)
    }

    /** coord_connect_with_process_on_restart */
    method Reconnect(m: Proc)
      requires Valid() && MayReconnect(m)
      modifies this
      ensures Valid() && procs == [m] + old(procs) && used == old(used) + {m.realPid, m.realPpid}
      ensures m.virtPid < nextVirt && m.xndPid < nextXnd && old(nextVirt) <= nextVirt && old(nextXnd) <= nextXnd
      ensures nextVirt == old(nextVirt) || nextVirt == m.virtPid + 1
      ensures nextXnd == old(nextXnd) || nextXnd == m.xndPid + 1
      ensures epoch == old(epoch)
    {
      nextVirt := if m.virtPid >= nextVirt then m.virtPid + 1 else nextVirt;
      nextXnd := if m.xndPid >= nextXnd then m.xndPid + 1 else nextXnd;
      Add(m);
    }

    /** The registration loop of coord_do_restart; `ms` are the messages in any order. */
    method DoRestart(ms: seq<Proc>, epoch0: nat)
      requires Valid() && procs == [] && Reborn(ms)
      modifies this
      ensures Valid() && epoch == epoch0 && |procs| == |ms|
      ensures forall m :: m in procs <==> m in ms
      ensures old(nextVirt) <= nextVirt
      ensures nextVirt == old(nextVirt) || exists m | m in ms :: nextVirt == m.virtPid + 1
      ensures old(nextXnd) <= nextXnd
      ensures nextXnd == old(nextXnd) || exists m | m in ms :: nextXnd == m.xndPid + 1
    {
      epoch := epoch0;
      for i := 0 to |ms|
        invariant Valid() && epoch == epoch0 && |procs| == i
        invariant forall m :: m in procs <==> m in ms[..i]
        invariant old(nextVirt) <= nextVirt
        invariant nextVirt == old(nextVirt) || exists m | m in ms :: nextVirt == m.virtPid + 1
        invariant old(nextXnd) <= nextXnd
        invariant nextXnd == old(nextXnd) || exists m | m in ms :: nextXnd == m.xndPid + 1
      {
        assert ms[i] in ms;
        assert ms[..i + 1] == ms[..i] + [ms[i]];
        Reconnect(ms[i]);
      }
      assert ms[..|ms|] == ms;
    }

    /** coord_determine_roots */
    method DetermineRoots()
      requires Valid()
      modifies this`procs
      ensures Valid() && RootFlags(procs) && |procs| == |old(procs)|
      ensures forall i :: 0 <= i < |procs| ==> procs[i] == old(procs)[i].(isRoot := procs[i].isRoot)
      ensures forall p | p in procs :: p.isRoot <==> forall q | q in procs :: q.xndPid != p.xndPpid
    {
      ghost var before := procs;
      for i := 0 to |procs|
        invariant |procs| == |before|
        invariant forall j :: 0 <= j < |procs| ==> procs[j] == before[j].(isRoot := procs[j].isRoot)
        invariant forall j :: 0 <= j < i ==>
                    (procs[j].isRoot <==> forall k :: 0 <= k < |before| ==> before[k].realPid != before[j].realPpid)
      {
        var parent := Find(procs, procs[i].realPpid);
        procs := procs[i := procs[i].(isRoot := parent == |procs|)];
      }
      SameIds(before, procs);
    }

    lemma SameIds(before: seq<Proc>, after: seq<Proc>)
      requires Consistent(before, nextVirt, nextXnd) && |after| == |before|
      requires forall j :: 0 <= j < |after| ==> after[j] == before[j].(isRoot := after[j].isRoot)
      requires forall j :: 0 <= j < |after| ==>
                 (after[j].isRoot <==> forall k :: 0 <= k < |before| ==> before[k].realPid != before[j].realPpid)
      ensures Consistent(after, nextVirt, nextXnd) && RootFlags(after)
      ensures forall p | p in after :: p.isRoot <==> forall q | q in after :: q.xndPid != p.xndPpid
    {
      SameConsistent(before, after);
      forall i | 0 <= i < |after|
        ensures after[i].isRoot <==> forall q | q in after :: q.realPid != after[i].realPpid
      {
        forall k | 0 <= k < |before|
          ensures before[k].realPid == after[k].realPid && after[k] in after
        {}
      }
      RootsByXndPid(after);
    }

    lemma SameConsistent(before: seq<Proc>, after: seq<Proc>)
      requires Consistent(before, nextVirt, nextXnd) && |after| == |before|
      requires forall j :: 0 <= j < |after| ==> after[j] == before[j].(isRoot := after[j].isRoot)
      ensures Consistent(after, nextVirt, nextXnd)
    {
      forall p, q | p in after && q in after
        ensures SameParenthood(p, q) && InOrder(p, nextVirt, nextXnd)
      {
        var i :| 0 <= i < |after| && after[i] == p;
        var j :| 0 <= j < |after| && after[j] == q;
        assert before[i] in before && before[j] in before && SameParenthood(before[i], before[j]);
      }
    }

    lemma RootsByXndPid(ps: seq<Proc>)
      requires Consistent(ps, nextVirt, nextXnd) && RootFlags(ps)
      ensures forall p | p in ps :: p.isRoot <==> forall q | q in ps :: q.xndPid != p.xndPpid
    {
      forall p | p in ps
        ensures p.isRoot <==> forall q | q in ps :: q.xndPid != p.xndPpid
      {
        assert forall q | q in ps :: SameParenthood(p, q);
      }
    }
  }

  /** A second launch from the same shell fails: the pid table knows the shell, the list does not. */
  method SecondLaunchFails(shell: nat, first: nat, second: nat) returns (outcome: Outcome)
    requires shell != first && shell != second && first != second
    ensures outcome.CoordinatorExits?
  {
    var r := new Registry();
    assert first !in r.table.Values && shell !in r.table.Values;
    outcome := r.Launch(first, shell);
    assert r.procs == [r.procs[0]] + r.procs[1..] && !r.Listed(shell) && !r.Listed(second);
    outcome := r.Launch(second, shell);
  }

  /** The processes of a restart, with their new real pids. */
  predicate Reborn(ms: seq<Proc>) {
    && (forall m | m in ms :: m.virtPpid < m.virtPid && m.xndPpid < m.xndPid && m.realPid != m.realPpid)
    && (forall i, j :: 0 <= i < j < |ms| ==> Different(ms[i], ms[j]))
    && (forall m, n | m in ms && n in ms :: SameParenthood(m, n))
  }

  /**
    The processes of a checkpoint may register again, in any order, once their new real
    pids are distinct and repeat the old parenthood, as Forest.ParentIsRestored has it.
   */
  lemma RestartedAreReborn(saved: seq<Proc>, v: nat, x: nat, ms: seq<Proc>)
    requires Consistent(saved, v, x) && |ms| == |saved|
    requires forall i :: 0 <= i < |ms| ==>
               ms[i] == saved[i].(realPid := ms[i].realPid, realPpid := ms[i].realPpid) &&
               ms[i].realPid != ms[i].realPpid
    requires forall i, j :: 0 <= i < j < |ms| ==> ms[i].realPid != ms[j].realPid
    requires forall i, j :: 0 <= i < |ms| && 0 <= j < |ms| ==>
               (ms[j].realPid == ms[i].realPpid <==> saved[j].xndPid == saved[i].xndPpid)
    ensures Reborn(ms)
  {
    forall m, n | m in ms && n in ms
      ensures SameParenthood(m, n)
    {
      var i :| 0 <= i < |ms| && ms[i] == m;
      var j :| 0 <= j < |ms| && ms[j] == n;
      assert saved[i] in saved && saved[j] in saved && SameParenthood(saved[i], saved[j]);
    }
    forall i | 0 <= i < |ms|
      ensures ms[i].virtPpid < ms[i].virtPid && ms[i].xndPpid < ms[i].xndPid
    {
      assert saved[i] in saved && InOrder(saved[i], v, x);
    }
  }

  /** The header of the image of `p`, without session and group. */
  predicate HeaderOf(t: F.Target, p: Proc) {
    t.xndPid == p.xndPid && t.xndPpid == p.xndPpid && t.pid == p.virtPid && t.ppid == p.virtPpid && t.isRoot == p.isRoot
  }

  predicate HasProc(t: F.Target, procs: seq<Proc>) { exists p :: p in procs && HeaderOf(t, p) }

  predicate HasHeader(p: Proc, ts: seq<F.Target>) { exists t :: t in ts && HeaderOf(t, p) }

  /** `ts` are the headers of the listed processes, in any order. */
  predicate HeadersOf(ts: seq<F.Target>, procs: seq<Proc>) {
    && (forall t {:trigger HasProc(t, procs)} | t in ts :: HasProc(t, procs))
    && (forall p {:trigger HasHeader(p, ts)} | p in procs :: HasHeader(p, ts))
    && (forall i, j :: 0 <= i < j < |ts| ==> ts[i].xndPid != ts[j].xndPid)
  }

  /** The ids discharge what Forest.WellFormed demands of them. */
  lemma HeadersMeetForest(ts: seq<F.Target>, procs: seq<Proc>, v: nat, x: nat)
    requires Consistent(procs, v, x) && RootFlags(procs) && HeadersOf(ts, procs)
    ensures forall i, j :: 0 <= i < j < |ts| ==> ts[i].xndPid != ts[j].xndPid && ts[i].pid != ts[j].pid
    ensures forall t | t in ts :: t.xndPpid < t.xndPid
    ensures forall t | t in ts :: t.isRoot <==> !F.HasParent(ts, t)
  {
    forall i, j | 0 <= i < j < |ts|
      ensures ts[i].pid != ts[j].pid
    {
      assert HasProc(ts[i], procs) && HasProc(ts[j], procs);
    }
    forall t | t in ts
      ensures t.xndPpid < t.xndPid && (t.isRoot <==> !F.HasParent(ts, t))
    {
      assert HasProc(t, procs);
      var p :| p in procs && HeaderOf(t, p);
      assert InOrder(p, v, x);
      RootIsRoot(ts, procs, v, x, t, p);
    }
  }

  lemma RootIsRoot(ts: seq<F.Target>, procs: seq<Proc>, v: nat, x: nat, t: F.Target, p: Proc)
    requires Consistent(procs, v, x) && RootFlags(procs) && HeadersOf(ts, procs)
    requires t in ts && p in procs && HeaderOf(t, p)
    ensures t.isRoot <==> !F.HasParent(ts, t)
  {
    if F.HasParent(ts, t) {
      var s :| s in ts && s.WasParentOf(t);
      assert HasProc(s, procs);
      var q :| q in procs && HeaderOf(s, q);
      assert SameParenthood(p, q);
    }
    if !p.isRoot {
      var q :| q in procs && q.realPid == p.realPpid;
      assert SameParenthood(p, q);
      assert HasHeader(q, ts);
      var s :| s in ts && HeaderOf(s, q);
      assert s.WasParentOf(t);
    }
  }
}
