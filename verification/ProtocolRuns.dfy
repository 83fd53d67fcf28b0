/**
  Runs of the whole system with one process of one thread: the first checkpoint; then a
  restart that finds a directory in place, and a checkpoint of nobody. No thread slips.
 */
module ProtocolRuns {
  import opened CheckpointProtocol
  import opened GlobalTheorems
  import opened SnapshotTheorems
  import opened ProtocolInvariant
  import opened RetryTheorems
  import T = ThreadSuspension

  predicate NoSlips(s: State) { forall p | p in s.procs :: s.procs[p].ts.slipped == {} }

  ghost predicate EndsIn(run: seq<State>, s: State) {
    IsRunUnder(NobodySlips, run) && run[|run| - 1] == s && NoSlips(s)
  }

  /** Some run of the system in which no thread slips ends in `s`. */
  ghost predicate Reachable(s: State) { exists run :: EndsIn(run, s) }

  /** A set of states that such runs do not leave. */
  ghost predicate Closed(r: State -> bool) {
    forall s, a :: r(s) && Enabled(s, a) && !a.Exec? && NoSlips(Apply(s, a)) ==> r(Apply(s, a))
  }

  lemma ReachableStep(s: State, a: Action)
    requires Reachable(s) && Enabled(s, a) && !a.Exec? && NoSlips(Apply(s, a))
    ensures Reachable(Apply(s, a))
  {
    var s' := Apply(s, a);
    var run :| EndsIn(run, s);
    assert Acts(s, a, s') && ExecInTime(s, a);
    Longer(run, s, s');
  }

  lemma Longer(run: seq<State>, s: State, s': State)
    requires EndsIn(run, s) && Next(s, s') && NoSlips(s')
    ensures EndsIn(run + [s'], s')
  {
    var run' := run + [s'];
    forall i: nat | i + 1 < |run'|
      ensures StepAt(NobodySlips, run', i)
    {
      if i + 1 < |run| { assert StepAt(NobodySlips, run, i); }
    }
  }

  lemma ReachableClosed(r: State -> bool)
    requires forall s :: r(s) == Reachable(s)
    ensures Closed(r) && r(Init())
  {
    assert EndsIn([Init()], Init());
    forall s, a | r(s) && Enabled(s, a) && !a.Exec? && NoSlips(Apply(s, a))
      ensures r(Apply(s, a))
    {
      ReachableStep(s, a);
    }
  }

  predicate Same(s: State, s': State) {
    && s.procs == s'.procs && s.pstate == s'.pstate && s.epoch == s'.epoch && s.numPeers == s'.numPeers
    && s.c == s'.c && s.disk == s'.disk && s.up == s'.up
  }

  // One step each; the sort of the action is what the caller knows.

  lemma ByClient(r: State -> bool, s: State, a: Action, s': State)
    requires Closed(r) && r(s) && IsClient(a) && ClientEnabled(s, a) && Same(s', ClientApply(s, a)) && NoSlips(s')
    ensures r(s')
  {
    assert s' == Apply(s, a);
  }

  lemma ByMember(r: State -> bool, s: State, a: Action, s': State)
    requires Closed(r) && r(s) && IsMember(a) && !a.Exec? && MemberEnabled(s, a) && Same(s', MemberApply(s, a))
    requires NoSlips(s')
    ensures r(s')
  {
    assert s' == Apply(s, a);
  }

  lemma ByTurn(r: State -> bool, s: State, a: Action, s': State)
    requires Closed(r) && r(s) && IsTurn(a) && TurnEnabled(s, a) && Same(s', TurnApply(s, a)) && NoSlips(s')
    ensures r(s')
  {
    assert s' == Apply(s, a);
  }

  lemma ByMove(r: State -> bool, s: State, a: Action, s': State)
    requires Closed(r) && r(s) && IsMove(a) && MoveEnabled(s, a) && Same(s', MoveApply(s, a)) && NoSlips(s')
    ensures r(s')
  {
    assert s' == Apply(s, a);
  }

  lemma ByDisk(r: State -> bool, s: State, a: Action, s': State)
    requires Closed(r) && r(s) && IsDisk(a) && DiskEnabled(s, a) && Same(s', DiskApply(s, a)) && NoSlips(s')
    ensures r(s')
  {
    assert s' == Apply(s, a);
  }

  lemma ByCrash(r: State -> bool, s: State, e: nat, s': State)
    requires Closed(r) && r(s) && CrashEnabled(s, e) && Same(s', CrashApply(s, e)) && NoSlips(s')
    ensures r(s')
  {
    assert s' == Apply(s, CrashAndRestart(e));
  }

  // ----- one process -----

  function Proc(ts: T.State, epoch: nat, toClient: seq<Msg>, toCoord: seq<Msg>): Client {
    Client(ts, epoch, 1, toClient, toCoord, true)
  }

  function Sys(c: Client, ps: ProcState, epoch: nat, k: CPc, disk: map<nat, Dir>): State {
    State(map[0 := c], map[0 := ps], epoch, 1, k, disk, true)
  }

  function Th(state: T.ThreadState, h: T.Handler): T.Thread {
    T.Thread(state, T.User, h, false, false, false, true, 0, 0)
  }

  /** The threads of the process while its thread 0 is being suspended. */
  function Threads(
    state: T.ThreadState, h: T.Handler, xs: T.XndState, expected: nat, arrived: nat, k: T.KPc, counted: set<T.Tid>,
    arrivedSet: set<T.Tid>): T.State
  {
    T.State(map[0 := Th(state, h)], 0, xs, expected, arrived, k, counted, arrivedSet, {}, {})
  }

  /** The same after the last pass: thread 0 has been counted. */
  function Counted(state: T.ThreadState, h: T.Handler, xs: T.XndState, arrived: nat, k: T.KPc): T.State {
    Threads(state, h, xs, 1, arrived, k, {0}, if arrived == 0 then {} else {0})
  }

  function Begun(): T.State { Threads(T.Running, T.NoHandler, T.XPending, 0, 0, T.Begin, {}, {}) }

  function Scanning(state: T.ThreadState, h: T.Handler, k: T.KPc): T.State {
    Threads(state, h, T.XSuspInProg, 0, 0, k, {}, {})
  }

  function Suspended(k: T.KPc): T.State { Counted(T.Suspended, T.Arrived(false), T.XCkptInProg, 1, k) }

  // ----- its threads -----

  /** Steps of the threads in which nobody slips do not leave `q`. */
  ghost predicate InnerClosed(q: T.State -> bool) {
    forall ts, b ::
      q(ts) && IsInner(b) && T.Enabled(ts, b) && T.Apply(ts, b).slipped == {} && !T.Apply(ts, b).k.Aborted? ==>
        q(T.Apply(ts, b))
  }

  lemma GoInner(q: T.State -> bool, ts: T.State, b: T.Action) returns (ts': T.State)
    requires InnerClosed(q) && q(ts) && IsInner(b) && T.Enabled(ts, b)
    requires T.Apply(ts, b).slipped == {} && !T.Apply(ts, b).k.Aborted?
    ensures ts' == T.Apply(ts, b) && q(ts')
  {
    ts' := T.Apply(ts, b);
  }

  lemma FirstPass(q: T.State -> bool)
    requires InnerClosed(q) && q(Begun())
    ensures q(Scanning(T.Running, T.NoHandler, T.Pass({0}, 0, false)))
  {
    var ts := GoInner(q, Begun(), T.Ckpt(0));
    ts := GoInner(q, ts, T.Ckpt(0));
    ts := GoInner(q, ts, T.Ckpt(0));
    assert ts.k == T.Pass({0}, 0, false);
  }

  lemma Signal(q: T.State -> bool)
    requires InnerClosed(q) && q(Scanning(T.Running, T.NoHandler, T.Pass({0}, 0, false)))
    ensures q(Scanning(T.Signaled, T.NoHandler, T.Again))
  {
    var ts := GoInner(q, Scanning(T.Running, T.NoHandler, T.Pass({0}, 0, false)), T.Ckpt(0));
    assert ts == Scanning(T.Signaled, T.NoHandler, T.Pass({}, 0, true));
    ts := GoInner(q, ts, T.Ckpt(0));
  }

  lemma Handle(q: T.State -> bool)
    requires InnerClosed(q) && q(Scanning(T.Signaled, T.NoHandler, T.Again))
    ensures q(Scanning(T.SuspInProg, T.Saved, T.Again))
  {
    var ts := GoInner(q, Scanning(T.Signaled, T.NoHandler, T.Again), T.Handle(0));
    assert ts == Scanning(T.SuspInProg, T.Saving, T.Again);
    ts := GoInner(q, ts, T.SaveContext(0));
    assert ts == Scanning(T.SuspInProg, T.Saved, T.Again);
  }

  lemma Mark(q: T.State -> bool)
    requires InnerClosed(q) && q(Scanning(T.SuspInProg, T.Saved, T.Again))
    ensures q(Scanning(T.Suspended, T.AtBarrier(false), T.Again))
  {
    var ts := GoInner(q, Scanning(T.SuspInProg, T.Saved, T.Again), T.MarkSuspended(0));
    assert ts == Scanning(T.Suspended, T.AtBarrier(false), T.Again);
  }

  lemma Count(q: T.State -> bool)
    requires InnerClosed(q) && q(Scanning(T.Suspended, T.AtBarrier(false), T.Again))
    ensures q(Counted(T.Suspended, T.AtBarrier(false), T.XSuspInProg, 0, T.Pass({}, 1, false)).(expected := 0))
  {
    var ts := GoInner(q, Scanning(T.Suspended, T.AtBarrier(false), T.Again), T.Ckpt(0));
    assert ts == Scanning(T.Suspended, T.AtBarrier(false), T.Pass({0}, 0, false));
    ts := GoInner(q, ts, T.Ckpt(0));
    assert ts.k == T.Look(0, 2, {}, 0, false);
    ts := GoInner(q, ts, T.Ckpt(0));
    ts := GoInner(q, ts, T.Ckpt(0));
    assert ts.counted == {0} && ts.k == T.Pass({}, 1, false);
  }

  lemma SetExpected(q: T.State -> bool)
    requires InnerClosed(q)
    requires q(Counted(T.Suspended, T.AtBarrier(false), T.XSuspInProg, 0, T.Pass({}, 1, false)).(expected := 0))
    ensures q(Counted(T.Suspended, T.AtBarrier(false), T.XSuspInProg, 0, T.WaitAgain))
  {
    var ts := Counted(T.Suspended, T.AtBarrier(false), T.XSuspInProg, 0, T.Pass({}, 1, false)).(expected := 0);
    ts := GoInner(q, ts, T.Ckpt(0));
    ts := GoInner(q, ts, T.Ckpt(0));
  }

  lemma Wait(q: T.State -> bool)
    requires InnerClosed(q) && q(Counted(T.Suspended, T.AtBarrier(false), T.XSuspInProg, 0, T.WaitAgain))
    ensures q(Counted(T.Suspended, T.AtBarrier(false), T.XSuspInProg, 0, T.Open))
  {
    var ts := GoInner(q, Counted(T.Suspended, T.AtBarrier(false), T.XSuspInProg, 0, T.WaitAgain), T.Ckpt(0));
    assert ts.k == T.WaitPass({0}, 0, 0);
    ts := GoInner(q, ts, T.Ckpt(0));
    assert ts.k == T.WaitPass({}, 0, 0);
    ts := GoInner(q, ts, T.Ckpt(0));
  }

  lemma Fill(q: T.State -> bool)
    requires InnerClosed(q) && q(Counted(T.Suspended, T.AtBarrier(false), T.XSuspInProg, 0, T.Open))
    ensures q(Suspended(T.Frozen))
  {
    var ts := GoInner(q, Counted(T.Suspended, T.AtBarrier(false), T.XSuspInProg, 0, T.Open), T.Ckpt(0));
    ts := GoInner(q, ts, T.Arrive(0));
    assert ts == Suspended(T.Fill(false));
    ts := GoInner(q, ts, T.Ckpt(0));
  }

  lemma SuspendAll(q: T.State -> bool)
    requires InnerClosed(q) && q(Begun())
    ensures q(Suspended(T.Frozen))
  {
    FirstPass(q);
    Signal(q);
    Handle(q);
    Mark(q);
    Count(q);
    SetExpected(q);
    Wait(q);
    Fill(q);
  }

  /** The threads of the process inside a state of the system. */
  ghost predicate Inside(q: T.State -> bool, r: State -> bool, s: State) {
    0 in s.procs && s.procs[0].alive && s.procs.Keys == {0} &&
    forall ts :: q(ts) == r(SetClient(s, 0, s.procs[0].(ts := ts)))
  }

  lemma Lift(q: T.State -> bool, r: State -> bool, s: State)
    requires Closed(r) && Inside(q, r, s)
    ensures InnerClosed(q)
  {
    forall ts, b | q(ts) && IsInner(b) && T.Enabled(ts, b) && T.Apply(ts, b).slipped == {} && !T.Apply(ts, b).k.Aborted?
      ensures q(T.Apply(ts, b))
    {
      LiftOne(r, SetClient(s, 0, s.procs[0].(ts := ts)), b);
      assert SetClient(SetClient(s, 0, s.procs[0].(ts := ts)), 0, s.procs[0].(ts := T.Apply(ts, b))) ==
             SetClient(s, 0, s.procs[0].(ts := T.Apply(ts, b)));
    }
  }

  lemma LiftOne(r: State -> bool, s: State, b: T.Action)
    requires Closed(r) && r(s) && 0 in s.procs && s.procs[0].alive && s.procs.Keys == {0}
    requires IsInner(b) && T.Enabled(s.procs[0].ts, b)
    requires T.Apply(s.procs[0].ts, b).slipped == {} && !T.Apply(s.procs[0].ts, b).k.Aborted?
    ensures r(SetClient(s, 0, s.procs[0].(ts := T.Apply(s.procs[0].ts, b))))
  {
    assert Apply(s, Inner(0, b)) == SetClient(s, 0, s.procs[0].(ts := T.Apply(s.procs[0].ts, b)));
  }

  /** All steps of the threads from XND_CKPT_START to the barrier. */
  lemma SuspendInside(r: State -> bool, s: State, s': State)
    requires Closed(r) && r(s) && s.procs.Keys == {0} && s.procs[0].alive && s.procs[0].ts == Begun()
    requires s' == SetClient(s, 0, s.procs[0].(ts := Suspended(T.Frozen)))
    ensures r(s')
  {
    var q := ts => r(SetClient(s, 0, s.procs[0].(ts := ts)));
    Lift(q, r, s);
    assert SetClient(s, 0, s.procs[0].(ts := Begun())) == s;
    SuspendAll(q);
  }

  lemma ByFill(r: State -> bool, s: State, s': State)
    requires Closed(r) && r(s) && s.up && s.c.ScanImages? && s.epoch in s.disk
    requires s.disk[s.epoch].images.Keys == s.procs.Keys == s.pstate.Keys && s.numPeers == |s.procs.Keys|
    requires ManifestFilled(s, s') && NoSlips(s')
    ensures r(s')
  {
    WriteManifestIs(s);
    ByDisk(r, s, FillManifest, s');
  }

  /** Equalities the steps need of their sequences and maps. */
  lemma OneMessage(m: Msg, n: Msg)
    ensures [] + [m] == [m] && [m][1..] == [] && [m] + [n] == [m, n] && [m, n][1..] == [n]
  {}

  // ----- the first checkpoint -----

  function NewDir(): Dir { Dir(map[], NoManifest) }

  function FirstImages(): map<Pid, Image> { map[0 := Image(Suspended(T.Frozen), 0, 1)] }

  function FirstDir(): Dir { Dir(FirstImages(), Names({0})) }

  /** Nothing knows the number of peers yet. */
  function Fresh(k: T.KPc, xs: T.XndState, toClient: seq<Msg>, toCoord: seq<Msg>, ps: ProcState, c: CPc): State {
    var ts := Threads(T.Running, T.NoHandler, xs, 0, 0, k, {}, {});
    State(map[0 := Client(ts, 0, 0, toClient, toCoord, true)], map[0 := ps], 0, 0, c, map[], true)
  }

  lemma LaunchFirst(r: State -> bool)
    requires Closed(r) && r(Init())
    ensures r(Fresh(T.Idle, T.XRunning, [], [], PRunning, Suspend))
  {
    var s := Init();
    var s1 := Fresh(T.Idle, T.XRunning, [], [], PRunning, Idle);
    ByMember(r, s, Launch(0, 0, 0), s1);
    var s2 := Fresh(T.Idle, T.XRunning, [], [], PRunning, Suspend);
    ByMove(r, s1, BeginCkpt, s2);
  }

  lemma AskForFirst(r: State -> bool)
    requires Closed(r) && r(Fresh(T.Idle, T.XRunning, [], [], PRunning, Suspend))
    ensures r(Fresh(T.Pending, T.XPending, [], [], PRecvRequest, Suspend))
  {
    var s := Fresh(T.Idle, T.XRunning, [], [], PRunning, Suspend);
    var s1 := Fresh(T.Idle, T.XRunning, [CkptRequest], [], PRecvRequest, Suspend);
    OneMessage(CkptRequest, CkptRequest);
    ByTurn(r, s, SendRequest(0), s1);
    var s2 := Fresh(T.Pending, T.XPending, [], [], PRecvRequest, Suspend);
    ByClient(r, s1, RecvRequest(0), s2);
  }

  lemma FirstIsReady(r: State -> bool)
    requires Closed(r) && r(Fresh(T.Pending, T.XPending, [], [], PRecvRequest, Suspend))
    ensures r(Fresh(T.AwaitStart, T.XPending, [], [], PReady, MakeDir))
  {
    var s := Fresh(T.Pending, T.XPending, [], [], PRecvRequest, Suspend);
    var s1 := Fresh(T.AwaitStart, T.XPending, [], [CkptReady], PRecvRequest, Suspend);
    OneMessage(CkptReady, CkptReady);
    ByClient(r, s, Ready(0), s1);
    var s2 := Fresh(T.AwaitStart, T.XPending, [], [], PReady, Suspend);
    ByTurn(r, s1, CollectReady(0), s2);
    var s3 := Fresh(T.AwaitStart, T.XPending, [], [], PReady, MakeDir);
    ByMove(r, s2, AllReady, s3);
  }

  function Started(ts: T.State): State {
    Sys(Proc(ts, 0, [], []), PInProgress, 0, Collect({0}, 0), map[0 := NewDir()])
  }

  /** The directory is there; the process has not been told, or has not read it. */
  function Told(toClient: seq<Msg>, ps: ProcState, c: CPc): State {
    Fresh(T.AwaitStart, T.XPending, toClient, [], ps, c).(numPeers := 1, disk := map[0 := NewDir()])
  }

  lemma CreateFirst(r: State -> bool)
    requires Closed(r) && r(Fresh(T.AwaitStart, T.XPending, [], [], PReady, MakeDir))
    ensures r(Told([CkptStart(1)], PInProgress, SendStart({})))
  {
    var s := Fresh(T.AwaitStart, T.XPending, [], [], PReady, MakeDir);
    var s1 := Told([], PReady, SendStart({0}));
    assert s.pstate.Keys == {0} && |s.pstate| == 1;
    ByDisk(r, s, CreateDir, s1);
    var s2 := Told([CkptStart(1)], PInProgress, SendStart({}));
    OneMessage(CkptStart(1), CkptStart(1));
    assert s1.c.todo - {0} == {};
    ByTurn(r, s1, StartOne(0), s2);
  }

  lemma StartFirst(r: State -> bool)
    requires Closed(r) && r(Told([CkptStart(1)], PInProgress, SendStart({})))
    ensures r(Started(Begun()))
  {
    var s := Told([CkptStart(1)], PInProgress, SendStart({}));
    var s1 := Started(Begun()).(c := SendStart({}));
    OneMessage(CkptStart(1), CkptStart(1));
    ByClient(r, s, RecvStart(0), s1);
    var s2 := Started(Begun());
    assert s1.pstate.Keys == {0};
    ByMove(r, s1, AllStarted, s2);
  }

  function Stored(k: T.KPc, toClient: seq<Msg>, toCoord: seq<Msg>, ps: ProcState, c: CPc, m: Manifest): State {
    Sys(Proc(Suspended(k), 0, toClient, toCoord), ps, 0, c, map[0 := Dir(FirstImages(), m)])
  }

  lemma WriteFirst(r: State -> bool)
    requires Closed(r) && r(Started(Suspended(T.Frozen)))
    ensures r(Stored(T.AwaitResume, [], [CkptDone], PInProgress, Collect({0}, 0), NoManifest))
  {
    var s := Started(Suspended(T.Frozen));
    var s1 := Stored(T.ImageWritten, [], [], PInProgress, Collect({0}, 0), NoManifest);
    assert map[][0 := Image(s.procs[0].ts, 0, 1)] == FirstImages();
    ByClient(r, s, WriteImage(0), s1);
    var s2 := Stored(T.AwaitResume, [], [CkptDone], PInProgress, Collect({0}, 0), NoManifest);
    OneMessage(CkptDone, CkptDone);
    ByClient(r, s1, Done(0), s2);
  }

  lemma CollectFirst(r: State -> bool)
    requires Closed(r) && r(Stored(T.AwaitResume, [], [CkptDone], PInProgress, Collect({0}, 0), NoManifest))
    ensures r(Stored(T.AwaitResume, [], [], PComplete, CreateManifest, NoManifest))
  {
    var s := Stored(T.AwaitResume, [], [CkptDone], PInProgress, Collect({0}, 0), NoManifest);
    var s1 := Stored(T.AwaitResume, [], [], PComplete, Collect({}, 1), NoManifest);
    OneMessage(CkptDone, CkptDone);
    assert s.c.todo - {0} == {};
    ByTurn(r, s, CollectDone(0), s1);
    var s2 := Stored(T.AwaitResume, [], [], PComplete, CreateManifest, NoManifest);
    ByMove(r, s1, AllCollected, s2);
  }

  lemma NameFirst(r: State -> bool)
    requires Closed(r) && r(Stored(T.AwaitResume, [], [], PComplete, CreateManifest, NoManifest))
    ensures r(Stored(T.AwaitResume, [], [], PComplete, SendResume({0}), Names({0})))
  {
    var s := Stored(T.AwaitResume, [], [], PComplete, CreateManifest, NoManifest);
    var s1 := Stored(T.AwaitResume, [], [], PComplete, ScanImages, EmptyManifest);
    ByDisk(r, s, OpenManifest, s1);
    var s2 := Stored(T.AwaitResume, [], [], PComplete, SendResume({0}), Names({0}));
    assert s1.procs.Keys == s1.pstate.Keys == FirstImages().Keys == {0};
    ByFill(r, s1, s2);
  }

  /** After the first checkpoint; the process has not read its last message yet. */
  function First(): State {
    Sys(Proc(Suspended(T.AwaitResume), 0, [ResumeAfterCkpt], []), PRunning, 1, Idle, map[0 := FirstDir()])
  }

  lemma ResumeFirst(r: State -> bool)
    requires Closed(r) && r(Stored(T.AwaitResume, [], [], PComplete, SendResume({0}), Names({0})))
    ensures r(First())
  {
    var s := Stored(T.AwaitResume, [], [], PComplete, SendResume({0}), Names({0}));
    var s1 := Stored(T.AwaitResume, [ResumeAfterCkpt], [], PRunning, SendResume({}), Names({0}));
    OneMessage(ResumeAfterCkpt, ResumeAfterCkpt);
    assert s.c.todo - {0} == {};
    ByTurn(r, s, ResumeOne(0), s1);
    var s2 := Stored(T.AwaitResume, [ResumeAfterCkpt], [], PRunning, NextEpoch, Names({0}));
    ByMove(r, s1, AllResumed, s2);
    var s3 := First();
    ByDisk(r, s2, AdvanceEpoch, s3);
  }

  lemma FirstCheckpoint(r: State -> bool)
    requires Closed(r) && r(Init())
    ensures r(First())
  {
    LaunchFirst(r);
    AskForFirst(r);
    FirstIsReady(r);
    CreateFirst(r);
    StartFirst(r);
    SuspendInside(r, Started(Begun()), Started(Suspended(T.Frozen)));
    WriteFirst(r);
    CollectFirst(r);
    NameFirst(r);
    ResumeFirst(r);
  }

  // ----- a restart that finds a directory in place -----

  /** In the second epoch; `d` is what is on disk. */
  function Second(ts: T.State, toClient: seq<Msg>, toCoord: seq<Msg>, ps: ProcState, c: CPc, d: map<nat, Dir>): State {
    Sys(Proc(ts, 1, toClient, toCoord), ps, 1, c, d)
  }

  function Released(k: T.KPc, xs: T.XndState): T.State {
    Counted(T.Suspended, T.Arrived(false), xs, 1, k)
  }

  function OneDir(): map<nat, Dir> { map[0 := FirstDir()] }

  function TwoDirs(): map<nat, Dir> { map[0 := FirstDir(), 1 := NewDir()] }

  /** The process has been asked again before it has resumed. */
  function Asked(): State {
    Sys(Proc(Suspended(T.AwaitResume), 0, [ResumeAfterCkpt, CkptRequest], []),
        PRecvRequest, 1, Suspend, OneDir())
  }

  lemma AskForSecond(r: State -> bool)
    requires Closed(r) && r(First())
    ensures r(Asked())
  {
    var s := First();
    var s1 := First().(c := Suspend);
    ByMove(r, s, BeginCkpt, s1);
    var s2 := Asked();
    OneMessage(ResumeAfterCkpt, CkptRequest);
    ByTurn(r, s1, SendRequest(0), s2);
  }

  lemma ResumeProcess(r: State -> bool)
    requires Closed(r) && r(Asked())
    ensures r(Second(Released(T.Resuming, T.XCkptInProg), [CkptRequest], [], PRecvRequest, Suspend, OneDir()))
  {
    var s := Asked();
    var s1 := Second(Released(T.Resuming, T.XCkptInProg), [CkptRequest], [], PRecvRequest, Suspend, OneDir());
    OneMessage(ResumeAfterCkpt, CkptRequest);
    ByClient(r, s, RecvResume(0), s1);
  }

  lemma ReleaseThreads(r: State -> bool)
    requires Closed(r)
    requires r(Second(Released(T.Resuming, T.XCkptInProg), [CkptRequest], [], PRecvRequest, Suspend, OneDir()))
    ensures r(Second(Released(T.Idle, T.XRunning), [CkptRequest], [], PRecvRequest, Suspend, OneDir()))
  {
    var s := Second(Released(T.Resuming, T.XCkptInProg), [CkptRequest], [], PRecvRequest, Suspend, OneDir());
    var s1 := Second(Released(T.Idle, T.XRunning), [CkptRequest], [], PRecvRequest, Suspend, OneDir());
    ByClient(r, s, Inner(0, T.Ckpt(0)), s1);
  }

  /** From the request to the state in which every process is ready, for any threads. */
  lemma SayReady(r: State -> bool, ts: T.State, d: map<nat, Dir>)
    requires Closed(r) && ts.k.Idle? && ts.slipped == {} && r(Second(ts, [CkptRequest], [], PRecvRequest, Suspend, d))
    ensures r(Second(ts.(xs := T.XPending, k := T.AwaitStart), [], [CkptReady], PRecvRequest, Suspend, d))
  {
    var s := Second(ts, [CkptRequest], [], PRecvRequest, Suspend, d);
    var s1 := Second(ts.(xs := T.XPending, k := T.Pending), [], [], PRecvRequest, Suspend, d);
    OneMessage(CkptRequest, CkptRequest);
    ByClient(r, s, RecvRequest(0), s1);
    var s2 := Second(ts.(xs := T.XPending, k := T.AwaitStart), [], [CkptReady], PRecvRequest, Suspend, d);
    OneMessage(CkptReady, CkptReady);
    ByClient(r, s1, Ready(0), s2);
  }

  lemma HearReady(r: State -> bool, ts: T.State, d: map<nat, Dir>)
    requires Closed(r) && ts.slipped == {} && ts.k.AwaitStart?
    requires r(Second(ts, [], [CkptReady], PRecvRequest, Suspend, d))
    ensures r(Second(ts, [], [], PReady, MakeDir, d))
  {
    var s := Second(ts, [], [CkptReady], PRecvRequest, Suspend, d);
    var s1 := Second(ts, [], [], PReady, Suspend, d);
    OneMessage(CkptReady, CkptReady);
    ByTurn(r, s, CollectReady(0), s1);
    var s2 := Second(ts, [], [], PReady, MakeDir, d);
    ByMove(r, s1, AllReady, s2);
  }

  lemma GetReady(r: State -> bool, ts: T.State, d: map<nat, Dir>)
    requires Closed(r) && ts.k.Idle? && ts.slipped == {}
    requires r(Second(ts, [CkptRequest], [], PRecvRequest, Suspend, d))
    ensures r(Second(ts.(xs := T.XPending, k := T.AwaitStart), [], [], PReady, MakeDir, d))
  {
    SayReady(r, ts, d);
    HearReady(r, ts.(xs := T.XPending, k := T.AwaitStart), d);
  }

  function Unborn(k: T.KPc): T.State { Counted(T.Suspended, T.Unborn, T.XCkptInProg, 1, k) }

  function Crashed(): State {
    State(map[0 := Proc(Unborn(T.RestartConnect), 0, [], [])], map[], 0, 0, Gather(0), TwoDirs(), true)
  }

  /** Everything dies when the directory of the second epoch has just been created. */
  lemma CrashInSecond(r: State -> bool)
    requires Closed(r) && r(Second(Released(T.AwaitStart, T.XPending), [], [], PReady, MakeDir, OneDir()))
    ensures r(Crashed())
  {
    var s := Second(Released(T.AwaitStart, T.XPending), [], [], PReady, MakeDir, OneDir());
    var s1 := Second(Released(T.AwaitStart, T.XPending), [], [], PReady, SendStart({0}), TwoDirs());
    assert s.pstate.Keys == {0} && |s.pstate| == 1;
    ByDisk(r, s, CreateDir, s1);
    var s2 := Crashed();
    RestartOfFirst();
    assert Complete(FirstDir());
    ByCrash(r, s1, 0, s2);
  }

  lemma RestartOfFirst()
    ensures T.RestartOf(Suspended(T.Frozen)) == Unborn(T.RestartConnect)
  {
    assert T.RestartOf(Suspended(T.Frozen)).threads == Unborn(T.RestartConnect).threads;
  }

  lemma RegisterAgain(r: State -> bool)
    requires Closed(r) && r(Crashed())
    ensures r(Second(Unborn(T.RestartConnect), [], [], PRestarting, ReleaseRestart({0}), TwoDirs()))
  {
    var s := Crashed();
    var s1 := Second(Unborn(T.RestartConnect), [], [], PRestarting, Gather(0), TwoDirs());
    ByClient(r, s, Register(0), s1);
    var s2 := Second(Unborn(T.RestartConnect), [], [], PRestarting, ReleaseRestart({0}), TwoDirs());
    assert s1.pstate.Keys == {0} && |s1.pstate| == 1;
    ByMove(r, s1, AllRegistered, s2);
  }

  lemma ReleaseAgain(r: State -> bool)
    requires Closed(r) && r(Second(Unborn(T.RestartConnect), [], [], PRestarting, ReleaseRestart({0}), TwoDirs()))
    ensures r(Second(Unborn(T.RestartConnect), [ResumeAfterRestart], [], PRunning, ReleaseRestart({}), TwoDirs()))
  {
    var s := Second(Unborn(T.RestartConnect), [], [], PRestarting, ReleaseRestart({0}), TwoDirs());
    var s1 := Second(Unborn(T.RestartConnect), [ResumeAfterRestart], [], PRunning, ReleaseRestart({}), TwoDirs());
    OneMessage(ResumeAfterRestart, ResumeAfterRestart);
    assert s.c.todo - {0} == {};
    ByTurn(r, s, ReleaseOne(0), s1);
  }

  lemma RestartResumes(r: State -> bool)
    requires Closed(r)
    requires r(Second(Unborn(T.RestartConnect), [ResumeAfterRestart], [], PRunning, ReleaseRestart({}), TwoDirs()))
    ensures r(Second(Unborn(T.RestartBegin), [], [], PRunning, Idle, TwoDirs()))
  {
    var s := Second(Unborn(T.RestartConnect), [ResumeAfterRestart], [], PRunning, ReleaseRestart({}), TwoDirs());
    var s1 := Second(Unborn(T.RestartConnect), [ResumeAfterRestart], [], PRunning, Idle, TwoDirs());
    ByMove(r, s, AllReleased, s1);
    var s2 := Second(Unborn(T.RestartBegin), [], [], PRunning, Idle, TwoDirs());
    OneMessage(ResumeAfterRestart, ResumeAfterRestart);
    ByClient(r, s1, RecvRestartResume(0), s2);
  }

  function Reborn(k: T.KPc, xs: T.XndState): T.State { Counted(T.Running, T.Arrived(true), xs, 1, k) }

  lemma RecreateOne(q: T.State -> bool)
    requires InnerClosed(q) && q(Unborn(T.RestartBegin))
    ensures q(Counted(T.Suspended, T.Recreated, T.XCkptInProg, 0, T.Fill(true)))
  {
    var ts := GoInner(q, Unborn(T.RestartBegin), T.Ckpt(0));
    assert ts.k == T.Restoring({0});
    ts := GoInner(q, ts, T.Ckpt(0));
    assert ts.k == T.Restoring({}) && ts.counted == {0};
    ts := GoInner(q, ts, T.Ckpt(0));
    assert ts == Counted(T.Suspended, T.Recreated, T.XCkptInProg, 0, T.Fill(true));
  }

  lemma ReleaseOneThread(q: T.State -> bool)
    requires InnerClosed(q) && q(Counted(T.Suspended, T.Recreated, T.XCkptInProg, 0, T.Fill(true)))
    ensures q(Reborn(T.Fill(true), T.XCkptInProg))
  {
    var ts := GoInner(q, Counted(T.Suspended, T.Recreated, T.XCkptInProg, 0, T.Fill(true)), T.RestartSelf(0));
    assert ts == Counted(T.Running, T.AtBarrier(true), T.XCkptInProg, 0, T.Fill(true));
    ts := GoInner(q, ts, T.Arrive(0));
    assert ts == Reborn(T.Fill(true), T.XCkptInProg);
  }

  lemma LeaveRestart(q: T.State -> bool)
    requires InnerClosed(q) && q(Reborn(T.Fill(true), T.XCkptInProg))
    ensures q(Reborn(T.Idle, T.XRunning))
  {
    var ts := GoInner(q, Reborn(T.Fill(true), T.XCkptInProg), T.Ckpt(0));
    ts := GoInner(q, ts, T.Ckpt(0));
  }

  lemma RestartThreads(r: State -> bool)
    requires Closed(r) && r(Second(Unborn(T.RestartBegin), [], [], PRunning, Idle, TwoDirs()))
    ensures r(Second(Reborn(T.Idle, T.XRunning), [], [], PRunning, Idle, TwoDirs()))
  {
    var s := Second(Unborn(T.RestartBegin), [], [], PRunning, Idle, TwoDirs());
    var q := ts => r(SetClient(s, 0, s.procs[0].(ts := ts)));
    Lift(q, r, s);
    assert SetClient(s, 0, s.procs[0].(ts := Unborn(T.RestartBegin))) == s;
    RecreateOne(q);
    ReleaseOneThread(q);
    LeaveRestart(q);
    assert SetClient(s, 0, s.procs[0].(ts := Reborn(T.Idle, T.XRunning))) ==
           Second(Reborn(T.Idle, T.XRunning), [], [], PRunning, Idle, TwoDirs());
  }

  /** The restarted process is ready, and the directory of its epoch is there. */
  function Collides(): State {
    Second(Reborn(T.AwaitStart, T.XPending), [], [], PReady, MakeDir, TwoDirs())
  }

  function Parks(): State {
    Second(Reborn(T.AwaitStart, T.XPending), [], [], PReady, Idle, OneDir())
  }

  lemma AskAgain(r: State -> bool)
    requires Closed(r) && r(Second(Reborn(T.Idle, T.XRunning), [], [], PRunning, Idle, TwoDirs()))
    ensures r(Second(Reborn(T.Idle, T.XRunning), [CkptRequest], [], PRecvRequest, Suspend, TwoDirs()))
  {
    var s := Second(Reborn(T.Idle, T.XRunning), [], [], PRunning, Idle, TwoDirs());
    var s1 := Second(Reborn(T.Idle, T.XRunning), [], [], PRunning, Suspend, TwoDirs());
    ByMove(r, s, BeginCkpt, s1);
    var s2 := Second(Reborn(T.Idle, T.XRunning), [CkptRequest], [], PRecvRequest, Suspend, TwoDirs());
    OneMessage(CkptRequest, CkptRequest);
    ByTurn(r, s1, SendRequest(0), s2);
  }

  lemma GiveUpSecond(r: State -> bool)
    requires Closed(r) && r(Collides())
    ensures r(Parks())
  {
    var s := Collides();
    var s1 := Collides().(c := Unlink(1, false));
    ByDisk(r, s, CreateDir, s1);
    var s2 := Parks();
    ByDisk(r, s1, RemoveDir, s2);
  }

  /**
    Epoch 0 is complete, everything dies after the directory of epoch 1 has been created,
    and is restarted from epoch 0. The next checkpoint finds that directory, removes it and
    stops; the idle coordinator is left with a process that waits for XND_CKPT_START.
   */
  lemma RestartFindsDirectory()
    ensures Reachable(Collides()) && Collides().c.MakeDir? && Collides().epoch in Collides().disk
    ensures Reachable(Parks()) && Parks().c.Idle? && Waiting(Parks(), 0) && Parked(Parks(), 0)
  {
    var r := s => Reachable(s);
    ReachableClosed(r);
    FirstCheckpoint(r);
    AskForSecond(r);
    ResumeProcess(r);
    ReleaseThreads(r);
    GetReady(r, Released(T.Idle, T.XRunning), OneDir());
    CrashInSecond(r);
    RegisterAgain(r);
    ReleaseAgain(r);
    RestartResumes(r);
    RestartThreads(r);
    AskAgain(r);
    GetReady(r, Reborn(T.Idle, T.XRunning), TwoDirs());
    GiveUpSecond(r);
  }

  // ----- a checkpoint of nobody -----

  function Nobody(numPeers: nat, c: CPc, d: map<nat, Dir>): State { State(map[], map[], 1, numPeers, c, d, true) }

  function EmptyDir(): Dir { Dir(map[], Names({})) }

  function LastDead(): State {
    Sys(Proc(Suspended(T.AwaitResume), 0, [ResumeAfterCkpt], []).(alive := false), PRunning, 1, Suspend, OneDir())
  }

  lemma LastDies(r: State -> bool)
    requires Closed(r) && r(First())
    ensures r(LastDead())
  {
    var s := First();
    var s1 := First().(c := Suspend);
    ByMove(r, s, BeginCkpt, s1);
    var s2 := LastDead();
    ByClient(r, s1, Die(0), s2);
  }

  lemma LastIsReaped(r: State -> bool)
    requires Closed(r) && r(LastDead())
    ensures r(Nobody(1, MakeDir, OneDir()))
  {
    var s := LastDead();
    var s1 := Nobody(1, Suspend, OneDir());
    ByMember(r, s, Reap(0), s1);
    var s2 := Nobody(1, MakeDir, OneDir());
    ByMove(r, s1, AllReady, s2);
  }

  lemma StartNobody(r: State -> bool)
    requires Closed(r) && r(Nobody(1, MakeDir, OneDir()))
    ensures r(Nobody(0, Collect({}, 0), TwoDirs()))
  {
    var s := Nobody(1, MakeDir, OneDir());
    var s1 := Nobody(0, SendStart({}), TwoDirs());
    assert s.pstate.Keys == {} && |s.pstate| == 0;
    ByDisk(r, s, CreateDir, s1);
    var s2 := Nobody(0, Collect({}, 0), TwoDirs());
    assert s1.pstate.Keys == {};
    ByMove(r, s1, AllStarted, s2);
  }

  lemma CollectNobody(r: State -> bool)
    requires Closed(r) && r(Nobody(0, Collect({}, 0), TwoDirs()))
    ensures r(Nobody(0, ScanImages, map[0 := FirstDir(), 1 := Dir(map[], EmptyManifest)]))
  {
    var s := Nobody(0, Collect({}, 0), TwoDirs());
    var s1 := Nobody(0, CreateManifest, TwoDirs());
    ByMove(r, s, AllCollected, s1);
    var s2 := Nobody(0, ScanImages, map[0 := FirstDir(), 1 := Dir(map[], EmptyManifest)]);
    ByDisk(r, s1, OpenManifest, s2);
  }

  lemma NameNobody(r: State -> bool)
    requires Closed(r) && r(Nobody(0, ScanImages, map[0 := FirstDir(), 1 := Dir(map[], EmptyManifest)]))
    ensures r(Nobody(0, Unlink(0, true), map[0 := FirstDir(), 1 := EmptyDir()]))
  {
    var s := Nobody(0, ScanImages, map[0 := FirstDir(), 1 := Dir(map[], EmptyManifest)]);
    var s1 := Nobody(0, SendResume({}), map[0 := FirstDir(), 1 := EmptyDir()]);
    assert s.procs.Keys == s.pstate.Keys == s.disk[1].images.Keys == {};
    ByFill(r, s, s1);
    var s2 := Nobody(0, Unlink(0, true), map[0 := FirstDir(), 1 := EmptyDir()]);
    ByMove(r, s1, AllResumed, s2);
  }

  function Lost(): State { Nobody(0, NextEpoch, map[1 := EmptyDir()]) }

  lemma RemoveLast(r: State -> bool)
    requires Closed(r) && r(Nobody(0, Unlink(0, true), map[0 := FirstDir(), 1 := EmptyDir()]))
    ensures r(Lost())
  {
    var s := Nobody(0, Unlink(0, true), map[0 := FirstDir(), 1 := EmptyDir()]);
    var s1 := Nobody(0, Unlink(0, true), map[0 := Dir(map[], Names({0})), 1 := EmptyDir()]);
    assert FirstImages() - {0} == map[];
    ByDisk(r, s, UnlinkImage(0), s1);
    var s2 := Nobody(0, Unlink(0, true), map[0 := NewDir(), 1 := EmptyDir()]);
    ByDisk(r, s1, UnlinkManifest, s2);
    var s3 := Lost();
    ByDisk(r, s2, RemoveDir, s3);
  }

  /**
    The only process dies while the coordinator waits for it to be ready. The checkpoint of
    nobody succeeds, and the previous one, from which it could be restarted, is removed.
   */
  lemma NobodyLeftLosesAll()
    ensures Reachable(First()) && Restartable(First())
    ensures Reachable(Lost()) && NamesNobody(Lost()) && !Restartable(Lost())
  {
    var r := s => Reachable(s);
    ReachableClosed(r);
    FirstCheckpoint(r);
    LastDies(r);
    LastIsReaped(r);
    StartNobody(r);
    CollectNobody(r);
    NameNobody(r);
    RemoveLast(r);
    assert HasComplete(First(), 0);
  }
}
