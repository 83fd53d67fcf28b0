/**
  What the suspension protocol guarantees, over whole runs.
 */
module SuspensionTheorems {
  import opened Wrappers
  import opened ThreadSuspension
  import opened SuspensionInvariant

  predicate Acts(s: State, a: Action, s': State) { Enabled(s, a) && s' == Apply(s, a) }

  /**
    One step of the process. A restart is possible from the memory of any image that was
    written while every live thread was inside the signal handler.
   */
  ghost predicate Next(s: State, s': State) {
    || (exists a: Action :: Acts(s, a, s'))
    || (FrozenPhase(s.k) && Contained(s) && s' == RestartOf(s))
  }

  ghost predicate IsInit(s: State) {
    exists mem, regs :: s == Init(mem, regs) || s == InitForked(mem, regs)
  }

  ghost predicate IsRun(run: seq<State>) {
    && |run| > 0 && IsInit(run[0])
    && forall i :: 0 <= i < |run| - 1 ==> StepAt(run, i)
  }

  ghost predicate StepAt(run: seq<State>, i: int)
    requires 0 <= i < |run| - 1
  {
    Next(run[i], run[i + 1])
  }

  lemma StepInv(s: State, a: Action)
    requires Inv(s) && Enabled(s, a)
    ensures Inv(Apply(s, a))
  {
    if IsUser(a) { UserStep(s, a); }
    else if IsHandler(a) { HandlerStep(s, a); }
    else if a.Ckpt? { CkptStep(s, a); }
    else { SyncStep(s, a); }
  }

  lemma NextInv(s: State, s': State)
    requires Inv(s) && Next(s, s')
    ensures Inv(s')
  {
    if a: Action :| Acts(s, a, s') {
      StepInv(s, a);
    } else {
      RestartInv(s);
    }
  }

  lemma {:induction false} RunInv(run: seq<State>, i: nat)
    requires IsRun(run) && i < |run|
    ensures Inv(run[i])
  {
    if i == 0 {
      var mem, regs :| run[0] == Init(mem, regs) || run[0] == InitForked(mem, regs);
      InitInv(mem, regs);
    } else {
      RunInv(run, i - 1);
      assert StepAt(run, i - 1);
      NextInv(run[i - 1], run[i]);
    }
  }

  function LiveThreads(s: State): set<Tid> {
    set t | t in s.threads && s.threads[t].Live()
  }

  /**
    What holds while the checkpoint thread is between the return of
    `barrier_arrival_wait` and `barrier_release`: the live threads are exactly the
    counted ones and exactly the arrived ones, each waits in `thread_barrier` with its
    context saved, and none is in an unsafe section, half created or exiting.
   */
  predicate BarrierSafe(s: State) {
    && LiveThreads(s) == s.counted == s.arrivedSet == Listed(s)
    && s.arrived == s.expected == |LiveThreads(s)|
    && s.xs.XCkptInProg?
    && forall t | t in s.threads && s.threads[t].Live() ::
         var th := s.threads[t];
         th.state.Suspended? && th.h == Arrived(false) && !th.exiting && th.listed &&
         (th.pc.User? || th.pc.Spin?) && th.uctx == th.regs
  }

  lemma FrozenIsSafe(s: State)
    requires Inv(s) && FrozenPhase(s.k) && s.slipped == {}
    ensures BarrierSafe(s)
  {
    ArrivedAreCovered(s);
    SameSet(s.arrivedSet, s.counted);
    forall t | t in s.threads
      ensures LocalOK(s, t)
    {}
    assert LiveThreads(s) == s.counted;
    assert Listed(s) == s.counted;
    AllArrived(s);
  }

  lemma AllArrived(s: State)
    requires Local(s) && ArrivedOK(s, false) && FrozenPhase(s.k) && s.arrived >= s.expected
    requires LiveThreads(s) == s.counted == s.arrivedSet == Listed(s)
    ensures BarrierSafe(s)
  {
    forall t | t in LiveThreads(s)
      ensures LocalOK(s, t)
    {}
  }

  /** Whoever has arrived was counted or has slipped. */
  lemma ArrivedAreCovered(s: State)
    requires Inv(s) && FrozenPhase(s.k)
    ensures forall t | t in s.arrivedSet :: t in LiveThreads(s) && t in s.counted + s.slipped
  {
    forall t | t in s.arrivedSet
      ensures t in LiveThreads(s) && t in s.counted + s.slipped
    {
      assert LocalOK(s, t);
    }
  }

  /** Barrier safety, with no assumption about stragglers of an earlier round. */
  lemma BarrierSafety(run: seq<State>, i: nat)
    requires IsRun(run) && i < |run| && FrozenPhase(run[i].k) && run[i].slipped == {}
    ensures BarrierSafe(run[i])
  {
    RunInv(run, i);
    FrozenIsSafe(run[i]);
  }

  /** What the program is: its memory and the continuation of each of its threads. */
  datatype Program = Program(mem: int, regs: map<Tid, int>)

  function UserState(s: State): Program {
    Program(s.mem, map t | t in s.threads && s.threads[t].listed && !s.threads[t].gone :: s.threads[t].regs)
  }

  predicate SameUserState(s: State, s': State) {
    UserState(s') == UserState(s) && Listed(s') == Listed(s)
  }

  /** Nothing the program can observe changes between the barrier and its release. */
  lemma FrozenStateIsStable(s: State, a: Action)
    requires Inv(s) && FrozenPhase(s.k) && s.slipped == {} && Enabled(s, a)
    ensures SameUserState(s, Apply(s, a))
  {
    FrozenIsSafe(s);
    FrozenStep(s, a);
  }

  lemma FrozenStep(s: State, a: Action)
    requires BarrierSafe(s) && FrozenPhase(s.k) && Enabled(s, a)
    ensures SameUserState(s, Apply(s, a))
  {
    assert Listed(Apply(s, a)) == Listed(s);
  }

  /** Between the jump into an image and the release no program step happens either. */
  lemma RestartStateIsStable(s: State, a: Action)
    requires RestartOK(s) && RestartPhase(s.k) && Enabled(s, a)
    ensures SameUserState(s, Apply(s, a))
  {
    if IsUser(a) { NobodyIsFree(s, a); }
    else if IsHandler(a) { RestartHandler(s, a); }
    else if a.Ckpt? { RestartCkpt(s, a.t); }
    else { RestartSync(s, a); }
  }

  /** No thread is outside the handler. */
  lemma NobodyIsFree(s: State, a: Action)
    requires RestartOK(s) && RestartPhase(s.k) && IsUser(a)
    ensures !UserEnabled(s, a)
  {}

  lemma RestartHandler(s: State, a: Action)
    requires RestartOK(s) && RestartPhase(s.k) && IsHandler(a) && HandlerEnabled(s, a)
    ensures SameUserState(s, HandlerApply(s, a))
  {
    RestartSteps(s, a);
    KeepsProgram(s, HandlerApply(s, a));
  }

  lemma RestartCkpt(s: State, t: Tid)
    requires RestartPhase(s.k) && CkptEnabled(s, t)
    ensures SameUserState(s, CkptApply(s, t))
  {
    KeepsProgram(s, CkptApply(s, t));
  }

  lemma RestartSync(s: State, a: Action)
    requires IsSync(a) && SyncEnabled(s, a)
    ensures SameUserState(s, SyncApply(s, a))
  {
    KeepsProgram(s, SyncApply(s, a));
  }

  /** No thread is listed, removed, ended or moved on, and the memory is the same. */
  predicate KeepsThreads(s: State, s': State) {
    && s'.mem == s.mem && s'.threads.Keys == s.threads.Keys
    && forall t | t in s.threads ::
         s'.threads[t].listed == s.threads[t].listed && s'.threads[t].gone == s.threads[t].gone &&
         s'.threads[t].regs == s.threads[t].regs
  }

  lemma KeepsProgram(s: State, s': State)
    requires KeepsThreads(s, s')
    ensures SameUserState(s, s')
  {
    assert Listed(s') == Listed(s);
    assert UserState(s').regs == UserState(s).regs;
  }

  // ----- the scan -----

  /** No thread is still on its way out of the barrier of an earlier round. */
  predicate NoStragglers(s: State) {
    forall t | t in s.threads && s.threads[t].Live() :: !s.threads[t].h.Arrived? && !s.threads[t].h.Leaving?
  }

  /** The assumption that every thread has left the previous barrier before the next scan. */
  ghost predicate LeftBeforeScan(run: seq<State>) {
    forall i :: 0 <= i < |run| && run[i].k.ResetArrived? ==> NoStragglers(run[i])
  }

  predicate Suspending(k: KPc) { k.Again? || ScanPhase(k) || WaitPhase(k) }

  /** What the assumption yields later in the same round. */
  predicate Settled(s: State) {
    && (Suspending(s.k) ==> NoStragglers(s))
    && (ScanPhase(s.k) || WaitPhase(s.k) || s.k == Fill(false) || FrozenPhase(s.k) ==> s.deserters == {})
    && (s.k == Fill(false) || FrozenPhase(s.k) ==>
          forall t | t in s.threads && s.threads[t].Live() :: !s.threads[t].h.Leaving?)
  }

  lemma SettledUser(s: State, a: Action)
    requires Settled(s) && IsUser(a) && UserEnabled(s, a)
    ensures Settled(UserApply(s, a))
  {}

  lemma SettledHandler(s: State, a: Action)
    requires PhaseOK(s) && Settled(s) && IsHandler(a) && HandlerEnabled(s, a)
    ensures Settled(HandlerApply(s, a))
  {}

  /** The checkpoint thread moves no thread through the handler. */
  predicate SameHandlers(s: State, s': State) {
    && s'.threads.Keys == s.threads.Keys
    && forall t | t in s.threads ::
         (s'.threads[t].h == s.threads[t].h || s'.threads[t].h.Recreated?) && s'.threads[t].gone == s.threads[t].gone
  }

  lemma ScanKeepsHandlers(s: State, t: Tid)
    requires (s.k.Look? || (s.k.Pass? && s.k.todo != {})) && CkptEnabled(s, t)
    ensures SameHandlers(s, ScanStep(s, t))
  {}

  lemma WaitKeepsHandlers(s: State, t: Tid)
    requires (s.k.WaitLook? || (s.k.WaitPass? && s.k.todo != {})) && CkptEnabled(s, t)
    ensures SameHandlers(s, WaitStep(s, t))
  {}

  lemma CkptKeepsHandlers(s: State, a: Action)
    requires a.Ckpt? && CkptEnabled(s, a.t)
    ensures SameHandlers(s, CkptApply(s, a.t))
  {
    if s.k.Look? || (s.k.Pass? && s.k.todo != {}) { ScanKeepsHandlers(s, a.t); }
    else if s.k.WaitLook? || (s.k.WaitPass? && s.k.todo != {}) { WaitKeepsHandlers(s, a.t); }
  }

  lemma SettledCkpt(s: State, a: Action)
    requires Settled(s) && a.Ckpt? && CkptEnabled(s, a.t) && (s.k.ResetArrived? ==> NoStragglers(s))
    ensures Settled(CkptApply(s, a.t))
  {
    CkptKeepsHandlers(s, a);
    var s' := CkptApply(s, a.t);
    forall t | t in s'.threads && s'.threads[t].Live() && (s'.threads[t].h.Arrived? || s'.threads[t].h.Leaving?)
      ensures t in s.threads && s.threads[t].Live() && s.threads[t].h == s'.threads[t].h
    {}
  }

  lemma SettledStep(s: State, a: Action)
    requires PhaseOK(s) && Settled(s) && (s.k.ResetArrived? ==> NoStragglers(s)) && Enabled(s, a)
    ensures Settled(Apply(s, a))
  {
    if IsUser(a) { SettledUser(s, a); }
    else if IsHandler(a) { SettledHandler(s, a); }
    else if a.Ckpt? { SettledCkpt(s, a); }
    else { SettledSync(s, a); }
  }

  lemma SettledSync(s: State, a: Action)
    requires Settled(s) && IsSync(a) && SyncEnabled(s, a)
    ensures Settled(SyncApply(s, a))
  {}

  lemma SettledNext(s: State, s': State)
    requires PhaseOK(s) && Settled(s) && (s.k.ResetArrived? ==> NoStragglers(s)) && Next(s, s')
    ensures Settled(s')
  {
    if a: Action :| Acts(s, a, s') { SettledStep(s, a); }
  }

  lemma {:induction false} RunSettled(run: seq<State>, i: nat)
    requires IsRun(run) && LeftBeforeScan(run) && i < |run|
    ensures Settled(run[i])
  {
    if i > 0 {
      RunSettled(run, i - 1);
      RunInv(run, i - 1);
      assert StepAt(run, i - 1);
      SettledNext(run[i - 1], run[i]);
    }
  }

  /** The threads of the last pass that are still running the program. */
  function Missed(s: State): set<Tid> {
    set t | t in LiveThreads(s) && !(s.threads[t].listed && (s.threads[t].exiting || s.threads[t].InSuspension()))
  }

  function SuspendedThreads(s: State): set<Tid> {
    set t | t in LiveThreads(s) && s.threads[t].InSuspension()
  }

  /**
    When the last pass ends, no thread was missed and the count is the number of
    suspended threads, if and only if every thread that fell through all the tests of
    the pass is exiting. (A thread falls through when its state changes between two of
    the loads: out of an unsafe section, or from ST_SUSPINPROG to ST_SUSPENDED.)
   */
  lemma ScanIsExact(run: seq<State>, i: nat)
    requires IsRun(run) && LeftBeforeScan(run) && i < |run|
    requires run[i].k.Pass? && run[i].k.todo == {} && !run[i].k.rescan
    ensures var s := run[i];
            (Missed(s) == {} && s.k.suspended == |SuspendedThreads(s)|) <==>
            (forall t | t in s.slipped && t in LiveThreads(s) :: s.threads[t].exiting)
  {
    var s := run[i];
    RunInv(run, i);
    RunSettled(run, i);
    assert s.counted <= SuspendedThreads(s);
    if Missed(s) == {} && s.k.suspended == |SuspendedThreads(s)| {
      SameSet(s.counted, SuspendedThreads(s));
    }
    if forall t | t in s.slipped && t in LiveThreads(s) :: s.threads[t].exiting {
      AllExamined(s);
    }
  }

  /** The creator of a half created thread is listed, running and not suspended. */
  lemma CreatorOf(s: State, t: Tid) returns (c: Tid)
    requires Local(s) && t in s.threads && s.threads[t].pc.Starting?
    ensures c == s.threads[t].pc.creator && c in LiveThreads(s) && c in Listed(s)
    ensures !s.threads[c].InSuspension() && !s.threads[c].exiting && s.threads[c].pc.Creating?
  {
    assert LocalOK(s, t);
    c := s.threads[t].pc.creator;
    assert LocalOK(s, c);
  }

  lemma AllExamined(s: State)
    requires Inv(s) && s.k.Pass? && s.k.todo == {} && !s.k.rescan && s.deserters == {}
    requires forall t | t in s.slipped && t in LiveThreads(s) :: s.threads[t].exiting
    ensures Missed(s) == {} && SuspendedThreads(s) == s.counted
  {
    forall t | t in LiveThreads(s)
      ensures t !in Missed(s) && (s.threads[t].InSuspension() ==> t in s.counted)
    {
      assert LocalOK(s, t);
      if s.threads[t].pc.Starting? {
        var c := CreatorOf(s, t);
      }
    }
  }

  /**
    When `suspend_threads` returns without a slip: every live thread is listed and
    exiting or suspended, and threads_expected is the number of the suspended ones.
    Creating threads during the passes does not change this.
   */
  lemma NoThreadIsMissed(run: seq<State>, i: nat)
    requires IsRun(run) && LeftBeforeScan(run) && i < |run|
    requires WaitPhase(run[i].k) && !run[i].k.SetExpected? && run[i].slipped == {}
    ensures Missed(run[i]) == {} && run[i].expected == |SuspendedThreads(run[i])|
  {
    var s := run[i];
    RunInv(run, i);
    RunSettled(run, i);
    forall t | t in LiveThreads(s)
      ensures t !in Missed(s) && (s.threads[t].InSuspension() <==> t in s.counted)
    {
      assert LocalOK(s, t);
    }
    assert SuspendedThreads(s) == s.counted;
  }

  /** After `wait_for_exiting_threads` the list holds exactly the expected threads. */
  lemma ListIsExpected(run: seq<State>, i: nat)
    requires IsRun(run) && LeftBeforeScan(run) && i < |run| && run[i].slipped == {}
    requires run[i].k.Open? || run[i].k == Fill(false) || FrozenPhase(run[i].k)
    ensures Listed(run[i]) == SuspendedThreads(run[i]) == LiveThreads(run[i])
    ensures run[i].expected == |Listed(run[i])|
  {
    var s := run[i];
    RunInv(run, i);
    RunSettled(run, i);
    forall t | t in LiveThreads(s)
      ensures t in Listed(s) && t in SuspendedThreads(s)
    {
      assert LocalOK(s, t);
    }
    assert Listed(s) == s.counted;
  }

  // ----- what holds even after a slip -----

  /**
    Outside the handler a thread that is not exiting makes the assertion of
    wait_for_exiting_threads fail. So the process aborts, or every listed thread is inside
    the handler. AbortTheorems says exactly when it aborts.
   */
  predicate Caught(s: State) {
    && (s.k.WaitPass? ==> forall t | t in Listed(s) && t !in s.k.todo ::
          s.threads[t].InSuspension() || s.k.exiting > s.k.killed)
    && (s.k.WaitLook? ==> forall t | t in Listed(s) && t !in s.k.todo && t != s.k.t ::
          s.threads[t].InSuspension() || s.k.exiting > s.k.killed)
    && (AfterWait(s.k) ==> Contained(s))
  }

  predicate AfterWait(k: KPc) { k.Open? || k == Fill(false) || FrozenPhase(k) }

  lemma CaughtUser(s: State, a: Action)
    requires Local(s) && Caught(s) && IsUser(a) && UserEnabled(s, a)
    ensures Caught(UserApply(s, a))
  {
    UserStepFrame(s, a);
    CaughtUserFrame(s, UserApply(s, a), a.t);
  }

  lemma CaughtUserFrame(s: State, s': State, t: Tid)
    requires Local(s) && Caught(s) && UserFrame(s, s', t)
    ensures Caught(s')
  {
    assert LocalOK(s, t) && t in LiveThreads(s);
    if HoldsListLock(s.k) {
      assert Listed(s') == Listed(s);
    }
  }

  lemma CaughtHandler(s: State, a: Action)
    requires Local(s) && Settled(s) && Caught(s) && IsHandler(a) && HandlerEnabled(s, a)
    requires s.k.WaitPass? || s.k.WaitLook? || AfterWait(s.k)
    ensures Caught(HandlerApply(s, a))
  {
    assert LocalOK(s, a.t);
    KeepsSuspension(s, a);
    CaughtKept(s, HandlerApply(s, a), a.t);
  }

  /** While the scan's result is being checked no suspended thread goes back. */
  predicate KeptSuspended(s: State, s': State, t: Tid) {
    && t in s.threads && s' == s.(threads := s'.threads, arrived := s'.arrived, arrivedSet := s'.arrivedSet)
    && s'.threads.Keys == s.threads.Keys
    && (forall u | u in s.threads && u != t :: s'.threads[u] == s.threads[u])
    && s'.threads[t].listed == s.threads[t].listed && s'.threads[t].Live() && s.threads[t].Live()
    && (s.threads[t].InSuspension() ==> s'.threads[t].InSuspension())
  }

  lemma KeepsSuspension(s: State, a: Action)
    requires Settled(s) && IsHandler(a) && HandlerEnabled(s, a) && LocalOK(s, a.t)
    requires s.k.WaitPass? || s.k.WaitLook? || AfterWait(s.k)
    ensures KeptSuspended(s, HandlerApply(s, a), a.t)
  {}

  lemma CaughtKept(s: State, s': State, t: Tid)
    requires Caught(s) && KeptSuspended(s, s', t)
    ensures Caught(s')
  {
    assert Listed(s') == Listed(s);
    assert LiveThreads(s') == LiveThreads(s);
  }

  lemma CaughtWait(s: State, t: Tid)
    requires Local(s) && WaitOK(s) && Caught(s) && CkptEnabled(s, t)
    requires s.k.WaitLook? || (s.k.WaitPass? && s.k.todo != {})
    ensures Caught(WaitStep(s, t))
  {
    if s.k.WaitPass? { CaughtPass(s, t); } else { CaughtLook(s, s.k.t); }
  }

  lemma CaughtPass(s: State, t: Tid)
    requires Local(s) && WaitOK(s) && Caught(s) && s.k.WaitPass? && s.k.todo != {} && CkptEnabled(s, t)
    ensures Caught(WaitStep(s, t))
  {
    var s' := WaitStep(s, t);
    assert LocalOK(s, t);
    forall u | u in Listed(s') && u != t
      ensures u in Listed(s) && s'.threads[u] == s.threads[u]
    {}
  }

  lemma CaughtLook(s: State, t: Tid)
    requires Caught(s) && WaitOK(s) && s.k.WaitLook? && s.k.t == t && t in s.threads
    ensures Caught(WaitStep(s, t))
  {}

  /** The end of wait_for_exiting_threads: a half created thread has a listed creator. */
  lemma CaughtOpens(s: State)
    requires Local(s) && Caught(s) && s.k.WaitPass? && s.k.todo == {} && s.k.exiting == s.k.killed
    ensures LiveThreads(s) <= Listed(s)
  {
    forall t | t in LiveThreads(s)
      ensures t in Listed(s)
    {
      assert LocalOK(s, t);
      if s.threads[t].pc.Starting? {
        var c := CreatorOf(s, t);
      }
    }
  }

  lemma CaughtWaitCkpt(s: State, a: Action)
    requires Local(s) && WaitPhase(s.k) && WaitOK(s) && Caught(s) && a.Ckpt? && CkptEnabled(s, a.t)
    ensures Caught(CkptApply(s, a.t))
  {
    if s.k.WaitLook? || (s.k.WaitPass? && s.k.todo != {}) { CaughtWait(s, a.t); }
    else if s.k.WaitPass? && s.k.exiting == s.k.killed { CaughtOpens(s); }
  }

  lemma CaughtOtherCkpt(s: State, a: Action)
    requires !WaitPhase(s.k) && Caught(s) && a.Ckpt? && CkptEnabled(s, a.t)
    ensures Caught(CkptApply(s, a.t))
  {
    if !AfterWait(s.k) {
      var k := CkptApply(s, a.t).k;
      assert !AfterWait(k) && !k.WaitPass? && !k.WaitLook?;
    }
  }

  lemma CaughtStep(s: State, a: Action)
    requires Local(s) && (WaitPhase(s.k) ==> WaitOK(s)) && Settled(s) && Caught(s) && Enabled(s, a)
    ensures Caught(Apply(s, a))
  {
    if IsUser(a) {
      CaughtUser(s, a);
    } else if IsHandler(a) {
      if s.k.WaitPass? || s.k.WaitLook? || AfterWait(s.k) { CaughtHandler(s, a); }
    } else if a.Ckpt? {
      if WaitPhase(s.k) { CaughtWaitCkpt(s, a); } else { CaughtOtherCkpt(s, a); }
    } else {
      CaughtSync(s, a);
    }
  }

  lemma CaughtSync(s: State, a: Action)
    requires Caught(s) && IsSync(a) && SyncEnabled(s, a)
    ensures Caught(SyncApply(s, a))
  {
    assert Listed(SyncApply(s, a)) == Listed(s);
  }

  lemma CaughtByStep(s: State, s': State)
    requires Local(s) && (WaitPhase(s.k) ==> WaitOK(s)) && Settled(s) && Caught(s) && Next(s, s')
    ensures Caught(s')
  {
    if a: Action :| Acts(s, a, s') { CaughtStep(s, a); }
  }

  lemma WaitFromInv(s: State)
    requires Inv(s)
    ensures Local(s) && (WaitPhase(s.k) ==> WaitOK(s)) && (RestartPhase(s.k) ==> RestartOK(s))
  {}

  lemma CaughtNext(s: State, s': State)
    requires Inv(s) && Settled(s) && Caught(s) && Next(s, s')
    ensures Caught(s')
  {
    WaitFromInv(s);
    CaughtByStep(s, s');
  }

  lemma {:induction false} RunCaught(run: seq<State>, i: nat)
    requires IsRun(run) && LeftBeforeScan(run) && i < |run|
    ensures Caught(run[i])
  {
    if i > 0 {
      RunCaught(run, i - 1);
      CaughtAfter(run, i - 1);
    }
  }

  lemma CaughtAfter(run: seq<State>, i: nat)
    requires IsRun(run) && LeftBeforeScan(run) && i + 1 < |run| && Caught(run[i])
    ensures Caught(run[i + 1])
  {
    RunSettled(run, i);
    RunInv(run, i);
    assert StepAt(run, i);
    CaughtNext(run[i], run[i + 1]);
  }

  /**
    What holds while an image is written, slip or not: every live thread is listed and
    inside the handler, where nothing but a context that is still being saved is stale.
    If everybody who slipped is gone, no context is.
   */
  predicate Held(s: State) {
    && s.xs.XCkptInProg? && Contained(s) && Listed(s) == LiveThreads(s)
    && (forall t | t in LiveThreads(s) ::
          var h := s.threads[t].h;
          !h.NoHandler? && !h.Leaving? && (h.Saving? || s.threads[t].uctx == s.threads[t].regs))
    && (s.slipped !! LiveThreads(s) ==> forall t | t in LiveThreads(s) :: s.threads[t].uctx == s.threads[t].regs)
  }

  /** Under the assumption about stragglers. */
  lemma CaughtIsHeld(s: State)
    requires Inv(s) && Settled(s) && Caught(s) && FrozenPhase(s.k)
    ensures Held(s)
  {
    ListedAreLive(s);
    SafeIff(s);
    forall t | t in LiveThreads(s)
      ensures !s.threads[t].h.NoHandler? && !s.threads[t].h.Leaving? && LocalOK(s, t)
    {
      assert LocalOK(s, t);
    }
  }

  /** Without that assumption, if nobody slipped. */
  lemma SafeIsHeld(s: State)
    requires Inv(s) && FrozenPhase(s.k) && s.slipped == {}
    ensures Held(s)
  {
    FrozenIsSafe(s);
  }

  lemma HeldIsStable(s: State, a: Action)
    requires FrozenPhase(s.k) && Held(s) && Enabled(s, a)
    ensures SameUserState(s, Apply(s, a))
  {
    if IsUser(a) {
      UserIsOutside(s, a);
    } else if a.Back? {
      BackIsLeaving(s, a);
    } else {
      KeepsProgram(s, Apply(s, a));
    }
  }

  /** So no program step is possible while an image is written. */
  lemma MemoryIsFrozen(run: seq<State>, i: nat, a: Action)
    requires IsRun(run) && LeftBeforeScan(run) && i < |run| && FrozenPhase(run[i].k) && Enabled(run[i], a)
    ensures Held(run[i]) && SameUserState(run[i], Apply(run[i], a))
  {
    RunInv(run, i);
    RunSettled(run, i);
    RunCaught(run, i);
    CaughtIsHeld(run[i]);
    HeldIsStable(run[i], a);
  }

  /**
    Exactly when the barrier is safe: no thread that fell through the tests of the last
    pass is still alive. Those that are alive then wait in the handler, uncounted, so the
    barrier can fill before everybody has arrived.
   */
  lemma BarrierSafeIff(run: seq<State>, i: nat)
    requires IsRun(run) && LeftBeforeScan(run) && i < |run| && FrozenPhase(run[i].k)
    ensures BarrierSafe(run[i]) <==> run[i].slipped !! LiveThreads(run[i])
  {
    RunInv(run, i);
    RunSettled(run, i);
    RunCaught(run, i);
    SafeIff(run[i]);
  }

  lemma SafeIff(s: State)
    requires Inv(s) && Contained(s) && FrozenPhase(s.k) && s.deserters == {}
    ensures BarrierSafe(s) <==> s.slipped !! LiveThreads(s)
  {
    if s.slipped !! LiveThreads(s) { SafeWithoutSlip(s); } else { UnsafeAfterSlip(s); }
  }

  lemma UnsafeAfterSlip(s: State)
    requires FrozenOK(s) && !(s.slipped !! LiveThreads(s))
    ensures !BarrierSafe(s)
  {
    assert s.slipped !! s.counted;
  }

  lemma SafeWithoutSlip(s: State)
    requires Inv(s) && Contained(s) && FrozenPhase(s.k) && s.deserters == {} && s.slipped !! LiveThreads(s)
    ensures BarrierSafe(s)
  {
    CountedAreLive(s);
    ArrivedAreCovered(s);
    SameSet(s.arrivedSet, s.counted);
    ListedAreLive(s);
    AllArrived(s);
  }

  lemma CountedAreLive(s: State)
    requires Inv(s) && Contained(s) && FrozenPhase(s.k) && s.deserters == {} && s.slipped !! LiveThreads(s)
    ensures LiveThreads(s) == s.counted
  {
    forall t | t in LiveThreads(s)
      ensures t in s.counted
    {
      assert LocalOK(s, t);
    }
  }

  lemma ListedAreLive(s: State)
    requires Local(s) && Contained(s) && !RestartPhase(s.k)
    ensures Listed(s) == LiveThreads(s)
  {
    forall t | t in Listed(s)
      ensures s.threads[t].Live()
    {
      assert LocalOK(s, t);
    }
  }

  lemma UserIsOutside(s: State, a: Action)
    requires IsUser(a) && UserEnabled(s, a)
    ensures a.t in LiveThreads(s) && s.threads[a.t].h.NoHandler?
  {}

  lemma BackIsLeaving(s: State, a: Action)
    requires a.Back? && HandlerEnabled(s, a)
    ensures a.t in LiveThreads(s) && s.threads[a.t].h.Leaving?
  {}

  // ----- restart -----

  /**
    The steps between the jump into the image `run[i]` and the release of its threads. The
    image was written at a safe barrier: BarrierSafety and BarrierSafeIff say when it is.
   */
  ghost predicate IsRestart(run: seq<State>, i: nat, j: nat) {
    && i < j < |run| && FrozenPhase(run[i].k) && BarrierSafe(run[i]) && run[i + 1] == RestartOf(run[i])
    && forall l :: i < l <= j ==> RestartPhase(run[l].k)
  }

  lemma RestartOfKeeps(s: State)
    requires forall t | t in Listed(s) && !s.threads[t].gone :: s.threads[t].uctx == s.threads[t].regs
    ensures SameUserState(s, RestartOf(s))
  {
    assert Listed(RestartOf(s)) == Listed(s);
  }

  lemma RestartBegins(s: State)
    requires BarrierSafe(s)
    ensures SameUserState(s, RestartOf(s))
  {
    forall t | t in Listed(s) && !s.threads[t].gone
      ensures s.threads[t].uctx == s.threads[t].regs
    {
      assert t in LiveThreads(s);
    }
    RestartOfKeeps(s);
  }

  lemma RunNextKeeps(run: seq<State>, l: nat)
    requires IsRun(run) && l + 1 < |run| && RestartPhase(run[l].k)
    ensures SameUserState(run[l], run[l + 1])
  {
    RunInv(run, l);
    assert StepAt(run, l);
    RestartNextInv(run[l], run[l + 1]);
  }

  lemma RestartNextInv(s: State, s': State)
    requires Inv(s) && RestartPhase(s.k) && Next(s, s')
    ensures SameUserState(s, s')
  {
    WaitFromInv(s);
    RestartNext(s, s');
  }

  lemma {:induction false} RestartKeepsUserState(run: seq<State>, i: nat, j: nat)
    requires IsRun(run) && IsRestart(run, i, j)
    ensures SameUserState(run[i], run[j])
  {
    if j == i + 1 {
      RestartBegins(run[i]);
    } else {
      RestartKeepsUserState(run, i, j - 1);
      RunNextKeeps(run, j - 1);
    }
  }

  lemma RestartNext(s: State, s': State)
    requires RestartPhase(s.k) && RestartOK(s) && Next(s, s')
    ensures SameUserState(s, s')
  {
    var a: Action :| Acts(s, a, s');
    RestartStateIsStable(s, a);
  }

  /**
    Thread conservation: when the restarted process releases its threads, each listed
    thread of the image has been recreated once, has arrived at the barrier and has the
    continuation it had, and threads_expected is again what it was in the image. While
    threads are still being created nobody arrives.
   */
  lemma RestartConservesThreads(run: seq<State>, i: nat, j: nat)
    requires IsRun(run) && IsRestart(run, i, j)
    ensures run[j].k.Restoring? ==> run[j].arrived == 0
    ensures run[j].k.RestartFrozen? ==>
              && Listed(run[j]) == Listed(run[i]) == run[j].counted == run[j].arrivedSet
              && run[j].expected == run[j].arrived == run[i].expected
              && forall t | t in Listed(run[i]) ::
                   run[j].threads[t].h == Arrived(true) &&
                   run[j].threads[t].uctx == run[j].threads[t].regs == run[i].threads[t].regs
  {
    RestartKeepsUserState(run, i, j);
    RunInv(run, i);
    RunInv(run, j);
    forall t | t in Listed(run[i])
      ensures t in run[j].threads && run[j].threads[t].regs == run[i].threads[t].regs && LocalOK(run[j], t)
    {
      assert t in Listed(run[j]) && t in LiveThreads(run[i]);
      assert t in UserState(run[i]).regs && t in UserState(run[j]).regs;
    }
  }
}
