/**
  The inductive invariant of ThreadSuspension, phase by phase of the checkpoint thread.
 */
module SuspensionInvariant {
  import opened Wrappers
  import opened ThreadSuspension

  predicate ScanPhase(k: KPc) { k.Pass? || k.Look? }

  predicate WaitPhase(k: KPc) { k.SetExpected? || k.WaitAgain? || k.WaitPass? || k.WaitLook? || k.Open? }

  /** From the return of `barrier_arrival_wait` to `barrier_release`. */
  predicate FrozenPhase(k: KPc) { k.Frozen? || k.ImageWritten? || k.AwaitResume? || k.Resuming? }

  predicate RestartPhase(k: KPc) {
    k.RestartConnect? || k.RestartBegin? || k.Restoring? || (k.Fill? && k.r) || k.RestartFrozen?
  }

  /** What one thread's state, program counter and flags say about each other. */
  predicate LocalOK(s: State, t: Tid)
    requires t in s.threads
  {
    var th := s.threads[t];
    && (th.joined ==> th.exiting && th.gone)
    && (th.exiting <==> th.pc.Exiting?)
    && (!th.gone && !th.pc.Starting? ==> th.listed)
    && (th.gone ==> th.h.NoHandler? && (th.pc.User? || th.pc.Exiting?))
    && (th.h.AtBarrier? || th.h.Arrived? || th.h.Leaving? || th.h.Saved? || th.h.Unborn? || th.h.Recreated? ==>
          th.uctx == th.regs)
    && (th.h.Unborn? || th.h.Recreated? || th.h == AtBarrier(true) ==> RestartPhase(s.k))
    && match th.pc {
         case Starting(c) => !th.listed && th.state.Embryo? && th.h.NoHandler? && CreatorOK(s, c, t)
         case Added(c) => th.state.Embryo? && th.h.NoHandler? && CreatorOK(s, c, t)
         case Wrap(d) => d >= 1 && th.state.Unsafe? && th.h.NoHandler?
         case Creating(d, c) => d >= 1 && th.state.Unsafe? && th.h.NoHandler? && c in s.threads
         case Exiting => th.state.Running? && th.h.NoHandler?
         case _ => HandlerOK(th)
       }
  }

  /** A half created thread has a creator waiting for it inside an unsafe section. */
  predicate CreatorOK(s: State, c: Tid, t: Tid) {
    c in s.threads && s.threads[c].pc.Creating? && s.threads[c].pc.child == t
  }

  predicate HandlerOK(th: Thread) {
    match th.h
    case NoHandler => th.state.Running? || th.state.Signaled?
    case Saving => th.state.SuspInProg?
    case Saved => th.state.SuspInProg?
    case AtBarrier(r) => if r then th.state.Running? || th.state.Signaled? else th.state.Suspended?
    case Arrived(r) => if r then th.state.Running? || th.state.Signaled? else th.state.Suspended?
    case Leaving(r) => if r then th.state.Running? || th.state.Signaled? else th.state.Suspended?
    case Unborn => th.InSuspension()
    case Recreated => th.InSuspension()
  }

  predicate Local(s: State) { forall t | t in s.threads :: LocalOK(s, t) }

  /** A counted thread is inside the handler, unless it deserted. */
  predicate CountedOK(s: State) {
    && s.deserters <= s.counted
    && (forall t | t in s.counted :: t in s.threads)
    && (forall t | t in s.counted && t !in s.deserters ::
          s.threads[t].Live() && s.threads[t].listed && s.threads[t].InSuspension())
    && (forall t | t in s.deserters :: s.threads[t].h.NoHandler? && !s.threads[t].state.Signaled?)
  }

  /** While the list is being scanned. */
  predicate ScanOK(s: State, todo: set<Tid>, n: nat, rescan: bool, current: set<Tid>) {
    && s.xs.XSuspInProg? && s.arrived == 0 && s.arrivedSet == {}
    && n == |s.counted| && CountedOK(s)
    && s.counted !! todo && s.counted !! current && todo !! current
    && s.slipped !! todo && s.slipped !! current && s.slipped !! s.counted
    && (forall t | t in todo :: t in s.threads && s.threads[t].listed)
    && (forall t | t in s.threads && s.threads[t].listed && t !in todo && t !in current ::
          rescan || t in s.slipped || t in s.counted || s.threads[t].exiting)
  }

  predicate LookOK(s: State, t: Tid) {
    t in s.threads && s.threads[t].listed && !s.threads[t].exiting && !s.threads[t].joined
  }

  /** After the last pass: who is not counted slipped, is exiting, or runs after a slip or a desertion. */
  predicate Covered(s: State) {
    forall t | t in s.threads && s.threads[t].Live() ::
      || t in s.counted || t in s.slipped || s.threads[t].exiting
      || ((s.slipped != {} || s.deserters != {}) && s.threads[t].h.NoHandler? && !s.threads[t].state.Signaled?)
  }

  predicate ListCounted(s: State) {
    s.slipped == {} && s.deserters == {} ==> Listed(s) <= s.counted
  }

  predicate WaitOK(s: State) {
    && s.xs.XSuspInProg? && s.arrived == 0 && s.arrivedSet == {}
    && CountedOK(s) && Covered(s) && s.slipped !! s.counted
    && (if s.k.SetExpected? then s.k.n == |s.counted| else s.expected == |s.counted|)
    && (match s.k {
          case WaitPass(todo, exiting, killed) => WaitListOK(s, todo, {}, exiting, killed)
          case WaitLook(t, todo, exiting, killed) => WaitListOK(s, todo, {t}, exiting, killed)
          case Open => ListCounted(s)
          case _ => true
        })
  }

  predicate WaitListOK(s: State, todo: set<Tid>, current: set<Tid>, exiting: nat, killed: nat) {
    && exiting >= killed
    && (forall t | t in todo + current :: t in s.threads)
    && (exiting == killed && s.slipped == {} && s.deserters == {} ==> Listed(s) <= s.counted + todo + current)
  }

  predicate ArrivedOK(s: State, r: bool) {
    && s.xs.XCkptInProg? && s.expected == |s.counted| && s.arrived == |s.arrivedSet|
    && (forall t | t in s.arrivedSet :: t in s.threads && s.threads[t].h == Arrived(r))
  }

  predicate FillOK(s: State) {
    ArrivedOK(s, false) && CountedOK(s) && Covered(s) && ListCounted(s) && s.slipped !! s.counted
  }

  predicate FrozenOK(s: State) { FillOK(s) && s.arrived >= s.expected }

  /** No user thread runs user code between the jump into the image and the release. */
  predicate RestartOK(s: State) {
    && s.xs.XCkptInProg?
    && (forall t | t in s.threads ::
          var th := s.threads[t];
          || th.gone
          || (th.listed && (th.h.Unborn? || th.h.Recreated? || th.h == AtBarrier(true) || th.h == Arrived(true))))
    && match s.k {
         case Restoring(todo) =>
           s.arrived == 0 && s.arrivedSet == {} && RestoringOK(s, todo)
         case Fill(_) => RestartFilled(s)
         case RestartFrozen => RestartFilled(s) && s.arrivedSet == s.counted
         case _ => forall t | t in Listed(s) :: s.threads[t].h.Unborn?
       }
  }

  predicate RestoringOK(s: State, todo: set<Tid>) {
    && s.expected == |s.counted| && todo !! s.counted && Listed(s) == todo + s.counted
    && (forall t | t in todo :: t in s.threads && s.threads[t].h.Unborn?)
    && (forall t | t in s.counted :: t in s.threads && (s.threads[t].h.Recreated? || s.threads[t].h == AtBarrier(true)))
  }

  predicate RestartFilled(s: State) {
    && ArrivedOK(s, true) && Listed(s) == s.counted && s.arrivedSet <= s.counted
    && (forall t | t in s.counted :: !s.threads[t].h.Unborn?)
  }

  predicate PhaseOK(s: State) {
    if s.k.Again? then s.xs.XSuspInProg? && s.arrived == 0 && s.arrivedSet == {}
    else if s.k.ResetArrived? then s.xs.XSuspInProg?
    else if s.k.Pass? then ScanOK(s, s.k.todo, s.k.suspended, s.k.rescan, {})
    else if s.k.Look? then
      2 <= s.k.load <= 6 && ScanOK(s, s.k.todo, s.k.suspended, s.k.rescan, {s.k.t}) && LookOK(s, s.k.t)
    else if WaitPhase(s.k) then WaitOK(s)
    else if s.k == Fill(false) then FillOK(s)
    else if FrozenPhase(s.k) then FrozenOK(s)
    else RestartPhase(s.k) ==> RestartOK(s)
  }

  predicate Inv(s: State) { Local(s) && PhaseOK(s) }

  lemma InitInv(mem: int, regs: int)
    ensures Inv(Init(mem, regs)) && Inv(InitForked(mem, regs))
  {}

  /**
    What every step of user code has in common: only a live thread outside the handler
    moves, handlers stay where they are, nothing stops exiting, and the list grows only
    while the checkpoint thread does not hold its lock.
   */
  predicate UserFrame(s: State, s': State, t: Tid) {
    && s' == s.(threads := s'.threads, mem := s'.mem)
    && t in s.threads && t in s'.threads
    && s.threads.Keys <= s'.threads.Keys
    && (forall u | u in s.threads && u != t :: s'.threads[u] == s.threads[u].(joined := s'.threads[u].joined))
    && (forall u | u in s.threads :: s'.threads[u].joined && !s.threads[u].joined ==>
          s.threads[u].exiting && s.threads[u].gone)
    && (forall u | u in s'.threads && u !in s.threads ::
          var th := s'.threads[u];
          !s.threads[t].exiting && !th.exiting && th.h.NoHandler? && th.state.Embryo? && !th.listed)
    && var th, th' := s.threads[t], s'.threads[t];
    && th.Live() && th.h.NoHandler? && th'.h.NoHandler?
    && (th.exiting ==> th'.exiting)
    && (th'.state.Signaled? ==> th.state.Signaled?)
    && (th.listed ==> th'.listed)
    && (th'.listed && !th.listed ==> !HoldsListLock(s.k) && !th.exiting)
    && (s.k.Look? && s.k.t == t ==> th'.exiting == th.exiting)
  }

  lemma UserStepFrame(s: State, a: Action)
    requires Local(s) && IsUser(a) && UserEnabled(s, a)
    ensures UserFrame(s, UserApply(s, a), a.t)
  {
    assert LocalOK(s, a.t);
    if a.Create? || a.Join? { OtherThreadFrame(s, a); }
  }

  /** The steps that touch the descriptor of a second thread. */
  lemma OtherThreadFrame(s: State, a: Action)
    requires (a.Create? || a.Join?) && UserEnabled(s, a) && LocalOK(s, a.t)
    ensures UserFrame(s, UserApply(s, a), a.t)
  {}

  lemma UserStepLocal(s: State, a: Action)
    requires Local(s) && IsUser(a) && UserEnabled(s, a)
    ensures Local(UserApply(s, a))
  {
    var s' := UserApply(s, a);
    assert LocalOK(s, a.t);
    forall u | u in s'.threads
      ensures LocalOK(s', u)
    {
      if u in s.threads { assert LocalOK(s, u); }
      if a.Create? || a.Join? { PairLocal(s, a, u); } else { OneLocal(s, a, u); }
    }
  }

  /** A step of user code that touches one descriptor. */
  lemma OneLocal(s: State, a: Action, u: Tid)
    requires IsUser(a) && !a.Create? && !a.Join? && UserEnabled(s, a) && LocalOK(s, a.t)
    requires u in s.threads && LocalOK(s, u)
    ensures u in UserApply(s, a).threads && LocalOK(UserApply(s, a), u)
  {}

  lemma PairLocal(s: State, a: Action, u: Tid)
    requires (a.Create? || a.Join?) && UserEnabled(s, a) && LocalOK(s, a.t)
    requires u in UserApply(s, a).threads && (u in s.threads ==> LocalOK(s, u))
    ensures LocalOK(UserApply(s, a), u)
  {}

  lemma UserFrameCounted(s: State, s': State, t: Tid)
    requires Local(s) && UserFrame(s, s', t) && CountedOK(s)
    ensures CountedOK(s')
  {
    assert LocalOK(s, t);
  }

  lemma UserFrameCovered(s: State, s': State, t: Tid)
    requires Local(s) && UserFrame(s, s', t) && CountedOK(s) && Covered(s)
    ensures Covered(s')
    ensures ListCounted(s) ==> ListCounted(s')
  {
    assert LocalOK(s, t);
  }

  lemma UserFrameScan(s: State, s': State, t: Tid, todo: set<Tid>, n: nat, rescan: bool, current: set<Tid>)
    requires Local(s) && UserFrame(s, s', t) && HoldsListLock(s.k) && ScanOK(s, todo, n, rescan, current)
    ensures ScanOK(s', todo, n, rescan, current)
  {
    UserFrameCounted(s, s', t);
  }

  lemma UserFrameWait(s: State, s': State, t: Tid)
    requires Local(s) && UserFrame(s, s', t) && WaitPhase(s.k) && WaitOK(s)
    ensures WaitOK(s')
  {
    UserFrameCounted(s, s', t);
    UserFrameCovered(s, s', t);
    if HoldsListLock(s.k) { UserFrameList(s, s', t); }
  }

  lemma UserFrameList(s: State, s': State, t: Tid)
    requires UserFrame(s, s', t) && HoldsListLock(s.k)
    ensures Listed(s') == Listed(s)
  {}

  lemma UserFrameFill(s: State, s': State, t: Tid)
    requires Local(s) && UserFrame(s, s', t) && FillOK(s)
    ensures FillOK(s')
  {
    UserFrameCounted(s, s', t);
    UserFrameCovered(s, s', t);
  }

  /** No thread outside the handler is alive during a restart. */
  lemma UserFrameRestart(s: State, s': State, t: Tid)
    requires UserFrame(s, s', t) && RestartPhase(s.k)
    ensures !RestartOK(s)
  {}

  lemma UserFramePhase(s: State, s': State, t: Tid)
    requires Inv(s) && UserFrame(s, s', t)
    ensures PhaseOK(s')
  {
    if ScanPhase(s.k) {
      UserFrameScan(s, s', t, s.k.todo, s.k.suspended, s.k.rescan, if s.k.Look? then {s.k.t} else {});
    } else if WaitPhase(s.k) {
      UserFrameWait(s, s', t);
    } else if s.k == Fill(false) || FrozenPhase(s.k) {
      UserFrameFill(s, s', t);
    } else if RestartPhase(s.k) {
      UserFrameRestart(s, s', t);
    }
  }

  lemma UserStep(s: State, a: Action)
    requires Inv(s) && IsUser(a) && UserEnabled(s, a)
    ensures Inv(UserApply(s, a))
  {
    UserStepLocal(s, a);
    UserStepFrame(s, a);
    UserFramePhase(s, UserApply(s, a), a.t);
  }

  lemma HandlerStepLocal(s: State, a: Action)
    requires Local(s) && IsHandler(a) && HandlerEnabled(s, a)
    ensures Local(HandlerApply(s, a))
  {
    assert LocalOK(s, a.t);
    HandlerLocal(s, a);
    LocalPut(s, a.t, HandlerApply(s, a).threads[a.t], HandlerApply(s, a));
  }

  /** A handler step changes its own thread only, and its program counter not at all. */
  lemma HandlerLocal(s: State, a: Action)
    requires IsHandler(a) && HandlerEnabled(s, a) && LocalOK(s, a.t)
    ensures var s' := HandlerApply(s, a);
            && a.t in s'.threads && s'.threads == s.threads[a.t := s'.threads[a.t]] && s'.k == s.k
            && LocalOK(s', a.t) && s'.threads[a.t].pc == s.threads[a.t].pc
  {}

  /** What the handler steps other than Arrive and Back have in common. */
  predicate HandlerFrame(s: State, s': State, t: Tid) {
    && s' == s.(threads := s'.threads)
    && t in s.threads && s'.threads.Keys == s.threads.Keys
    && (forall u | u in s.threads && u != t :: s'.threads[u] == s.threads[u])
    && var th, th' := s.threads[t], s'.threads[t];
    && th' == th.(state := th'.state, h := th'.h, uctx := th'.uctx)
    && th.Live() && th'.Live() && !th'.h.NoHandler?
    && (th.h.NoHandler? ==> th.state.Signaled?)
    && (th.InSuspension() ==> th'.InSuspension() || RestartPhase(s.k))
  }

  lemma HandlerFrameCounted(s: State, s': State, t: Tid)
    requires HandlerFrame(s, s', t) && !RestartPhase(s.k) && CountedOK(s)
    ensures CountedOK(s')
    ensures Covered(s) ==> Covered(s')
    ensures Listed(s') == Listed(s)
  {}

  lemma HandlerFramePhase(s: State, s': State, t: Tid)
    requires Local(s) && PhaseOK(s) && HandlerFrame(s, s', t) && !RestartPhase(s.k)
    requires s.xs.XCkptInProg? ==> !s.threads[t].h.Arrived?
    ensures PhaseOK(s')
  {
    if ScanPhase(s.k) {
      HandlerFrameScan(s, s', t, s.k.todo, s.k.suspended, s.k.rescan, if s.k.Look? then {s.k.t} else {});
    } else if WaitPhase(s.k) {
      HandlerFrameWait(s, s', t);
    } else if s.k == Fill(false) || FrozenPhase(s.k) {
      HandlerFrameFill(s, s', t);
    }
  }

  lemma HandlerFrameFill(s: State, s': State, t: Tid)
    requires HandlerFrame(s, s', t) && !RestartPhase(s.k) && FillOK(s) && !s.threads[t].h.Arrived?
    ensures FillOK(s')
  {
    HandlerFrameCounted(s, s', t);
  }

  lemma HandlerFrameWait(s: State, s': State, t: Tid)
    requires HandlerFrame(s, s', t) && WaitPhase(s.k) && WaitOK(s)
    ensures WaitOK(s')
  {
    HandlerFrameCounted(s, s', t);
  }

  lemma HandlerFrameScan(s: State, s': State, t: Tid, todo: set<Tid>, n: nat, rescan: bool, current: set<Tid>)
    requires HandlerFrame(s, s', t) && !RestartPhase(s.k) && ScanOK(s, todo, n, rescan, current)
    ensures ScanOK(s', todo, n, rescan, current)
  {
    HandlerFrameCounted(s, s', t);
  }

  /** Between the jump into an image and the release only these handler steps exist. */
  lemma RestartSteps(s: State, a: Action)
    requires RestartPhase(s.k) && RestartOK(s) && IsHandler(a) && HandlerEnabled(s, a)
    ensures a.RestartSelf? || a.Arrive?
  {
    var th := s.threads[a.t];
    assert th.h.Unborn? || th.h.Recreated? || th.h == AtBarrier(true) || th.h == Arrived(true);
  }

  lemma RestartSelfPhase(s: State, a: Action)
    requires RestartPhase(s.k) && RestartOK(s) && a.RestartSelf? && HandlerEnabled(s, a)
    ensures RestartOK(HandlerApply(s, a))
  {
    assert Listed(HandlerApply(s, a)) == Listed(s);
  }

  lemma ArrivePhase(s: State, a: Action)
    requires Inv(s) && a.Arrive? && HandlerEnabled(s, a)
    ensures PhaseOK(HandlerApply(s, a))
  {
    var s' := HandlerApply(s, a);
    assert LocalOK(s, a.t) && Arrives(s, s', a.t);
    if s.k == Fill(false) || FrozenPhase(s.k) { ArriveFill(s, s', a.t); }
    else if RestartPhase(s.k) { ArriveRestart(s, s', a.t); }
  }

  predicate Arrives(s: State, s': State, t: Tid) {
    && t in s.threads && s.threads[t].Live() && s.threads[t].h.AtBarrier? && !s.xs.XSuspInProg?
    && s' == s.(threads := s.threads[t := s.threads[t].(h := Arrived(s.threads[t].h.r))],
                arrived := s.arrived + 1, arrivedSet := s.arrivedSet + {t})
  }

  lemma ArriveFill(s: State, s': State, t: Tid)
    requires Arrives(s, s', t) && LocalOK(s, t) && FillOK(s) && (s.k == Fill(false) || FrozenPhase(s.k))
    ensures FillOK(s') && (FrozenOK(s) ==> FrozenOK(s'))
  {
    assert Listed(s') == Listed(s);
    ArriveCovered(s, s', t);
  }

  lemma ArriveCovered(s: State, s': State, t: Tid)
    requires Arrives(s, s', t) && CountedOK(s) && Covered(s)
    ensures CountedOK(s') && Covered(s')
  {}

  lemma ArriveRestart(s: State, s': State, t: Tid)
    requires Arrives(s, s', t) && LocalOK(s, t) && RestartOK(s) && RestartPhase(s.k) && !s.k.Restoring?
    ensures RestartOK(s')
  {
    assert Listed(s') == Listed(s);
  }

  /** A thread that goes back to user code deserts if it had been counted. */
  lemma BackCounted(s: State, a: Action)
    requires a.Back? && HandlerEnabled(s, a) && LocalOK(s, a.t) && !RestartPhase(s.k) && CountedOK(s)
    ensures CountedOK(HandlerApply(s, a))
    ensures Covered(s) ==> Covered(HandlerApply(s, a))
    ensures Listed(HandlerApply(s, a)) == Listed(s)
  {}

  lemma BackPhase(s: State, a: Action)
    requires a.Back? && HandlerEnabled(s, a) && LocalOK(s, a.t) && !RestartPhase(s.k) && PhaseOK(s)
    ensures PhaseOK(HandlerApply(s, a))
  {
    if ScanPhase(s.k) {
      BackScan(s, a, s.k.todo, s.k.suspended, s.k.rescan, if s.k.Look? then {s.k.t} else {});
    } else if WaitPhase(s.k) {
      BackWait(s, a);
    } else if s.k == Fill(false) || FrozenPhase(s.k) {
      BackFill(s, a);
    }
  }

  lemma BackScan(s: State, a: Action, todo: set<Tid>, n: nat, rescan: bool, current: set<Tid>)
    requires a.Back? && HandlerEnabled(s, a) && LocalOK(s, a.t) && ScanPhase(s.k) && ScanOK(s, todo, n, rescan, current)
    ensures ScanOK(HandlerApply(s, a), todo, n, rescan, current)
  {
    BackCounted(s, a);
  }

  lemma BackWait(s: State, a: Action)
    requires a.Back? && HandlerEnabled(s, a) && LocalOK(s, a.t) && WaitPhase(s.k) && WaitOK(s)
    ensures WaitOK(HandlerApply(s, a))
  {
    BackCounted(s, a);
  }

  lemma BackFill(s: State, a: Action)
    requires a.Back? && HandlerEnabled(s, a) && LocalOK(s, a.t) && !RestartPhase(s.k) && FillOK(s)
    ensures FillOK(HandlerApply(s, a))
  {
    BackCounted(s, a);
  }

  lemma HandlerStep(s: State, a: Action)
    requires Inv(s) && IsHandler(a) && HandlerEnabled(s, a)
    ensures Inv(HandlerApply(s, a))
  {
    HandlerStepLocal(s, a);
    if RestartPhase(s.k) { HandlerStepRestart(s, a); } else { HandlerStepOutside(s, a); }
  }

  lemma HandlerStepRestart(s: State, a: Action)
    requires Inv(s) && IsHandler(a) && HandlerEnabled(s, a) && RestartPhase(s.k)
    ensures PhaseOK(HandlerApply(s, a))
  {
    RestartSteps(s, a);
    if a.Arrive? { ArrivePhase(s, a); } else { RestartSelfStep(s, a); }
  }

  lemma RestartSelfStep(s: State, a: Action)
    requires RestartPhase(s.k) && RestartOK(s) && a.RestartSelf? && HandlerEnabled(s, a)
    ensures PhaseOK(HandlerApply(s, a))
  {
    RestartSelfPhase(s, a);
    RestartPhaseOK(HandlerApply(s, a));
  }

  lemma HandlerStepOutside(s: State, a: Action)
    requires Inv(s) && IsHandler(a) && HandlerEnabled(s, a) && !RestartPhase(s.k)
    ensures PhaseOK(HandlerApply(s, a))
  {
    if a.Arrive? { ArrivePhase(s, a); }
    else if a.Back? { BackPhase(s, a); }
    else {
      OtherHandlerFrame(s, a);
      HandlerFramePhase(s, HandlerApply(s, a), a.t);
    }
  }

  lemma OtherHandlerFrame(s: State, a: Action)
    requires Local(s) && IsHandler(a) && !a.Arrive? && !a.Back? && HandlerEnabled(s, a) && !RestartPhase(s.k)
    ensures HandlerFrame(s, HandlerApply(s, a), a.t)
    ensures s.xs.XCkptInProg? ==> !s.threads[a.t].h.Arrived?
  {
    assert LocalOK(s, a.t);
  }

  // ----- steps of the checkpoint thread -----

  lemma ScanStepOK(s: State, t: Tid)
    requires Local(s) && ScanPhase(s.k) && PhaseOK(s) && CkptEnabled(s, t) && (s.k.Pass? ==> s.k.todo != {})
    ensures PhaseOK(ScanStep(s, t))
  {
    if s.k.Pass? { PassStepOK(s, t); } else { LookStepOK(s); }
  }

  lemma PassStepOK(s: State, t: Tid)
    requires Local(s) && s.k.Pass? && CkptEnabled(s, t) && s.k.todo != {}
    requires ScanOK(s, s.k.todo, s.k.suspended, s.k.rescan, {})
    ensures PhaseOK(ScanStep(s, t))
  {
    assert LocalOK(s, t);
  }

  lemma LookStepOK(s: State)
    requires Local(s) && s.k.Look? && 2 <= s.k.load <= 6 && LookOK(s, s.k.t)
    requires ScanOK(s, s.k.todo, s.k.suspended, s.k.rescan, {s.k.t})
    ensures PhaseOK(ScanStep(s, s.k.t))
  {
    var th := s.threads[s.k.t];
    if s.k.load == 2 && th.state.Signaled? {
      if th.gone { LookRemoved(s); } else { LookRescan(s); }
    } else if (s.k.load == 3 && th.state.Suspended?) || (s.k.load == 4 && th.state.SuspInProg?) {
      assert LocalOK(s, s.k.t);
      LookCounted(s);
    } else if (s.k.load == 5 && th.state.Unsafe?) || (s.k.load == 6 && th.state.Embryo?) {
      LookRescan(s);
    } else if s.k.load == 6 {
      LookSlipped(s);
    } else {
      assert ScanOK(ScanStep(s, s.k.t), s.k.todo, s.k.suspended, s.k.rescan, {s.k.t});
    }
  }

  lemma LookCounted(s: State)
    requires s.k.Look? && LookOK(s, s.k.t) && s.threads[s.k.t].InSuspension() && s.threads[s.k.t].Live()
    requires ScanOK(s, s.k.todo, s.k.suspended, s.k.rescan, {s.k.t})
    ensures ScanOK(s.(counted := s.counted + {s.k.t}, k := Pass(s.k.todo, s.k.suspended + 1, s.k.rescan)),
                   s.k.todo, s.k.suspended + 1, s.k.rescan, {})
  {}

  lemma LookRescan(s: State)
    requires s.k.Look? && ScanOK(s, s.k.todo, s.k.suspended, s.k.rescan, {s.k.t})
    ensures ScanOK(s.(k := Pass(s.k.todo, s.k.suspended, true)), s.k.todo, s.k.suspended, true, {})
  {}

  lemma LookSlipped(s: State)
    requires s.k.Look? && ScanOK(s, s.k.todo, s.k.suspended, s.k.rescan, {s.k.t})
    ensures ScanOK(s.(k := Pass(s.k.todo, s.k.suspended, s.k.rescan), slipped := s.slipped + {s.k.t}),
                   s.k.todo, s.k.suspended, s.k.rescan, {})
  {}

  lemma LookRemoved(s: State)
    requires s.k.Look? && LookOK(s, s.k.t)
    requires ScanOK(s, s.k.todo, s.k.suspended, s.k.rescan, {s.k.t})
    ensures ScanOK(Remove(s, s.k.t).(k := Pass(s.k.todo, s.k.suspended, s.k.rescan)),
                   s.k.todo, s.k.suspended, s.k.rescan, {})
  {}

  /** The end of the last pass: everybody was examined, and only who slipped can create a thread. */
  lemma PassEnd(s: State)
    requires Local(s) && s.k.Pass? && s.k.todo == {} && !s.k.rescan
    requires ScanOK(s, {}, s.k.suspended, false, {})
    ensures Covered(s)
  {
    forall t | t in s.threads && s.threads[t].Live()
      ensures || t in s.counted || t in s.slipped || s.threads[t].exiting
              || ((s.slipped != {} || s.deserters != {}) && s.threads[t].h.NoHandler? && !s.threads[t].state.Signaled?)
    {
      assert LocalOK(s, t);
      if s.threads[t].pc.Starting? {
        var c := s.threads[t].pc.creator;
        assert LocalOK(s, c);
        assert s.threads[c].listed && !s.threads[c].InSuspension();
      }
    }
  }

  lemma WaitStepOK(s: State, t: Tid)
    requires Local(s) && (s.k.WaitPass? || s.k.WaitLook?) && WaitOK(s) && CkptEnabled(s, t)
    requires s.k.WaitPass? ==> s.k.todo != {}
    ensures PhaseOK(WaitStep(s, t))
  {
    if s.k.WaitPass? { WaitPassOK(s, t); } else { WaitLookOK(s); }
  }

  lemma WaitPassOK(s: State, t: Tid)
    requires Local(s) && s.k.WaitPass? && WaitOK(s) && CkptEnabled(s, t) && s.k.todo != {}
    ensures PhaseOK(WaitStep(s, t))
  {
    var th := s.threads[t];
    assert LocalOK(s, t);
    if th.joined {
      WaitRemoved(s, t, s.k.exiting, s.k.killed);
    } else if th.exiting && th.gone {
      WaitRemoved(s, t, s.k.exiting + 1, s.k.killed + 1);
    } else if th.exiting {
      WaitKept(s, s.(k := WaitPass(s.k.todo - {t}, s.k.exiting + 1, s.k.killed)));
    } else {
      WaitExamined(s, t);
    }
  }

  /** A thread that is neither joined nor exiting was counted, or the pass was not clean. */
  lemma WaitExamined(s: State, t: Tid)
    requires s.k.WaitPass? && WaitOK(s) && t in s.threads && t in s.k.todo && LocalOK(s, t)
    requires !s.threads[t].exiting && !s.threads[t].joined
    ensures PhaseOK(WaitStep(s, t))
  {
    if s.threads[t].state.Suspended? { WaitCounted(s, t); }
    else { WaitKept(s, s.(k := WaitLook(t, s.k.todo - {t}, s.k.exiting, s.k.killed))); }
  }

  lemma WaitCounted(s: State, t: Tid)
    requires s.k.WaitPass? && WaitOK(s) && t in s.threads && t in s.k.todo && s.threads[t].Live()
    requires !s.threads[t].exiting && s.threads[t].state.Suspended?
    ensures WaitOK(s.(k := WaitPass(s.k.todo - {t}, s.k.exiting, s.k.killed)))
  {
    WaitKept(s, s.(k := WaitPass(s.k.todo - {t}, s.k.exiting, s.k.killed)));
  }

  lemma WaitKept(s: State, s': State)
    requires s.k.WaitPass? && WaitOK(s) && s' == s.(k := s'.k)
    requires s'.k.WaitPass? || s'.k.WaitLook?
    requires if s'.k.WaitPass?
             then WaitListOK(s, s'.k.todo, {}, s'.k.exiting, s'.k.killed)
             else WaitListOK(s, s'.k.todo, {s'.k.t}, s'.k.exiting, s'.k.killed)
    ensures WaitOK(s')
  {
    assert Listed(s') == Listed(s);
  }

  lemma WaitRemoved(s: State, t: Tid, exiting: nat, killed: nat)
    requires s.k.WaitPass? && WaitOK(s) && t in s.threads && t in s.k.todo && s.threads[t].gone
    requires exiting - killed == s.k.exiting - s.k.killed
    ensures WaitOK(Remove(s, t).(k := WaitPass(s.k.todo - {t}, exiting, killed)))
  {
    var s' := Remove(s, t).(k := WaitPass(s.k.todo - {t}, exiting, killed));
    assert Listed(s') == Listed(s) - {t};
  }

  lemma WaitLookOK(s: State)
    requires Local(s) && s.k.WaitLook? && WaitOK(s) && s.k.t in s.threads
    ensures PhaseOK(WaitStep(s, s.k.t))
  {
    assert LocalOK(s, s.k.t);
  }

  /** LocalOK reads the threads and whether a restart is under way, nothing else. */
  lemma LocalFrame(s: State, s': State)
    requires Local(s) && s'.threads == s.threads && (RestartPhase(s.k) ==> RestartPhase(s'.k))
    ensures Local(s')
  {
    forall u | u in s'.threads
      ensures LocalOK(s', u)
    {
      assert LocalOK(s, u);
    }
  }

  lemma LocalPut(s: State, t: Tid, th: Thread, s': State)
    requires Local(s) && t in s.threads && s'.threads == s.threads[t := th]
    requires LocalOK(s', t) && th.pc == s.threads[t].pc
    requires RestartPhase(s.k) ==> RestartPhase(s'.k)
    ensures Local(s')
  {
    forall u | u in s'.threads
      ensures LocalOK(s', u)
    {
      assert LocalOK(s, u);
    }
  }

  lemma ScanStepLocal(s: State, t: Tid)
    requires Local(s) && ScanPhase(s.k) && CkptEnabled(s, t) && (s.k.Pass? ==> s.k.todo != {})
    ensures Local(ScanStep(s, t))
  {
    var u := if s.k.Look? then s.k.t else t;
    var s' := ScanStep(s, t);
    assert LocalOK(s, u);
    if s'.threads == s.threads { LocalFrame(s, s'); }
    else { LocalPut(s, u, s'.threads[u], s'); }
  }

  lemma WaitStepLocal(s: State, t: Tid)
    requires Local(s) && (s.k.WaitPass? || s.k.WaitLook?) && CkptEnabled(s, t) && (s.k.WaitPass? ==> s.k.todo != {})
    ensures Local(WaitStep(s, t))
  {
    var u := if s.k.WaitLook? then s.k.t else t;
    var s' := WaitStep(s, t);
    assert LocalOK(s, u);
    if s'.threads == s.threads { LocalFrame(s, s'); }
    else { LocalPut(s, u, s'.threads[u], s'); }
  }

  lemma CkptStepLocal(s: State, a: Action)
    requires Inv(s) && a.Ckpt? && CkptEnabled(s, a.t)
    ensures Local(CkptApply(s, a.t))
  {
    var s' := CkptApply(s, a.t);
    if ScanPhase(s.k) && (s.k.Pass? ==> s.k.todo != {}) {
      ScanStepLocal(s, a.t);
    } else if (s.k.WaitPass? || s.k.WaitLook?) && (s.k.WaitPass? ==> s.k.todo != {}) {
      WaitStepLocal(s, a.t);
    } else if s.k.Restoring? && s.k.todo != {} {
      RecreateLocal(s, a);
    } else if s.k.RestartFrozen? {
      RestartEndsLocal(s);
    } else {
      LocalFrame(s, s');
    }
  }

  lemma RecreateLocal(s: State, a: Action)
    requires Local(s) && a.Ckpt? && s.k.Restoring? && s.k.todo != {} && RestartOK(s) && CkptEnabled(s, a.t)
    ensures Local(CkptApply(s, a.t))
  {
    RecreatedLocal(s, a.t);
  }

  lemma RecreatedLocal(s: State, t: Tid)
    requires Local(s) && s.k.Restoring? && t in s.k.todo && t in s.threads && RestartOK(s)
    ensures Local(Recreate(s, t))
  {
    assert LocalOK(s, t) && s.threads[t].h.Unborn?;
    LocalPut(s, t, s.threads[t].(h := Recreated), Recreate(s, t));
  }

  lemma RestartEndsLocal(s: State)
    requires Local(s) && s.k.RestartFrozen? && RestartOK(s)
    ensures Local(s.(xs := XRunning, k := Idle))
  {
    var s' := s.(xs := XRunning, k := Idle);
    forall u | u in s'.threads
      ensures LocalOK(s', u)
    {
      assert LocalOK(s, u);
    }
  }

  lemma SuspendPhase(s: State, a: Action)
    requires Inv(s) && a.Ckpt? && CkptEnabled(s, a.t)
    requires s.k.Begin? || s.k.ResetArrived? || s.k.Again? || ScanPhase(s.k)
    ensures PhaseOK(CkptApply(s, a.t))
  {
    if s.k.Pass? {
      if s.k.todo != {} { ScanStepOK(s, a.t); }
      else if !s.k.rescan { PassEnd(s); }
    } else if s.k.Look? {
      ScanStepOK(s, a.t);
    }
  }

  lemma WaitPhaseStep(s: State, a: Action)
    requires Local(s) && WaitPhase(s.k) && WaitOK(s) && a.Ckpt? && CkptEnabled(s, a.t)
    ensures PhaseOK(CkptApply(s, a.t))
  {
    if s.k.WaitLook? || (s.k.WaitPass? && s.k.todo != {}) {
      WaitStepOK(s, a.t);
    } else {
      WaitMoves(s, CkptApply(s, a.t));
    }
  }

  /** The steps of this phase that look at no thread. */
  lemma WaitMoves(s: State, s': State)
    requires WaitPhase(s.k) && WaitOK(s) && !s.k.WaitLook?
    requires || (s.k.SetExpected? && s' == s.(expected := s.k.n, k := WaitAgain))
             || (s.k.WaitAgain? && s' == s.(k := WaitPass(Listed(s), 0, 0)))
             || (s.k.WaitPass? && s.k.todo == {} &&
                 s' == s.(k := if s.k.exiting != s.k.killed then WaitAgain else Open))
             || (s.k.Open? && s' == s.(xs := XCkptInProg, k := Fill(false)))
    ensures PhaseOK(s')
  {
    assert Listed(s') == Listed(s);
  }

  lemma FillPhaseStep(s: State, a: Action)
    requires s.k == Fill(false) && FillOK(s) && a.Ckpt? && CkptEnabled(s, a.t)
    ensures PhaseOK(CkptApply(s, a.t))
  {
    assert Listed(CkptApply(s, a.t)) == Listed(s);
  }

  lemma RecreateStep(s: State, a: Action)
    requires s.k.Restoring? && s.k.todo != {} && RestartOK(s) && a.Ckpt? && CkptEnabled(s, a.t)
    ensures RestartOK(CkptApply(s, a.t))
  {
    RecreateOK(s, a.t);
  }

  lemma RecreateOK(s: State, t: Tid)
    requires s.k.Restoring? && t in s.k.todo && t in s.threads && RestartOK(s)
    ensures RestartOK(Recreate(s, t))
  {
    RecreateRestoring(s, t);
    RecreateOthers(s, t);
  }

  lemma RecreateOthers(s: State, t: Tid)
    requires s.k.Restoring? && t in s.threads
    ensures var s' := Recreate(s, t);
            && s'.threads.Keys == s.threads.Keys && s'.threads[t].h.Recreated?
            && s'.threads[t].listed == s.threads[t].listed
            && forall u | u in s.threads && u != t :: s'.threads[u] == s.threads[u]
  {}

  lemma RecreateRestoring(s: State, t: Tid)
    requires s.k.Restoring? && t in s.k.todo && t in s.threads && RestoringOK(s, s.k.todo)
    ensures RestoringOK(Recreate(s, t), s.k.todo - {t})
  {
    RecreateList(s, t);
  }

  lemma RecreateList(s: State, t: Tid)
    requires s.k.Restoring? && t in s.k.todo && t in s.threads && Listed(s) == s.k.todo + s.counted
    ensures var s' := Recreate(s, t); Listed(s') == s'.k.todo + s'.counted == Listed(s)
  {
    assert Listed(Recreate(s, t)) == Listed(s);
  }

  lemma RestoreEnds(s: State, a: Action)
    requires s.k == Restoring({}) && RestartOK(s) && a.Ckpt? && CkptEnabled(s, a.t)
    ensures RestartOK(CkptApply(s, a.t))
  {
    assert Listed(CkptApply(s, a.t)) == Listed(s) == {} + s.counted;
  }

  lemma RestoreBegins(s: State, a: Action)
    requires s.k.RestartBegin? && RestartOK(s) && a.Ckpt? && CkptEnabled(s, a.t)
    ensures RestartOK(CkptApply(s, a.t))
  {
    assert Listed(CkptApply(s, a.t)) == Listed(s);
  }

  lemma RestartPhaseStep(s: State, a: Action)
    requires RestartPhase(s.k) && RestartOK(s) && a.Ckpt? && CkptEnabled(s, a.t)
    ensures CkptApply(s, a.t).k.Idle? || (RestartPhase(CkptApply(s, a.t).k) && RestartOK(CkptApply(s, a.t)))
  {
    if s.k.Restoring? {
      if s.k.todo == {} { RestoreEnds(s, a); } else { RecreateStep(s, a); }
    } else if s.k.Fill? {
      RestartFills(s, a);
    } else if s.k.RestartBegin? {
      RestoreBegins(s, a);
    }
  }

  lemma RestartFills(s: State, a: Action)
    requires s.k == Fill(true) && RestartOK(s) && a.Ckpt? && CkptEnabled(s, a.t)
    ensures RestartOK(CkptApply(s, a.t))
  {
    SameSet(s.arrivedSet, s.counted);
    assert Listed(CkptApply(s, a.t)) == Listed(s);
  }

  lemma RestartPhaseOK(s: State)
    requires s.k.Idle? || (RestartPhase(s.k) && RestartOK(s))
    ensures PhaseOK(s)
  {}

  lemma CkptStepPhase(s: State, a: Action)
    requires Local(s) && PhaseOK(s) && a.Ckpt? && CkptEnabled(s, a.t)
    ensures PhaseOK(CkptApply(s, a.t))
  {
    if RestartPhase(s.k) {
      RestartPhaseStep(s, a);
      RestartPhaseOK(CkptApply(s, a.t));
    } else if WaitPhase(s.k) {
      WaitPhaseStep(s, a);
    } else if s.k == Fill(false) {
      FillPhaseStep(s, a);
    } else if !FrozenPhase(s.k) {
      SuspendPhase(s, a);
    } else {
      RestartPhaseOK(CkptApply(s, a.t));
    }
  }

  lemma CkptStep(s: State, a: Action)
    requires Inv(s) && a.Ckpt? && CkptEnabled(s, a.t)
    ensures Inv(CkptApply(s, a.t))
  {
    CkptStepLocal(s, a);
    CkptStepPhase(s, a);
  }

  lemma SyncStep(s: State, a: Action)
    requires Inv(s) && IsSync(a) && SyncEnabled(s, a)
    ensures Inv(SyncApply(s, a))
  {
    LocalFrame(s, SyncApply(s, a));
    SyncPhase(s, a);
  }

  lemma SyncPhase(s: State, a: Action)
    requires PhaseOK(s) && IsSync(a) && SyncEnabled(s, a)
    ensures PhaseOK(SyncApply(s, a))
  {
    if a.WriteImage? || a.SendDone? || a.Resume? { FrozenSync(s, a); }
    else if a.RestartResume? { ConnectFrame(s, SyncApply(s, a)); }
  }

  lemma FrozenSync(s: State, a: Action)
    requires FrozenOK(s) && (a.WriteImage? || a.SendDone? || a.Resume?) && SyncEnabled(s, a)
    ensures PhaseOK(SyncApply(s, a))
  {
    FrozenFrame(s, SyncApply(s, a));
  }

  lemma FrozenFrame(s: State, s': State)
    requires FrozenOK(s) && s' == s.(k := s'.k)
    ensures FrozenOK(s')
  {
    assert Listed(s') == Listed(s);
  }

  lemma ConnectFrame(s: State, s': State)
    requires RestartOK(s) && s.k.RestartConnect? && s' == s.(k := RestartBegin)
    ensures RestartOK(s')
  {
    assert Listed(s') == Listed(s);
  }

  /** Every live thread is listed and inside the signal handler. */
  predicate Contained(s: State) {
    && (forall t | t in s.threads && s.threads[t].Live() :: s.threads[t].listed)
    && (forall t | t in Listed(s) :: s.threads[t].InSuspension())
  }

  lemma RestartLocal(s: State)
    requires Local(s) && Contained(s)
    ensures Local(RestartOf(s))
  {
    var s' := RestartOf(s);
    forall u | u in s'.threads
      ensures LocalOK(s', u)
    {
      assert LocalOK(s, u);
    }
  }

  lemma RestartInv(s: State)
    requires Inv(s) && FrozenPhase(s.k) && Contained(s)
    ensures Inv(RestartOf(s))
  {
    RestartLocal(s);
    RestartUnborn(s);
  }

  lemma RestartUnborn(s: State)
    requires Local(s) && Contained(s) && s.xs.XCkptInProg?
    ensures RestartOK(RestartOf(s))
  {
    var s' := RestartOf(s);
    forall t | t in s'.threads
      ensures s'.threads[t].gone || (s'.threads[t].listed && s'.threads[t].h.Unborn?)
    {
      assert LocalOK(s, t);
    }
    forall t | t in Listed(s')
      ensures s'.threads[t].h.Unborn?
    {
      assert t in Listed(s) && LocalOK(s, t);
    }
  }
}
