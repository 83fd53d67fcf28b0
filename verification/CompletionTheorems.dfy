/**
  Checkpoints and restarts can be completed: for any number of threads there is a way through
  the whole protocol, and it ends with every thread back in the program where it was.
  "Steps lead from s to s'" is said as: s' is in every set of states that contains s and that
  the steps of a run without stragglers do not leave (SlipRun.Closed).
 */
module CompletionTheorems {
  import opened Wrappers
  import opened ThreadSuspension
  import opened SuspensionInvariant
  import opened SuspensionTheorems
  import opened SlipRun

  /** Running user code outside of an unsafe section. */
  predicate Free(th: Thread) { (th.pc.User? || th.pc.Spin?) && th.state.Running? && th.h.NoHandler? }

  predicate AllFree(s: State) { forall t | t in LiveThreads(s) :: Free(s.threads[t]) }

  /** The same program: memory, and of each thread the continuation, the place in its code and whether it lives. */
  predicate SameProgram(s: State, s': State) {
    && s'.mem == s.mem && s'.threads.Keys == s.threads.Keys
    && forall t | t in s.threads ::
         var th, th' := s.threads[t], s'.threads[t];
         th'.regs == th.regs && th'.pc == th.pc && th'.gone == th.gone && th'.exiting == th.exiting
  }

  lemma HandlerGo(r: State -> bool, s: State, a: Action) returns (s': State)
    requires Closed(r) && r(s) && Inv(s) && IsHandler(a) && HandlerEnabled(s, a) && !s.k.ResetArrived?
    ensures s' == HandlerApply(s, a) && r(s') && Inv(s')
  {
    s' := Go(r, s, a);
    StepInv(s, a);
  }

  lemma CkptGo(r: State -> bool, s: State, t: Tid) returns (s': State)
    requires Closed(r) && r(s) && Inv(s) && CkptEnabled(s, t) && (s.k.Begin? ==> NoStragglers(s))
    ensures s' == CkptApply(s, t) && r(s') && Inv(s')
  {
    ResetOnlyAtBegin(s, t);
    s' := Go(r, s, Ckpt(t));
    StepInv(s, Ckpt(t));
  }

  lemma ResetOnlyAtBegin(s: State, t: Tid)
    requires CkptEnabled(s, t) && (s.k.Begin? ==> NoStragglers(s))
    ensures CkptApply(s, t).k.ResetArrived? ==> NoStragglers(CkptApply(s, t))
  {
    if s.k.Begin? { assert CkptApply(s, t).threads == s.threads; }
  }

  lemma SyncGo(r: State -> bool, s: State, a: Action) returns (s': State)
    requires Closed(r) && r(s) && Inv(s) && IsSync(a) && SyncEnabled(s, a)
    ensures s' == SyncApply(s, a) && r(s') && Inv(s')
  {
    s' := Go(r, s, a);
    StepInv(s, a);
  }

  // ----- everybody is signalled -----

  /** Within the first pass: the threads of `todo` are still free, the others have been signalled. */
  predicate Signalling(s: State, todo: set<Tid>, rescan: bool) {
    && s.k == Pass(todo, 0, rescan) && s.counted == {} && s.slipped == {} && s.deserters == {}
    && (forall t | t in LiveThreads(s) ::
          if t in todo then Free(s.threads[t])
          else s.threads[t].state.Signaled? && s.threads[t].h.NoHandler? && rescan)
    && (forall t | t in Listed(s) && s.threads[t].gone && t !in todo :: s.threads[t].exiting)
  }

  lemma {:induction false} SignalAll(r: State -> bool, s: State, todo: set<Tid>, rescan: bool)
    returns (s': State, rescan': bool)
    requires Closed(r) && r(s) && Inv(s) && Signalling(s, todo, rescan)
    ensures r(s') && Inv(s') && SameProgram(s, s') && Signalling(s', {}, rescan')
    decreases |todo|
  {
    s', rescan' := s, rescan;
    if t :| t in todo {
      s', rescan' := SignalOne(r, s, todo, rescan, t);
      s', rescan' := SignalAll(r, s', todo - {t}, rescan');
    }
  }

  lemma SignalOne(r: State -> bool, s: State, todo: set<Tid>, rescan: bool, t: Tid) returns (s': State, rescan': bool)
    requires Closed(r) && r(s) && Inv(s) && Signalling(s, todo, rescan) && t in todo
    ensures r(s') && Inv(s') && SameProgram(s, s') && Signalling(s', todo - {t}, rescan')
  {
    InTodo(s, todo, rescan, t);
    s' := SignalTurn(r, s, todo, rescan, t);
    rescan' := rescan || s.threads[t].Live();
    Signalled(s, s', todo, rescan, t);
  }

  lemma InTodo(s: State, todo: set<Tid>, rescan: bool, t: Tid)
    requires Inv(s) && Signalling(s, todo, rescan) && t in todo
    ensures t in Listed(s) && LocalOK(s, t) && CkptEnabled(s, t) && !s.threads[t].h.Unborn?
    ensures !s.threads[t].gone ==> Free(s.threads[t])
  {
    assert LocalOK(s, t);
  }

  lemma SignalTurn(r: State -> bool, s: State, todo: set<Tid>, rescan: bool, t: Tid) returns (s': State)
    requires Closed(r) && r(s) && Inv(s) && s.k == Pass(todo, 0, rescan) && t in todo && t in Listed(s)
    requires LocalOK(s, t) && CkptEnabled(s, t) && (!s.threads[t].gone ==> Free(s.threads[t]))
    ensures r(s') && Inv(s') && TurnOf(s, s', todo, rescan, t)
  {
    FirstLoad(s, todo, rescan, t);
    s' := CkptGo(r, s, t);
    if s'.k.Look? {
      SecondLoad(s', t);
      s' := CkptGo(r, s', t);
    }
  }

  lemma FirstLoad(s: State, todo: set<Tid>, rescan: bool, t: Tid)
    requires s.k == Pass(todo, 0, rescan) && t in todo && CkptEnabled(s, t) && LocalOK(s, t)
    requires (!s.threads[t].gone ==> Free(s.threads[t]))
    ensures var s', th := CkptApply(s, t), s.threads[t];
            if th.gone && !th.exiting && th.state.Signaled? then s' == s.(k := Look(t, 2, todo - {t}, 0, rescan))
            else TurnOf(s, s', todo, rescan, t)
  {}

  lemma SecondLoad(s: State, t: Tid)
    requires s.k.Look? && s.k.t == t && s.k.load == 2
    requires t in s.threads && s.threads[t].state.Signaled? && s.threads[t].gone
    ensures CkptEnabled(s, t) && CkptApply(s, t) == Remove(s, t).(k := Pass(s.k.todo, s.k.suspended, s.k.rescan))
  {}

  /** What one turn has done, in one or two steps. */
  predicate TurnOf(s: State, s': State, todo: set<Tid>, rescan: bool, t: Tid)
    requires t in s.threads
  {
    var th := s.threads[t];
    && s' == s.(threads := s'.threads, k := Pass(todo - {t}, 0, rescan || th.Live()))
    && s'.threads.Keys == s.threads.Keys && (forall u | u in s.threads && u != t :: s'.threads[u] == s.threads[u])
    && s'.threads[t] ==
       if th.exiting then th else if th.Live() then th.(state := Signaled) else th.(state := Signaled, listed := false)
  }

  lemma Signalled(s: State, s': State, todo: set<Tid>, rescan: bool, t: Tid)
    requires Signalling(s, todo, rescan) && t in todo && t in s.threads && TurnOf(s, s', todo, rescan, t)
    requires !s.threads[t].gone ==> Free(s.threads[t]) && !s.threads[t].exiting
    ensures SameProgram(s, s') && Signalling(s', todo - {t}, rescan || s.threads[t].Live())
  {}

  // ----- everybody handles the signal -----

  /** Before the second pass: the threads of `todo` still have to enter the handler. */
  predicate Handling(s: State, todo: set<Tid>) {
    && s.k.Again? && todo <= LiveThreads(s)
    && (forall t | t in LiveThreads(s) ::
          if t in todo then s.threads[t].state.Signaled? && s.threads[t].h.NoHandler?
          else s.threads[t].state.Suspended? && s.threads[t].h == AtBarrier(false))
    && (forall t | t in Listed(s) && s.threads[t].gone :: s.threads[t].exiting)
  }

  lemma {:induction false} HandleAll(r: State -> bool, s: State, todo: set<Tid>) returns (s': State)
    requires Closed(r) && r(s) && Inv(s) && Handling(s, todo)
    ensures r(s') && Inv(s') && SameProgram(s, s') && Handling(s', {})
    decreases |todo|
  {
    s' := s;
    if t :| t in todo {
      s' := HandleOne(r, s, t);
      Moved(s, s', t);
      assert Handling(s', todo - {t});
      s' := HandleAll(r, s', todo - {t});
    }
  }

  lemma HandleOne(r: State -> bool, s: State, t: Tid) returns (s': State)
    requires Closed(r) && r(s) && Inv(s) && s.k.Again? && t in LiveThreads(s)
    requires s.threads[t].state.Signaled? && s.threads[t].h.NoHandler?
    ensures r(s') && Inv(s')
    ensures MovesTo(s, s', t, s.threads[t].(state := Suspended, h := AtBarrier(false), uctx := s.threads[t].regs))
  {
    s' := HandlerGo(r, s, Handle(t));
    var a := s'.threads[t];
    s' := HandlerGo(r, s', SaveContext(t));
    var b := s'.threads[t];
    UpdatedTwice(s.threads, t, a, b);
    s' := HandlerGo(r, s', MarkSuspended(t));
    UpdatedTwice(s.threads, t, b, s'.threads[t]);
  }

  lemma UpdatedTwice(m: map<Tid, Thread>, t: Tid, a: Thread, b: Thread)
    ensures m[t := a][t := b] == m[t := b]
  {}

  /** Only the descriptor of `t` has changed. */
  predicate MovesTo(s: State, s': State, t: Tid, th: Thread) {
    s' == s.(threads := s.threads[t := th])
  }

  /** A step through the handler leaves the program alone. */
  lemma Moved(s: State, s': State, t: Tid)
    requires t in LiveThreads(s) && t in s'.threads && s'.mem == s.mem && s'.threads == s.threads[t := s'.threads[t]]
    requires var th, th' := s.threads[t], s'.threads[t];
             && th' == th.(state := th'.state, h := th'.h, uctx := th'.uctx) && th'.Live()
    ensures SameProgram(s, s') && LiveThreads(s') == LiveThreads(s) && Listed(s') == Listed(s)
  {
    assert s'.threads.Keys == s.threads.Keys;
  }

  // ----- everybody is counted -----

  /** Within the second pass; all live threads are suspended and those not in `todo` are counted. */
  predicate Counting(s: State, todo: set<Tid>) {
    && s.k == Pass(todo, |s.counted|, false) && s.slipped == {} && s.deserters == {}
    && (forall t | t in LiveThreads(s) ::
          s.threads[t].state.Suspended? && s.threads[t].h == AtBarrier(false) && (t in todo || t in s.counted))
    && (forall t | t in Listed(s) && s.threads[t].gone :: s.threads[t].exiting)
  }

  lemma {:induction false} CountAll(r: State -> bool, s: State, todo: set<Tid>) returns (s': State)
    requires Closed(r) && r(s) && Inv(s) && Counting(s, todo)
    ensures r(s') && Inv(s') && s'.threads == s.threads && s'.mem == s.mem && Counting(s', {})
    decreases |todo|
  {
    s' := s;
    if t :| t in todo {
      s' := CountOne(r, s, todo, t);
      s' := CountAll(r, s', todo - {t});
    }
  }

  lemma CountOne(r: State -> bool, s: State, todo: set<Tid>, t: Tid) returns (s': State)
    requires Closed(r) && r(s) && Inv(s) && Counting(s, todo) && t in todo
    ensures r(s') && Inv(s') && s'.threads == s.threads && s'.mem == s.mem && Counting(s', todo - {t})
  {
    assert t in Listed(s) && LocalOK(s, t);
    if s.threads[t].exiting {
      ExitingIsSkipped(s, todo, t);
      s' := CkptGo(r, s, t);
    } else {
      assert t in LiveThreads(s);
      s' := CountSuspended(r, s, todo, t);
      NotCounted(s, todo, t);
    }
  }

  lemma ExitingIsSkipped(s: State, todo: set<Tid>, t: Tid)
    requires Counting(s, todo) && t in todo && t in s.threads && s.threads[t].exiting && LocalOK(s, t)
    ensures CkptEnabled(s, t) && CkptApply(s, t) == s.(k := Pass(todo - {t}, |s.counted|, false))
    ensures Counting(CkptApply(s, t), todo - {t})
  {}

  lemma CountSuspended(r: State -> bool, s: State, todo: set<Tid>, t: Tid) returns (s': State)
    requires Closed(r) && r(s) && Inv(s) && s.k == Pass(todo, |s.counted|, false) && t in todo && t in s.threads
    requires s.threads[t].state.Suspended? && !s.threads[t].exiting && !s.threads[t].joined
    ensures r(s') && Inv(s')
    ensures s' == s.(k := Pass(todo - {t}, |s.counted| + 1, false), counted := s.counted + {t})
  {
    FirstOfSuspended(s, todo, t, |s.counted|);
    s' := CkptGo(r, s, t);
    s' := CountTurn(r, s', t);
  }

  lemma FirstOfSuspended(s: State, todo: set<Tid>, t: Tid, n: nat)
    requires s.k == Pass(todo, n, false) && t in todo && t in s.threads && s.threads[t].state.Suspended?
    requires !s.threads[t].exiting && !s.threads[t].joined
    ensures CkptEnabled(s, t) && CkptApply(s, t) == s.(k := Look(t, 2, todo - {t}, n, false))
  {}

  lemma NotCounted(s: State, todo: set<Tid>, t: Tid)
    requires Inv(s) && s.k.Pass? && s.k.todo == todo && t in todo
    ensures t !in s.counted && |s.counted + {t}| == |s.counted| + 1
  {}

  lemma CountTurn(r: State -> bool, s: State, t: Tid) returns (s': State)
    requires Closed(r) && r(s) && Inv(s) && s.k.Look? && s.k.t == t && s.k.load == 2
    requires t in s.threads && s.threads[t].state.Suspended?
    ensures r(s') && Inv(s')
    ensures s' == s.(k := Pass(s.k.todo, s.k.suspended + 1, s.k.rescan), counted := s.counted + {t})
  {
    LoadsOfSuspended(s, t);
    s' := CkptGo(r, s, t);
    LoadsOfSuspended(s', t);
    s' := CkptGo(r, s', t);
  }

  lemma LoadsOfSuspended(s: State, t: Tid)
    requires s.k.Look? && s.k.t == t && t in s.threads && s.threads[t].state.Suspended? && 2 <= s.k.load <= 3
    ensures CkptEnabled(s, t)
    ensures CkptApply(s, t) ==
            if s.k.load == 2 then s.(k := Look(t, 3, s.k.todo, s.k.suspended, s.k.rescan))
            else s.(k := Pass(s.k.todo, s.k.suspended + 1, s.k.rescan), counted := s.counted + {t})
  {}

  // ----- exiting threads are awaited -----

  /** Within the only turn of wait_for_exiting_threads: those that are exiting are gone already. */
  predicate Awaiting(s: State, todo: set<Tid>) {
    && s.k.WaitPass? && s.k.todo == todo && s.k.exiting == s.k.killed && s.slipped == {} && s.deserters == {}
    && (forall t | t in LiveThreads(s) :: s.threads[t].state.Suspended? && s.threads[t].h == AtBarrier(false))
    && (forall t | t in Listed(s) && s.threads[t].gone :: s.threads[t].exiting)
    && todo <= Listed(s)
  }

  lemma {:induction false} AwaitAll(r: State -> bool, s: State, todo: set<Tid>) returns (s': State)
    requires Closed(r) && r(s) && Inv(s) && Awaiting(s, todo)
    ensures r(s') && Inv(s') && SameProgram(s, s') && Awaiting(s', {})
    decreases |todo|
  {
    s' := s;
    if t :| t in todo {
      assert t in Listed(s) && LocalOK(s, t);
      s' := CkptGo(r, s, t);
      WaitTurn(s, todo, t);
      s' := AwaitAll(r, s', todo - {t});
    }
  }

  lemma WaitTurn(s: State, todo: set<Tid>, t: Tid)
    requires Awaiting(s, todo) && t in todo && CkptEnabled(s, t) && LocalOK(s, t)
    ensures SameProgram(s, CkptApply(s, t)) && Awaiting(CkptApply(s, t), todo - {t})
  {
    var s' := CkptApply(s, t);
    assert t in Listed(s);
    if s.threads[t].exiting {
      assert s.threads[t].gone by { assert t in LiveThreads(s) || s.threads[t].gone; }
      assert Listed(s') == Listed(s) - {t};
    } else {
      assert t in LiveThreads(s);
      assert Listed(s') == Listed(s);
    }
  }

  // ----- everybody arrives -----

  /** The threads of `todo` still have to arrive at the barrier; `r` is set during a restart. */
  predicate Filling(s: State, todo: set<Tid>, r: bool) {
    && s.k == Fill(r) && s.slipped == {} && s.xs.XCkptInProg? && todo <= LiveThreads(s)
    && (r || s.deserters == {})
    && forall t | t in LiveThreads(s) ::
         if t in todo then s.threads[t].h == AtBarrier(r) else s.threads[t].h == Arrived(r) && t in s.arrivedSet
  }

  lemma {:induction false} ArriveAll(r: State -> bool, s: State, todo: set<Tid>, restart: bool) returns (s': State)
    requires Closed(r) && r(s) && Inv(s) && Filling(s, todo, restart)
    ensures r(s') && Inv(s') && SameProgram(s, s') && Filling(s', {}, restart)
    ensures LiveThreads(s') == LiveThreads(s) && SameStates(s, s')
    decreases |todo|
  {
    s' := s;
    if t :| t in todo {
      s' := ArriveGo(r, s, t, restart);
      Arrives(s, s', todo, restart, t);
      s' := ArriveAll(r, s', todo - {t}, restart);
    }
  }

  lemma ArriveGo(r: State -> bool, s: State, t: Tid, restart: bool) returns (s': State)
    requires Closed(r) && r(s) && Inv(s) && s.k == Fill(restart) && s.xs.XCkptInProg? && t in LiveThreads(s)
    requires s.threads[t].h == AtBarrier(restart)
    ensures r(s') && Inv(s')
    ensures s' == s.(threads := s.threads[t := s.threads[t].(h := Arrived(restart))],
                     arrived := s.arrived + 1, arrivedSet := s.arrivedSet + {t})
  {
    s' := HandlerGo(r, s, Arrive(t));
  }

  lemma Arrives(s: State, s': State, todo: set<Tid>, r: bool, t: Tid)
    requires Filling(s, todo, r) && t in todo
    requires s' == s.(threads := s.threads[t := s.threads[t].(h := Arrived(r))],
                      arrived := s.arrived + 1, arrivedSet := s.arrivedSet + {t})
    ensures SameProgram(s, s') && Filling(s', todo - {t}, r) && LiveThreads(s') == LiveThreads(s) && SameStates(s, s')
  {
    Moved(s, s', t);
  }

  predicate SameStates(s: State, s': State) {
    s'.threads.Keys == s.threads.Keys && forall t | t in s.threads :: s'.threads[t].state == s.threads[t].state
  }

  /** All have arrived, so the checkpoint thread goes on. */
  lemma AllHaveArrived(s: State, r: bool)
    requires Inv(s) && Filling(s, {}, r) && s.counted <= LiveThreads(s)
    ensures CkptEnabled(s, 0)
  {
    assert s.counted <= s.arrivedSet;
    SubsetSize(s.counted, s.arrivedSet);
  }

  // ----- everybody leaves -----

  /** The barrier is open; the threads of `todo` still have to go back to the program. */
  predicate Releasing(s: State, todo: set<Tid>, r: bool) {
    && s.k.Idle? && s.xs.XRunning? && todo <= LiveThreads(s)
    && forall t | t in LiveThreads(s) ::
         if t in todo then
           s.threads[t].h == Arrived(r) && (if r then s.threads[t].state.Running? else s.threads[t].state.Suspended?)
         else Free(s.threads[t])
  }

  lemma {:induction false} ReleaseAll(r: State -> bool, s: State, todo: set<Tid>, restart: bool) returns (s': State)
    requires Closed(r) && r(s) && Inv(s) && Releasing(s, todo, restart)
    ensures r(s') && Inv(s') && SameProgram(s, s') && Releasing(s', {}, restart)
    decreases |todo|
  {
    s' := s;
    if t :| t in todo {
      s' := ReleaseOne(r, s, t, restart);
      Moved(s, s', t);
      assert Releasing(s', todo - {t}, restart);
      s' := ReleaseAll(r, s', todo - {t}, restart);
    }
  }

  lemma ReleaseOne(r: State -> bool, s: State, t: Tid, restart: bool) returns (s': State)
    requires Closed(r) && r(s) && Inv(s) && s.k.Idle? && s.xs.XRunning? && t in LiveThreads(s)
    requires s.threads[t].h == Arrived(restart)
    requires if restart then s.threads[t].state.Running? else s.threads[t].state.Suspended?
    ensures r(s') && Inv(s') && s' == s.(threads := s'.threads, deserters := s'.deserters)
    ensures s'.threads == s.threads[t := s.threads[t].(state := Running, h := NoHandler)] && Free(s'.threads[t])
  {
    assert LocalOK(s, t);
    s' := HandlerGo(r, s, Leave(t));
    s' := HandlerGo(r, s', Back(t));
  }

  // ----- a whole checkpoint -----

  lemma AskAndBegin(r: State -> bool, s: State) returns (s': State)
    requires Closed(r) && r(s) && Inv(s) && s.k.Idle? && AllFree(s)
    ensures r(s') && Inv(s') && s'.k.Again? && s'.threads == s.threads && s'.mem == s.mem
  {
    s' := SyncGo(r, s, Request);
    s' := SyncGo(r, s', Ready);
    s' := SyncGo(r, s', Start);
    s' := CkptGo(r, s', 0);
    s' := CkptGo(r, s', 0);
  }

  lemma SignalPass(r: State -> bool, s: State) returns (s': State, rescan: bool)
    requires Closed(r) && r(s) && Inv(s) && s.k.Again? && AllFree(s)
    ensures r(s') && Inv(s') && SameProgram(s, s') && Signalling(s', {}, rescan)
  {
    s' := CkptGo(r, s, 0);
    AllListed(s');
    s', rescan := SignalAll(r, s', Listed(s'), false);
  }

  lemma CountPass(r: State -> bool, s: State) returns (s': State)
    requires Closed(r) && r(s) && Inv(s) && Handling(s, {})
    ensures r(s') && Inv(s') && SameProgram(s, s') && Counting(s', {})
  {
    s' := CkptGo(r, s, 0);
    AllListed(s');
    assert s'.threads == s.threads && Counting(s', Listed(s'));
    s' := CountAll(r, s', Listed(s'));
  }

  /** Both passes: in the end everybody is counted, and everybody is suspended. */
  lemma SuspendAll(r: State -> bool, s: State) returns (s': State)
    requires Closed(r) && r(s) && Inv(s) && s.k.Again? && AllFree(s)
    ensures r(s') && Inv(s') && SameProgram(s, s') && Counting(s', {})
  {
    var rescan;
    s', rescan := SignalPass(r, s);
    if rescan {
      s' := CkptGo(r, s', 0);
      s' := HandleAll(r, s', LiveThreads(s'));
      s' := CountPass(r, s');
    }
  }

  /** A free or suspended thread is on the list. */
  lemma AllListed(s: State)
    requires Inv(s)
    ensures forall t | t in LiveThreads(s) && !s.threads[t].pc.Starting? :: t in Listed(s)
  {
    forall t | t in LiveThreads(s) && !s.threads[t].pc.Starting?
      ensures t in Listed(s)
    {
      assert LocalOK(s, t);
    }
  }

  lemma AwaitAndOpen(r: State -> bool, s: State) returns (s': State)
    requires Closed(r) && r(s) && Inv(s) && Counting(s, {})
    ensures r(s') && Inv(s') && SameProgram(s, s') && Filling(s', LiveThreads(s'), false)
  {
    s' := SetAndWait(r, s);
    s' := AwaitAll(r, s', Listed(s'));
    s' := CkptGo(r, s', 0);
    s' := CkptGo(r, s', 0);
  }

  lemma SetAndWait(r: State -> bool, s: State) returns (s': State)
    requires Closed(r) && r(s) && Inv(s) && Counting(s, {})
    ensures r(s') && Inv(s') && SameProgram(s, s') && Awaiting(s', Listed(s'))
  {
    s' := CkptGo(r, s, 0);
    s' := CkptGo(r, s', 0);
    s' := CkptGo(r, s', 0);
    assert s'.threads == s.threads;
  }

  lemma FillAndFreeze(r: State -> bool, s: State) returns (s': State)
    requires Closed(r) && r(s) && Inv(s) && Filling(s, LiveThreads(s), false)
    ensures r(s') && Inv(s') && SameProgram(s, s') && s'.k.Frozen? && BarrierSafe(s')
  {
    s' := ArriveAll(r, s, LiveThreads(s), false);
    CountedLive(s');
    AllHaveArrived(s', false);
    s' := CkptGo(r, s', 0);
    FrozenIsSafe(s');
  }

  lemma CountedLive(s: State)
    requires Inv(s) && Filling(s, {}, false)
    ensures s.counted <= LiveThreads(s)
  {}

  lemma WriteAndRelease(r: State -> bool, s: State) returns (s': State)
    requires Closed(r) && r(s) && Inv(s) && s.k.Frozen? && BarrierSafe(s)
    ensures r(s') && SameProgram(s, s') && s'.k.Idle? && AllFree(s')
  {
    s' := WriteAndResume(r, s);
    StillSafe(s, s');
    s' := ReleaseAll(r, s', LiveThreads(s'), false);
  }

  lemma WriteAndResume(r: State -> bool, s: State) returns (s': State)
    requires Closed(r) && r(s) && Inv(s) && s.k.Frozen?
    ensures r(s') && Inv(s') && s' == s.(xs := XRunning, k := Idle)
  {
    s' := SyncGo(r, s, WriteImage);
    s' := SyncGo(r, s', SendDone);
    s' := SyncGo(r, s', Resume);
    s' := CkptGo(r, s', 0);
  }

  lemma StillSafe(s: State, s': State)
    requires BarrierSafe(s) && s' == s.(xs := XRunning, k := Idle)
    ensures SameProgram(s, s') && Releasing(s', LiveThreads(s'), false)
  {}

  /**
    From every state of a run in which all living threads run user code outside of unsafe
    sections, however many there are, steps of the process lead to a safe barrier and on to
    a state of the same kind, with the program where it was.
   */
  lemma CheckpointCompletes(r: State -> bool, s: State) returns (frozen: State, s': State)
    requires Closed(r) && r(s) && Inv(s) && s.k.Idle? && AllFree(s)
    ensures r(frozen) && frozen.k.Frozen? && BarrierSafe(frozen) && SameProgram(s, frozen)
    ensures r(s') && s'.k.Idle? && AllFree(s') && SameProgram(s, s')
  {
    s' := AskAndBegin(r, s);
    s' := SuspendAll(r, s');
    s' := AwaitAndOpen(r, s');
    s' := FillAndFreeze(r, s');
    frozen := s';
    s' := WriteAndRelease(r, frozen);
  }

  // ----- a whole restart -----

  /** Threads are being created; those of `todo` do not exist yet. */
  predicate Recreating(s: State, todo: set<Tid>) {
    && s.k == Restoring(todo) && s.slipped == {}
    && forall t | t in s.counted :: t in s.threads && s.threads[t].h.Recreated?
  }

  lemma {:induction false} RecreateAll(r: State -> bool, s: State, todo: set<Tid>) returns (s': State)
    requires Closed(r) && r(s) && Inv(s) && Recreating(s, todo)
    ensures r(s') && Inv(s') && SameProgram(s, s') && Recreating(s', {})
    decreases |todo|
  {
    s' := s;
    if t :| t in todo {
      RecreateTurn(s, todo, t);
      s' := CkptGo(r, s, t);
      s' := RecreateAll(r, s', todo - {t});
    }
  }

  lemma RecreateTurn(s: State, todo: set<Tid>, t: Tid)
    requires Inv(s) && Recreating(s, todo) && t in todo
    ensures CkptEnabled(s, t)
    ensures SameProgram(s, CkptApply(s, t)) && Recreating(CkptApply(s, t), todo - {t})
  {
    assert RestoringOK(s, todo);
    RecreateIs(s, todo, t);
  }

  lemma RecreateIs(s: State, todo: set<Tid>, t: Tid)
    requires Recreating(s, todo) && t in todo && t in s.threads
    ensures CkptEnabled(s, t) && CkptApply(s, t) == Recreate(s, t)
    ensures SameProgram(s, Recreate(s, t)) && Recreating(Recreate(s, t), todo - {t})
  {}

  /** All threads have been created; those of `todo` are still on their way to the barrier. */
  predicate Rejoining(s: State, todo: set<Tid>) {
    && s.k == Fill(true) && s.slipped == {} && s.xs.XCkptInProg?
    && todo <= LiveThreads(s) && s.counted <= LiveThreads(s)
    && forall t | t in LiveThreads(s) ::
         if t in todo then s.threads[t].h.Recreated?
         else s.threads[t].h == Arrived(true) && s.threads[t].state.Running? && t in s.arrivedSet
  }

  lemma {:induction false} RejoinAll(r: State -> bool, s: State, todo: set<Tid>) returns (s': State)
    requires Closed(r) && r(s) && Inv(s) && Rejoining(s, todo)
    ensures r(s') && Inv(s') && SameProgram(s, s') && Rejoining(s', {})
    decreases |todo|
  {
    s' := s;
    if t :| t in todo {
      s' := RejoinOne(r, s, t);
      Rejoins(s, s', todo, t);
      s' := RejoinAll(r, s', todo - {t});
    }
  }

  lemma RejoinOne(r: State -> bool, s: State, t: Tid) returns (s': State)
    requires Closed(r) && r(s) && Inv(s) && s.k == Fill(true) && s.xs.XCkptInProg? && t in LiveThreads(s)
    requires s.threads[t].h.Recreated?
    ensures r(s') && Inv(s')
    ensures s' == s.(threads := s.threads[t := s.threads[t].(state := Running, h := Arrived(true))],
                     arrived := s.arrived + 1, arrivedSet := s.arrivedSet + {t})
  {
    s' := RestartSelfGo(r, s, t);
    var th := s'.threads[t];
    s' := ArriveGo(r, s', t, true);
    UpdatedTwice(s.threads, t, th, th.(h := Arrived(true)));
  }

  lemma RestartSelfGo(r: State -> bool, s: State, t: Tid) returns (s': State)
    requires Closed(r) && r(s) && Inv(s) && !s.k.ResetArrived? && t in LiveThreads(s) && s.threads[t].h.Recreated?
    ensures r(s') && Inv(s')
    ensures s' == s.(threads := s.threads[t := s.threads[t].(state := Running, h := AtBarrier(true))])
  {
    s' := HandlerGo(r, s, RestartSelf(t));
  }

  lemma Rejoins(s: State, s': State, todo: set<Tid>, t: Tid)
    requires Rejoining(s, todo) && t in todo
    requires s' == s.(threads := s.threads[t := s.threads[t].(state := Running, h := Arrived(true))],
                      arrived := s.arrived + 1, arrivedSet := s.arrivedSet + {t})
    ensures SameProgram(s, s') && Rejoining(s', todo - {t})
  {
    Moved(s, s', t);
  }

  lemma ConnectAndRecreate(r: State -> bool, s: State) returns (s': State)
    requires Closed(r) && r(s) && Inv(s) && s.k.RestartConnect? && s.slipped == {}
    ensures r(s') && Inv(s') && SameProgram(s, s') && Recreating(s', {})
  {
    s' := SyncGo(r, s, RestartResume);
    s' := CkptGo(r, s', 0);
    s' := RecreateAll(r, s', Listed(s'));
  }

  lemma OpenRestart(r: State -> bool, s: State) returns (s': State)
    requires Closed(r) && r(s) && Inv(s) && Recreating(s, {})
    ensures r(s') && Inv(s') && SameProgram(s, s') && Rejoining(s', LiveThreads(s'))
  {
    forall t | t in s.counted
      ensures t in LiveThreads(s)
    {
      assert LocalOK(s, t);
    }
    s' := CkptGo(r, s, 0);
  }

  lemma ReleaseRestart(r: State -> bool, s: State) returns (s': State)
    requires Closed(r) && r(s) && Inv(s) && Rejoining(s, {})
    ensures r(s') && Inv(s') && SameProgram(s, s') && Releasing(s', LiveThreads(s'), true)
  {
    AllHaveRejoined(s);
    s' := CkptGo(r, s, 0);
    s' := CkptGo(r, s', 0);
  }

  lemma AllHaveRejoined(s: State)
    requires Inv(s) && Rejoining(s, {})
    ensures CkptEnabled(s, 0)
  {
    assert s.counted <= s.arrivedSet;
    SubsetSize(s.counted, s.arrivedSet);
  }

  /**
    From the jump into an image that was written at a safe barrier, steps of the process
    lead to a state in which every thread of the image runs user code again where it was.
   */
  lemma RestartCompletes(r: State -> bool, image: State) returns (s': State)
    requires Closed(r) && r(RestartOf(image)) && Inv(image) && FrozenPhase(image.k) && image.slipped == {}
    ensures r(s') && s'.k.Idle? && AllFree(s') && SameProgram(image, s')
    ensures LiveThreads(s') == LiveThreads(image) == Listed(image)
  {
    ImageIsReady(image);
    s' := ConnectAndRecreate(r, RestartOf(image));
    s' := OpenRestart(r, s');
    s' := RejoinAll(r, s', LiveThreads(s'));
    s' := ReleaseRestart(r, s');
    s' := ReleaseAll(r, s', LiveThreads(s'), true);
    SameLive(image, s');
  }

  lemma ImageIsReady(image: State)
    requires Inv(image) && FrozenPhase(image.k) && image.slipped == {}
    ensures BarrierSafe(image) && Inv(RestartOf(image)) && SameProgram(image, RestartOf(image))
    ensures RestartOf(image).k.RestartConnect? && RestartOf(image).slipped == {}
  {
    FrozenIsSafe(image);
    RestartIsSame(image);
    RestartInv(image);
  }

  lemma RestartIsSame(image: State)
    requires BarrierSafe(image)
    ensures SameProgram(image, RestartOf(image)) && Contained(image)
  {
    forall t | t in image.threads && !image.threads[t].gone && image.threads[t].listed
      ensures image.threads[t].uctx == image.threads[t].regs
    {
      assert t in Listed(image);
    }
  }

  lemma SameLive(s: State, s': State)
    requires SameProgram(s, s') && Inv(s) && FrozenPhase(s.k) && BarrierSafe(s) && s'.k.Idle? && Inv(s')
    ensures LiveThreads(s') == LiveThreads(s)
  {
    forall t | t in s'.threads
      ensures t in LiveThreads(s') <==> t in LiveThreads(s)
    {
      assert LocalOK(s', t) && LocalOK(s, t);
    }
  }
}
