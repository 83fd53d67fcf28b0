/**
  A run of two threads in which one of them slips through the tests of the last pass, so
  that the barrier opens one thread too early and the image is written while the other
  thread has not saved its context yet. It shows that the hypothesis `slipped == {}` of
  BarrierSafety cannot be dropped.
 */
module SlipRun {
  import opened ThreadSuspension
  import opened SuspensionInvariant
  import opened SuspensionTheorems

  function Th(state: ThreadState, h: Handler, regs: int): Thread {
    Thread(state, User, h, false, false, false, true, regs, 0)
  }

  /** Two running threads; the second one has moved on since it was created. */
  function TwoThreads(): State {
    State(map[0 := Th(Running, NoHandler, 0), 1 := Th(Running, NoHandler, 7)],
          0, XRunning, 0, 0, Idle, {}, {}, {}, {})
  }

  /** Both have been signalled; only the first one has saved its context. */
  function BothSignalled(): State {
    State(map[0 := Th(SuspInProg, Saved, 0), 1 := Th(SuspInProg, Saving, 7)],
          0, XSuspInProg, 0, 0, Again, {}, {}, {}, {})
  }

  /** The first thread became ST_SUSPENDED between the two loads of line 702 and 703. */
  function Slipped(): State {
    State(map[0 := Th(Suspended, AtBarrier(false), 0), 1 := Th(SuspInProg, Saving, 7)],
          0, XSuspInProg, 0, 0, Pass({}, 1, false), {1}, {}, {0}, {})
  }

  function TooEarly(): State {
    State(map[0 := Th(Suspended, Arrived(false), 0), 1 := Th(SuspInProg, Saving, 7)],
          0, XCkptInProg, 1, 1, Frozen, {1}, {0}, {0}, {})
  }

  function Last(run: seq<State>): State
    requires |run| > 0
  {
    run[|run| - 1]
  }

  ghost predicate EndsIn(run: seq<State>, s: State) {
    IsRun(run) && LeftBeforeScan(run) && Last(run) == s
  }

  /** Some run of the process, with no straggler at any scan, ends in `s`. */
  ghost predicate Reachable(s: State) { exists run :: EndsIn(run, s) }

  lemma ReachableStep(s: State, a: Action)
    requires Reachable(s) && Enabled(s, a)
    requires Apply(s, a).k.ResetArrived? ==> NoStragglers(Apply(s, a))
    ensures Reachable(Apply(s, a))
  {
    var s' := Apply(s, a);
    var run :| EndsIn(run, s);
    var run' := run + [s'];
    assert Acts(s, a, s');
    forall i | 0 <= i < |run'| - 1
      ensures StepAt(run', i)
    {
      if i < |run| - 1 { assert StepAt(run, i); }
    }
    assert EndsIn(run', s');
  }

  /** A set of states that the steps of a run without stragglers do not leave. */
  ghost predicate Closed(r: State -> bool) {
    forall s, a ::
      r(s) && Enabled(s, a) && (Apply(s, a).k.ResetArrived? ==> NoStragglers(Apply(s, a))) ==> r(Apply(s, a))
  }

  lemma Go(r: State -> bool, s: State, a: Action) returns (s': State)
    requires Closed(r) && r(s) && Enabled(s, a)
    requires Apply(s, a).k.ResetArrived? ==> NoStragglers(Apply(s, a))
    ensures s' == Apply(s, a) && r(s')
  {
    s' := Apply(s, a);
  }

  lemma Prologue(r: State -> bool)
    requires Closed(r) && r(Init(0, 0))
    ensures r(TwoThreads())
  {
    var s := Init(0, 0);
    s := Go(r, s, EnterSpin(0));
    s := Go(r, s, EnterCas(0));
    s := Go(r, s, Create(0, 1));
    s := Go(r, s, AddSelf(1));
    Launched(r, s);
  }

  lemma Launched(r: State -> bool, s0: State)
    requires Closed(r) && r(s0)
    requires s0 == State(map[0 := Th(Unsafe, NoHandler, 0).(pc := Creating(1, 1)),
                             1 := Th(Embryo, NoHandler, 0).(pc := Added(0))],
                         0, XRunning, 0, 0, Idle, {}, {}, {}, {})
    ensures r(TwoThreads())
  {
    var s := s0;
    s := Go(r, s, Started(1));
    s := Go(r, s, CreateDone(0));
    s := Go(r, s, ExitCas(0));
    s := Go(r, s, Compute(1, 7, 0));
    assert s.threads == TwoThreads().threads;
  }

  /** Both threads have been signalled, neither has entered the handler. */
  function Signalling(k: KPc, first: Thread, second: Thread): State {
    State(map[0 := first, 1 := second], 0, XSuspInProg, 0, 0, k, {}, {}, {}, {})
  }

  lemma AskForCheckpoint(r: State -> bool)
    requires Closed(r) && r(TwoThreads())
    ensures r(TwoThreads().(xs := XPending, k := Begin))
  {
    var s := TwoThreads();
    s := Go(r, s, Request);
    s := Go(r, s, Ready);
    s := Go(r, s, Start);
  }

  lemma ScanBegins(r: State -> bool)
    requires Closed(r) && r(TwoThreads().(xs := XPending, k := Begin))
    ensures r(Signalling(Pass({0, 1}, 0, false), Th(Running, NoHandler, 0), Th(Running, NoHandler, 7)))
  {
    var s := TwoThreads().(xs := XPending, k := Begin);
    s := Go(r, s, Ckpt(0));
    s := Go(r, s, Ckpt(0));
    s := Go(r, s, Ckpt(0));
    assert s.k == Pass({0, 1}, 0, false) && s.threads == TwoThreads().threads;
  }

  lemma SignalBoth(r: State -> bool)
    requires Closed(r)
    requires r(Signalling(Pass({0, 1}, 0, false), Th(Running, NoHandler, 0), Th(Running, NoHandler, 7)))
    ensures r(Signalling(Pass({}, 0, true), Th(Signaled, NoHandler, 0), Th(Signaled, NoHandler, 7)))
  {
    var s := Signalling(Pass({0, 1}, 0, false), Th(Running, NoHandler, 0), Th(Running, NoHandler, 7));
    s := Go(r, s, Ckpt(0));
    assert s.k == Pass({1}, 0, true);
    assert s == Signalling(Pass({1}, 0, true), Th(Signaled, NoHandler, 0), Th(Running, NoHandler, 7));
    s := Go(r, s, Ckpt(1));
    assert s.k == Pass({}, 0, true);
    assert s.threads == map[0 := Th(Signaled, NoHandler, 0), 1 := Th(Signaled, NoHandler, 7)];
  }

  lemma FirstHandles(r: State -> bool)
    requires Closed(r) && r(Signalling(Pass({}, 0, true), Th(Signaled, NoHandler, 0), Th(Signaled, NoHandler, 7)))
    ensures r(Signalling(Again, Th(SuspInProg, Saving, 0), Th(Signaled, NoHandler, 7)))
  {
    var s := Signalling(Pass({}, 0, true), Th(Signaled, NoHandler, 0), Th(Signaled, NoHandler, 7));
    s := Go(r, s, Ckpt(0));
    s := Go(r, s, Handle(0));
    assert s.threads == map[0 := Th(SuspInProg, Saving, 0), 1 := Th(Signaled, NoHandler, 7)];
  }

  lemma BothHandle(r: State -> bool)
    requires Closed(r) && r(Signalling(Again, Th(SuspInProg, Saving, 0), Th(Signaled, NoHandler, 7)))
    ensures r(BothSignalled())
  {
    var s := Signalling(Again, Th(SuspInProg, Saving, 0), Th(Signaled, NoHandler, 7));
    s := Go(r, s, SaveContext(0));
    s := Go(r, s, Handle(1));
    assert s.threads == BothSignalled().threads;
  }

  /** The first thread is still ST_SUSPINPROG at the load that asks for ST_SUSPENDED ... */
  lemma LookAtFirst(r: State -> bool)
    requires Closed(r) && r(BothSignalled())
    ensures r(BothSignalled().(k := Look(0, 2, {1}, 0, false)))
  {
    var s := BothSignalled();
    s := Go(r, s, Ckpt(0));
    assert s.threads == BothSignalled().threads && s.k == Pass({0, 1}, 0, false);
    s := Go(r, s, Ckpt(0));
    assert s.k == Look(0, 2, {1}, 0, false);
  }

  lemma LookTwice(r: State -> bool)
    requires Closed(r) && r(BothSignalled().(k := Look(0, 2, {1}, 0, false)))
    ensures r(BothSignalled().(k := Look(0, 4, {1}, 0, false)))
  {
    var s := Go(r, BothSignalled().(k := Look(0, 2, {1}, 0, false)), Ckpt(0));
    s := Go(r, s, Ckpt(0));
  }

  /** ... and already ST_SUSPENDED at the load that asks for ST_SUSPINPROG. */
  lemma SlipFirst(r: State -> bool)
    requires Closed(r) && r(BothSignalled().(k := Look(0, 4, {1}, 0, false)))
    ensures r(Slipped().(k := Pass({1}, 0, false), counted := {}))
  {
    var s := BothSignalled().(k := Look(0, 4, {1}, 0, false));
    s := Go(r, s, MarkSuspended(0));
    assert s.threads == Slipped().threads;
    s := Go(r, s, Ckpt(0));
    s := Go(r, s, Ckpt(0));
    s := Go(r, s, Ckpt(0));
    assert s.slipped == {0};
  }

  lemma CountSecond(r: State -> bool)
    requires Closed(r) && r(Slipped().(k := Pass({1}, 0, false), counted := {}))
    ensures r(Slipped())
  {
    var s := Slipped().(k := Pass({1}, 0, false), counted := {});
    s := Go(r, s, Ckpt(1));
    assert s.k == Look(1, 2, {}, 0, false);
    CountLast(r);
  }

  lemma CountLast(r: State -> bool)
    requires Closed(r) && r(Slipped().(k := Look(1, 2, {}, 0, false), counted := {}))
    ensures r(Slipped())
  {
    var s := Slipped().(k := Look(1, 2, {}, 0, false), counted := {});
    s := Go(r, s, Ckpt(1));
    s := Go(r, s, Ckpt(1));
    s := Go(r, s, Ckpt(1));
    assert s.k == Pass({}, 1, false) && s.counted == {1};
  }

  lemma WaitForNobody(r: State -> bool)
    requires Closed(r) && r(Slipped())
    ensures r(Slipped().(expected := 1, k := WaitPass({0, 1}, 0, 0)))
  {
    var s := Slipped();
    s := Go(r, s, Ckpt(0));
    s := Go(r, s, Ckpt(0));
    s := Go(r, s, Ckpt(0));
    assert s.k == WaitPass({0, 1}, 0, 0);
  }

  lemma WaitEnds(r: State -> bool)
    requires Closed(r) && r(Slipped().(expected := 1, k := WaitPass({0, 1}, 0, 0)))
    ensures r(Slipped().(expected := 1, k := WaitPass({}, 0, 0)))
  {
    var s := Slipped().(expected := 1, k := WaitPass({0, 1}, 0, 0));
    s := Go(r, s, Ckpt(0));
    assert s.k == WaitPass({1}, 0, 0);
    s := Go(r, s, Ckpt(1));
    assert s.k == WaitLook(1, {}, 0, 0);
    s := Go(r, s, Ckpt(1));
  }

  lemma OpenTooEarly(r: State -> bool)
    requires Closed(r) && r(Slipped().(expected := 1, k := WaitPass({}, 0, 0)))
    ensures r(TooEarly())
  {
    var s := Slipped().(expected := 1, k := WaitPass({}, 0, 0));
    s := Go(r, s, Ckpt(0));
    s := Go(r, s, Ckpt(0));
    s := Go(r, s, Arrive(0));
    s := Go(r, s, Ckpt(0));
    assert s.threads == TooEarly().threads && s.arrivedSet == TooEarly().arrivedSet;
    assert s == TooEarly();
  }

  /**
    In this run the last pass counts one thread where two are suspended, and the image is
    written with a stale context although nobody was left behind.
   */
  lemma SlipMakesTheImageStale()
    ensures Reachable(Slipped()) && Slipped().k.suspended == 1 && |SuspendedThreads(Slipped())| == 2
    ensures Reachable(TooEarly()) && FrozenPhase(TooEarly().k)
    ensures 1 in LiveThreads(TooEarly()) && TooEarly().threads[1].uctx != TooEarly().threads[1].regs
  {
    var r := s => Reachable(s);
    ReachableClosed(r);
    TheRun(r);
    assert SuspendedThreads(Slipped()) == {0, 1};
  }

  lemma TheRun(r: State -> bool)
    requires Closed(r) && r(Init(0, 0))
    ensures r(Slipped()) && r(TooEarly())
  {
    Prologue(r);
    AskForCheckpoint(r);
    ScanBegins(r);
    SignalBoth(r);
    FirstHandles(r);
    BothHandle(r);
    LookAtFirst(r);
    LookTwice(r);
    SlipFirst(r);
    CountSecond(r);
    WaitForNobody(r);
    WaitEnds(r);
    OpenTooEarly(r);
  }

  lemma ReachableClosed(r: State -> bool)
    requires forall s :: r(s) == Reachable(s)
    ensures Closed(r) && r(Init(0, 0))
  {
    assert IsInit(Init(0, 0)) && EndsIn([Init(0, 0)], Init(0, 0));
    forall s, a | r(s) && Enabled(s, a) && (Apply(s, a).k.ResetArrived? ==> NoStragglers(Apply(s, a)))
      ensures r(Apply(s, a))
    {
      ReachableStep(s, a);
    }
  }
}
