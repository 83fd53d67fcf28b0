/**
  What a program notices of checkpoints and restarts, over whole runs: its memory, the
  continuations of its threads and its unsafe sections are what its own steps make of them.
 */
module ProgramTheorems {
  import opened ThreadSuspension
  import opened SuspensionInvariant
  import opened SuspensionTheorems

  /** One step of a run: an action, or the jump into an image of these threads. */
  datatype Step = Do(a: Action) | Restart(image: set<Tid>)

  /** The threads an image holds. */
  function Imaged(s: State): set<Tid> {
    set t | t in s.threads && s.threads[t].listed && !s.threads[t].gone
  }

  predicate Takes(s: State, st: Step, s': State) {
    match st
    case Do(a) => Acts(s, a, s')
    case Restart(image) => FrozenPhase(s.k) && Contained(s) && image == Imaged(s) && s' == RestartOf(s)
  }

  /** A run together with the steps that were taken. */
  ghost predicate IsHistory(run: seq<State>, steps: seq<Step>) {
    && |run| == |steps| + 1 && IsInit(run[0])
    && forall i :: 0 <= i < |steps| ==> Takes(run[i], steps[i], run[i + 1])
  }

  lemma TakenIsNext(s: State, st: Step, s': State)
    requires Takes(s, st, s')
    ensures Next(s, s')
  {
    if st.Do? { assert Acts(s, st.a, s'); }
  }

  lemma NextIsTaken(s: State, s': State) returns (st: Step)
    requires Next(s, s')
    ensures Takes(s, st, s')
  {
    if a: Action :| Acts(s, a, s') { st := Do(a); } else { st := Restart(Imaged(s)); }
  }

  /** What is proved of histories holds of all runs. */
  lemma {:induction false} EveryRunHasAHistory(run: seq<State>) returns (steps: seq<Step>)
    requires IsRun(run)
    ensures IsHistory(run, steps)
  {
    if |run| == 1 {
      steps := [];
    } else {
      var n := |run| - 1;
      ShorterRun(run);
      var before := EveryRunHasAHistory(run[..n]);
      assert StepAt(run, n - 1);
      var st := NextIsTaken(run[n - 1], run[n]);
      steps := before + [st];
      OneStepLonger(run, before, st);
    }
  }

  lemma ShorterRun(run: seq<State>)
    requires IsRun(run) && |run| > 1
    ensures IsRun(run[..|run| - 1])
  {
    var before := run[..|run| - 1];
    forall i | 0 <= i < |before| - 1
      ensures StepAt(before, i)
    {
      assert StepAt(run, i);
    }
  }

  lemma OneStepLonger(run: seq<State>, before: seq<Step>, st: Step)
    requires |run| > 1 && IsHistory(run[..|run| - 1], before) && Takes(run[|run| - 2], st, run[|run| - 1])
    ensures IsHistory(run, before + [st])
  {
    var steps, n := before + [st], |run| - 1;
    forall i | 0 <= i < |steps|
      ensures Takes(run[i], steps[i], run[i + 1])
    {
      if i < |before| {
        assert run[..n][i] == run[i] && run[..n][i + 1] == run[i + 1] && steps[i] == before[i];
      }
    }
  }

  lemma HistoryInv(run: seq<State>, steps: seq<Step>, i: nat)
    requires IsHistory(run, steps) && i < |run|
    ensures Inv(run[i])
  {
    forall l | 0 <= l < |run| - 1
      ensures StepAt(run, l)
    {
      assert Takes(run[l], steps[l], run[l + 1]);
      TakenIsNext(run[l], steps[l], run[l + 1]);
    }
    RunInv(run, i);
  }

  // ----- unsafe sections -----

  predicate IsEnter(st: Step, t: Tid) { st.Do? && (st.a.EnterCas? || st.a.EnterNested?) && st.a.t == t }

  predicate IsExit(st: Step, t: Tid) { st.Do? && (st.a.ExitCas? || st.a.ExitNested?) && st.a.t == t }

  function Enters(steps: seq<Step>, t: Tid): nat {
    if steps == [] then 0
    else Enters(steps[..|steps| - 1], t) + (if IsEnter(steps[|steps| - 1], t) then 1 else 0)
  }

  function Exits(steps: seq<Step>, t: Tid): nat {
    if steps == [] then 0
    else Exits(steps[..|steps| - 1], t) + (if IsExit(steps[|steps| - 1], t) then 1 else 0)
  }

  /** The thread of a forked child is inside the fork hook, which its parent entered. */
  function EnteredByParent(run: seq<State>, t: Tid): nat
    requires run != []
  {
    if t in run[0].threads && run[0].threads[t].pc.Wrap? then 1 else 0
  }

  /** The enters of `t` without an exit, by the first `i` steps. */
  function Unmatched(run: seq<State>, steps: seq<Step>, i: nat, t: Tid): int
    requires run != [] && i <= |steps|
  {
    EnteredByParent(run, t) + Enters(steps[..i], t) - Exits(steps[..i], t)
  }

  /** wrapper_depth once the thread is inside. */
  function Depth(s: State, t: Tid): nat {
    if t !in s.threads then 0
    else
      match s.threads[t].pc
      case Wrap(d) => d
      case Creating(d, _) => d
      case _ => 0
  }

  function Entered(st: Step, t: Tid): int { if IsEnter(st, t) then 1 else if IsExit(st, t) then -1 else 0 }

  lemma UserDepth(s: State, a: Action, t: Tid)
    requires Local(s) && IsUser(a) && UserEnabled(s, a)
    ensures Depth(UserApply(s, a), t) == Depth(s, t) + Entered(Do(a), t)
  {
    assert LocalOK(s, a.t);
  }

  predicate SamePcs(s: State, s': State) {
    s'.threads.Keys == s.threads.Keys && forall t | t in s.threads :: s'.threads[t].pc == s.threads[t].pc
  }

  lemma ScanKeepsPcs(s: State, t: Tid)
    requires (s.k.Look? || (s.k.Pass? && s.k.todo != {})) && CkptEnabled(s, t)
    ensures SamePcs(s, ScanStep(s, t))
  {}

  lemma CkptKeepsPcs(s: State, t: Tid)
    requires CkptEnabled(s, t)
    ensures SamePcs(s, CkptApply(s, t))
  {
    if s.k.Look? || (s.k.Pass? && s.k.todo != {}) { ScanKeepsPcs(s, t); }
  }

  lemma DepthStep(s: State, st: Step, s': State, t: Tid)
    requires Local(s) && Takes(s, st, s')
    ensures Depth(s', t) == Depth(s, t) + Entered(st, t)
  {
    match st {
      case Do(a) => if IsUser(a) { UserDepth(s, a, t); } else { OthersKeepPcs(s, a); }
      case Restart(_) => assert SamePcs(s, s');
    }
  }

  lemma OthersKeepPcs(s: State, a: Action)
    requires !IsUser(a) && Enabled(s, a)
    ensures SamePcs(s, Apply(s, a))
  {
    if IsHandler(a) { HandlerKeepsPcs(s, a); }
    else if a.Ckpt? { CkptKeepsPcs(s, a.t); }
  }

  lemma HandlerKeepsPcs(s: State, a: Action)
    requires IsHandler(a) && HandlerEnabled(s, a)
    ensures SamePcs(s, HandlerApply(s, a))
  {}

  lemma {:induction false} DepthIsUnmatched(run: seq<State>, steps: seq<Step>, i: nat, t: Tid)
    requires IsHistory(run, steps) && i < |run|
    ensures Depth(run[i], t) == Unmatched(run, steps, i, t)
  {
    if i == 0 {
      assert steps[..0] == [];
    } else {
      DepthIsUnmatched(run, steps, i - 1, t);
      HistoryInv(run, steps, i - 1);
      assert Takes(run[i - 1], steps[i - 1], run[i]);
      DepthStep(run[i - 1], steps[i - 1], run[i], t);
      assert steps[..i][..i - 1] == steps[..i - 1];
    }
  }

  /**
    Nested sections: in every run a thread is ST_UNSAFE exactly while it has entered more
    often than it has left, and it gets into the signal handler, and so into the barrier,
    only with every enter matched by an exit.
   */
  lemma UnsafeIffUnmatched(run: seq<State>, steps: seq<Step>, i: nat, t: Tid)
    requires IsHistory(run, steps) && i < |run| && t in run[i].threads
    ensures Unmatched(run, steps, i, t) >= 0
    ensures run[i].threads[t].state.Unsafe? <==> Unmatched(run, steps, i, t) > 0
    ensures run[i].threads[t].pc.User? || run[i].threads[t].pc.Exiting? || !run[i].threads[t].h.NoHandler? ==>
              Unmatched(run, steps, i, t) == 0
  {
    DepthIsUnmatched(run, steps, i, t);
    HistoryInv(run, steps, i);
    assert LocalOK(run[i], t);
  }

  /** At a safe barrier nobody is inside an unsafe section, however deeply they were nested. */
  lemma BarrierIsBalanced(run: seq<State>, steps: seq<Step>, i: nat)
    requires IsHistory(run, steps) && i < |run| && BarrierSafe(run[i])
    ensures forall t | t in LiveThreads(run[i]) :: Unmatched(run, steps, i, t) == 0
  {
    forall t | t in LiveThreads(run[i])
      ensures Unmatched(run, steps, i, t) == 0
    {
      UnsafeIffUnmatched(run, steps, i, t);
    }
  }

  // ----- exit, death and join -----

  ghost predicate JoinedBy(steps: seq<Step>, t: Tid) { exists u: Tid :: Do(Join(u, t)) in steps }

  /** The flags of a descriptor record what has happened to the thread. */
  ghost predicate LifeIs(s: State, steps: seq<Step>, t: Tid) {
    && (t in s.threads && s.threads[t].exiting <==> Do(Exit(t)) in steps)
    && (t in s.threads && s.threads[t].gone <==> Do(Die(t)) in steps)
    && (t in s.threads && s.threads[t].joined <==> JoinedBy(steps, t))
  }

  predicate SameFlags(s: State, s': State) {
    && s'.threads.Keys == s.threads.Keys
    && forall t | t in s.threads ::
         var th, th' := s.threads[t], s'.threads[t];
         th'.exiting == th.exiting && th'.gone == th.gone && th'.joined == th.joined
  }

  lemma UserLife(s: State, a: Action, t: Tid)
    requires IsUser(a) && UserEnabled(s, a)
    ensures var new' := Thread(Embryo, User, NoHandler, false, false, false, false, 0, 0);
            var th, s' := if t in s.threads then s.threads[t] else new', UserApply(s, a);
            if t !in s'.threads then t !in s.threads && a != Exit(t) && a != Die(t) && !(a.Join? && a.target == t)
            else
              && (s'.threads[t].exiting <==> th.exiting || a == Exit(t))
              && (s'.threads[t].gone <==> th.gone || a == Die(t))
              && (s'.threads[t].joined <==> th.joined || (a.Join? && a.target == t))
  {}

  lemma ScanKeepsFlags(s: State, t: Tid)
    requires (s.k.Look? || (s.k.Pass? && s.k.todo != {})) && CkptEnabled(s, t)
    ensures SameFlags(s, ScanStep(s, t))
  {}

  lemma CkptKeepsFlags(s: State, t: Tid)
    requires CkptEnabled(s, t)
    ensures SameFlags(s, CkptApply(s, t))
  {
    if s.k.Look? || (s.k.Pass? && s.k.todo != {}) { ScanKeepsFlags(s, t); }
  }

  lemma HandlerKeepsFlags(s: State, a: Action)
    requires IsHandler(a) && HandlerEnabled(s, a)
    ensures SameFlags(s, HandlerApply(s, a))
  {}

  lemma OthersKeepFlags(s: State, st: Step, s': State)
    requires Takes(s, st, s') && (st.Do? ==> !IsUser(st.a))
    ensures SameFlags(s, s')
  {
    if st.Do? {
      if IsHandler(st.a) { HandlerKeepsFlags(s, st.a); }
      else if st.a.Ckpt? { CkptKeepsFlags(s, st.a.t); }
    }
  }

  lemma LifeStep(s: State, steps: seq<Step>, st: Step, s': State, t: Tid)
    requires LifeIs(s, steps, t) && Takes(s, st, s')
    ensures LifeIs(s', steps + [st], t)
  {
    JoinsOneMore(steps, st, t);
    if st.Do? && IsUser(st.a) { UserLife(s, st.a, t); } else { OthersKeepFlags(s, st, s'); }
  }

  lemma JoinsOneMore(steps: seq<Step>, st: Step, t: Tid)
    ensures JoinedBy(steps + [st], t) <==> JoinedBy(steps, t) || (st.Do? && st.a.Join? && st.a.target == t)
  {
    if JoinedBy(steps, t) {
      var u: Tid :| Do(Join(u, t)) in steps;
      assert Do(Join(u, t)) in steps + [st];
    }
    if st.Do? && st.a.Join? && st.a.target == t { assert Do(Join(st.a.t, t)) in steps + [st]; }
  }

  /**
    In every run a descriptor says `exiting`, has lost its thread or says `joined` exactly if
    the thread has called thread_exit, has ended, or has been joined.
   */
  lemma {:induction false} LifeCycle(run: seq<State>, steps: seq<Step>, i: nat, t: Tid)
    requires IsHistory(run, steps) && i < |run|
    ensures LifeIs(run[i], steps[..i], t)
  {
    if i == 0 {
      assert steps[..0] == [];
    } else {
      LifeCycle(run, steps, i - 1, t);
      assert Takes(run[i - 1], steps[i - 1], run[i]);
      LifeStep(run[i - 1], steps[..i - 1], steps[i - 1], run[i], t);
      assert steps[..i] == steps[..i - 1] + [steps[i - 1]];
    }
  }

  // ----- memory and continuations -----

  /** What the program is, and the contexts that were saved of its threads. */
  datatype View = View(mem: int, regs: map<Tid, int>, saved: map<Tid, int>)

  function Continuations(s: State): map<Tid, int> { map t | t in s.threads :: s.threads[t].regs }

  function Contexts(s: State): map<Tid, int> { map t | t in s.threads :: s.threads[t].uctx }

  function ViewOf(s: State): View { View(s.mem, Continuations(s), Contexts(s)) }

  /** A computation, a new thread, a saved context and a restart; nothing else has an effect. */
  function Play(v: View, st: Step): View {
    match st
    case Do(Compute(t, regs, mem)) => v.(mem := mem, regs := v.regs[t := regs])
    case Do(Create(t, child)) =>
      if t !in v.regs then v
      else v.(regs := v.regs[child := v.regs[t]], saved := v.saved[child := v.regs[t]])
    case Do(SaveContext(t)) => if t !in v.regs then v else v.(saved := v.saved[t := v.regs[t]])
    case Restart(image) =>
      v.(regs := map t | t in v.regs :: if t in image && t in v.saved then v.saved[t] else v.regs[t])
    case _ => v
  }

  function Replay(v: View, steps: seq<Step>): View {
    if steps == [] then v else Play(Replay(v, steps[..|steps| - 1]), steps[|steps| - 1])
  }

  /** Neither the memory nor a continuation nor a saved context changes. */
  predicate SameView(s: State, s': State) {
    && s'.mem == s.mem && s'.threads.Keys == s.threads.Keys
    && forall t | t in s.threads ::
         s'.threads[t].regs == s.threads[t].regs && s'.threads[t].uctx == s.threads[t].uctx
  }

  lemma SameViews(s: State, s': State)
    requires SameView(s, s')
    ensures ViewOf(s') == ViewOf(s)
  {
    assert Continuations(s') == Continuations(s) && Contexts(s') == Contexts(s);
  }

  lemma ComputePlays(s: State, a: Action)
    requires a.Compute? && UserEnabled(s, a)
    ensures ViewOf(UserApply(s, a)) == Play(ViewOf(s), Do(a))
  {}

  lemma CreatePlays(s: State, a: Action)
    requires a.Create? && UserEnabled(s, a)
    ensures ViewOf(UserApply(s, a)) == Play(ViewOf(s), Do(a))
  {
    CreateContinues(s, UserApply(s, a), a.t, a.child);
  }

  /** A new thread begins with the continuation of its creator, everybody else keeps theirs. */
  lemma CreateContinues(s: State, s': State, t: Tid, child: Tid)
    requires t in s.threads && s'.threads.Keys == s.threads.Keys + {child}
    requires forall u | u in s.threads && u != child ::
               s'.threads[u].regs == s.threads[u].regs && s'.threads[u].uctx == s.threads[u].uctx
    requires s'.threads[child].regs == s'.threads[child].uctx == s.threads[t].regs
    ensures Continuations(s') == Continuations(s)[child := s.threads[t].regs]
    ensures Contexts(s') == Contexts(s)[child := s.threads[t].regs]
  {}

  lemma OtherUserSteps(s: State, a: Action)
    requires IsUser(a) && !a.Compute? && !a.Create? && UserEnabled(s, a)
    ensures SameView(s, UserApply(s, a))
  {}

  lemma UserPlays(s: State, a: Action)
    requires IsUser(a) && UserEnabled(s, a)
    ensures ViewOf(UserApply(s, a)) == Play(ViewOf(s), Do(a))
  {
    if a.Compute? {
      ComputePlays(s, a);
    } else if a.Create? {
      CreatePlays(s, a);
    } else {
      OtherUserSteps(s, a);
      SameViews(s, UserApply(s, a));
    }
  }

  lemma SavePlays(s: State, a: Action)
    requires a.SaveContext? && HandlerEnabled(s, a)
    ensures ViewOf(HandlerApply(s, a)) == Play(ViewOf(s), Do(a))
  {}

  lemma ContextIsKept(s: State, a: Action)
    requires IsHandler(a) && !a.SaveContext? && HandlerEnabled(s, a) && LocalOK(s, a.t)
    ensures SameView(s, HandlerApply(s, a))
  {}

  lemma HandlerPlays(s: State, a: Action)
    requires IsHandler(a) && HandlerEnabled(s, a) && LocalOK(s, a.t)
    ensures ViewOf(HandlerApply(s, a)) == Play(ViewOf(s), Do(a))
  {
    if a.SaveContext? {
      SavePlays(s, a);
    } else {
      ContextIsKept(s, a);
      SameViews(s, HandlerApply(s, a));
    }
  }

  lemma ScanPlays(s: State, t: Tid)
    requires (s.k.Look? || (s.k.Pass? && s.k.todo != {})) && CkptEnabled(s, t)
    ensures SameView(s, ScanStep(s, t))
  {}

  lemma CkptPlays(s: State, t: Tid)
    requires CkptEnabled(s, t)
    ensures SameView(s, CkptApply(s, t))
  {
    if s.k.Look? || (s.k.Pass? && s.k.todo != {}) { ScanPlays(s, t); }
  }

  lemma RestartPlays(s: State)
    ensures ViewOf(RestartOf(s)) == Play(ViewOf(s), Restart(Imaged(s)))
  {}

  lemma StepPlays(s: State, st: Step, s': State)
    requires Local(s) && Takes(s, st, s')
    ensures ViewOf(s') == Play(ViewOf(s), st)
  {
    match st {
      case Do(a) =>
        if IsUser(a) { UserPlays(s, a); }
        else if IsHandler(a) { HandlerPlays(s, a); }
        else if a.Ckpt? { CkptPlays(s, a.t); SameViews(s, s'); }
        else { SameViews(s, s'); }
      case Restart(_) => RestartPlays(s);
    }
  }

  /**
    In every run, restarts included: memory, continuations and saved contexts are what the
    computations and creations of the program, the saving of contexts and the restarts make
    of them. In particular a thread comes back from the signal handler where it was.
   */
  lemma {:induction false} RunIsReplay(run: seq<State>, steps: seq<Step>, i: nat)
    requires IsHistory(run, steps) && i < |run|
    ensures ViewOf(run[i]) == Replay(ViewOf(run[0]), steps[..i])
  {
    if i == 0 {
      assert steps[..0] == [];
    } else {
      RunIsReplay(run, steps, i - 1);
      HistoryInv(run, steps, i - 1);
      assert Takes(run[i - 1], steps[i - 1], run[i]);
      StepPlays(run[i - 1], steps[i - 1], run[i]);
      assert steps[..i][..i - 1] == steps[..i - 1];
    }
  }

  // ----- transparency -----

  function ProgramOf(s: State): Program { Program(s.mem, Continuations(s)) }

  /** The program without checkpoints: only its own steps. */
  function Alone(p: Program, st: Step): Program {
    match st
    case Do(Compute(t, regs, mem)) => Program(mem, p.regs[t := regs])
    case Do(Create(t, child)) => if t in p.regs then p.(regs := p.regs[child := p.regs[t]]) else p
    case _ => p
  }

  function RunAlone(p: Program, steps: seq<Step>): Program {
    if steps == [] then p else Alone(RunAlone(p, steps[..|steps| - 1]), steps[|steps| - 1])
  }

  /** No context in an image of this state is out of date. */
  predicate Fresh(s: State) {
    forall t | t in Imaged(s) :: s.threads[t].uctx == s.threads[t].regs
  }

  lemma SafeIsFresh(s: State)
    requires BarrierSafe(s)
    ensures Fresh(s)
  {
    forall t | t in Imaged(s)
      ensures s.threads[t].uctx == s.threads[t].regs
    {
      assert t in Listed(s);
    }
  }

  /** A step with the checkpoint left out, unless it restarts from a stale context. */
  lemma StepAlone(s: State, st: Step, s': State)
    requires Local(s) && Takes(s, st, s')
    ensures ProgramOf(s') == Alone(ProgramOf(s), st) <==> (st.Restart? ==> Fresh(s))
  {
    StepPlays(s, st, s');
    if st.Restart? { RestartAlone(s); }
  }

  /** A restart leaves the program where it was exactly if no context was stale. */
  lemma RestartAlone(s: State)
    ensures ProgramOf(RestartOf(s)) == ProgramOf(s) <==> Fresh(s)
  {
    if Fresh(s) {
      assert Continuations(RestartOf(s)) == Continuations(s);
    } else {
      var t :| t in Imaged(s) && s.threads[t].uctx != s.threads[t].regs;
      assert Continuations(RestartOf(s))[t] != Continuations(s)[t];
    }
  }

  /**
    Checkpoints and restarts are transparent: with the steps of handlers and checkpoint
    threads and all restarts left out, the program is in the same state. The restarts have
    to be from images without a stale context; BarrierSafeIff says which these are.
   */
  lemma {:induction false} CheckpointsAreTransparent(run: seq<State>, steps: seq<Step>, i: nat)
    requires IsHistory(run, steps) && i < |run|
    requires forall j :: 0 <= j < i && steps[j].Restart? ==> Fresh(run[j])
    ensures ProgramOf(run[i]) == RunAlone(ProgramOf(run[0]), steps[..i])
  {
    if i == 0 {
      assert steps[..0] == [];
    } else {
      CheckpointsAreTransparent(run, steps, i - 1);
      HistoryInv(run, steps, i - 1);
      assert Takes(run[i - 1], steps[i - 1], run[i]);
      StepAlone(run[i - 1], steps[i - 1], run[i]);
      assert steps[..i][..i - 1] == steps[..i - 1];
    }
  }

  /** `t` enters the handler with step `i` and is in it until step `j`. */
  predicate IsVisit(run: seq<State>, steps: seq<Step>, t: Tid, i: nat, j: nat) {
    && |run| == |steps| + 1 && i < j < |steps| && t in run[i].threads && steps[i] == Do(Handle(t))
    && forall l :: i < l <= j ==> t in run[l].threads && !run[l].threads[t].h.NoHandler?
  }

  lemma StepInHandler(s: State, st: Step, s': State, t: Tid)
    requires Local(s) && Takes(s, st, s') && t in s.threads && (!s.threads[t].h.NoHandler? || st == Do(Handle(t)))
    requires st.Restart? ==> s.threads[t].uctx == s.threads[t].regs
    ensures t in s'.threads && s'.threads[t].regs == s.threads[t].regs
  {
    StepPlays(s, st, s');
    assert t in Continuations(s);
    assert t in Play(ViewOf(s), st).regs && Play(ViewOf(s), st).regs[t] == s.threads[t].regs;
  }

  /** A restart during the visit finds the context saved. */
  predicate SavedInTime(run: seq<State>, steps: seq<Step>, t: Tid, i: nat, j: nat) {
    && |run| == |steps| + 1 && j < |steps|
    && forall l :: i < l <= j && steps[l].Restart? && t in run[l].threads ==>
         run[l].threads[t].uctx == run[l].threads[t].regs
  }

  /**
    A visit to the handler ends where it began, whatever happens in between. Only a restart
    that finds the context not saved yet makes a difference.
   */
  lemma VisitsChangeNothing(run: seq<State>, steps: seq<Step>, t: Tid, i: nat, j: nat)
    requires IsHistory(run, steps) && IsVisit(run, steps, t, i, j) && SavedInTime(run, steps, t, i, j)
    ensures t in run[j + 1].threads && run[j + 1].threads[t].regs == run[i].threads[t].regs
  {
    forall l | i <= l <= j
      ensures ContinuesAt(run, t, l)
    {
      TakenInHandler(run, steps, t, l);
    }
    ContinuesThrough(run, t, i, j);
  }

  predicate ContinuesAt(run: seq<State>, t: Tid, l: int) {
    && 0 <= l < |run| - 1 && t in run[l].threads && t in run[l + 1].threads
    && run[l + 1].threads[t].regs == run[l].threads[t].regs
  }

  lemma {:induction false} ContinuesThrough(run: seq<State>, t: Tid, i: nat, j: nat)
    requires i <= j && forall l :: i <= l <= j ==> ContinuesAt(run, t, l)
    ensures ContinuesAt(run, t, i) && ContinuesAt(run, t, j) && run[j + 1].threads[t].regs == run[i].threads[t].regs
    decreases j
  {
    assert ContinuesAt(run, t, j) && ContinuesAt(run, t, i);
    if i < j { ContinuesThrough(run, t, i, j - 1); }
  }

  lemma TakenInHandler(run: seq<State>, steps: seq<Step>, t: Tid, l: nat)
    requires IsHistory(run, steps) && l < |steps| && t in run[l].threads
    requires !run[l].threads[t].h.NoHandler? || steps[l] == Do(Handle(t))
    requires steps[l].Restart? ==> run[l].threads[t].uctx == run[l].threads[t].regs
    ensures t in run[l + 1].threads && run[l + 1].threads[t].regs == run[l].threads[t].regs
  {
    HistoryInv(run, steps, l);
    assert Takes(run[l], steps[l], run[l + 1]);
    StepInHandler(run[l], steps[l], run[l + 1], t);
  }
}
