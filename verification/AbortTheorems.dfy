/**
  When the assertion of wait_for_exiting_threads (xnd/thread_info.c:753-757) fails. It
  loads the state of a thread twice, like the scan before it, so it can fail although no
  thread is where it should not be.
 */
module AbortTheorems {
  import opened ThreadSuspension
  import opened SuspensionInvariant
  import opened SuspensionTheorems
  import opened SlipRun

  // ----- who is examined -----

  /** While the list is examined, who is on it was counted or is exiting, unless somebody slipped. */
  predicate Examined(s: State) {
    WaitPhase(s.k) ==>
      && (s.slipped == {} && s.deserters == {} ==>
            forall t | t in Listed(s) :: t in s.counted || s.threads[t].exiting)
      && (s.k.WaitPass? || s.k.WaitLook? ==> s.k.todo <= Listed(s))
      && (s.k.WaitLook? && s.slipped == {} && s.deserters == {} ==> s.k.t in s.counted)
  }

  /** Without a slip nobody is outside the handler who could list a new thread. */
  lemma ExaminedUser(s: State, a: Action)
    requires Inv(s) && Examined(s) && WaitPhase(s.k) && IsUser(a) && UserEnabled(s, a)
    ensures Examined(UserApply(s, a))
  {
    UserStepFrame(s, a);
    assert LocalOK(s, a.t);
    ExaminedFrame(s, UserApply(s, a), a.t);
  }

  lemma ExaminedFrame(s: State, s': State, t: Tid)
    requires WaitPhase(s.k) && WaitOK(s) && Examined(s) && UserFrame(s, s', t) && LocalOK(s, t)
    ensures Examined(s')
  {
    forall u | u in Listed(s)
      ensures u in Listed(s')
    {}
    if s.slipped == {} && s.deserters == {} {
      assert s.threads[t].exiting;
      assert Listed(s') == Listed(s);
    }
  }

  lemma ExaminedHandler(s: State, a: Action)
    requires Examined(s) && WaitPhase(s.k) && IsHandler(a) && HandlerEnabled(s, a)
    ensures Examined(HandlerApply(s, a))
  {
    var s' := HandlerApply(s, a);
    assert Listed(s') == Listed(s);
  }

  lemma ExaminedCkpt(s: State, a: Action)
    requires WaitPhase(s.k) && WaitOK(s) && Local(s) && Examined(s) && a.Ckpt? && CkptEnabled(s, a.t)
    ensures Examined(CkptApply(s, a.t))
  {
    if s.k.WaitPass? && s.k.todo != {} { ExaminedPass(s, a.t); }
    else {
      assert Listed(CkptApply(s, a.t)) == Listed(s);
    }
  }

  lemma ExaminedPass(s: State, t: Tid)
    requires s.k.WaitPass? && s.k.todo != {} && CkptEnabled(s, t) && LocalOK(s, t) && Examined(s)
    ensures Examined(WaitStep(s, t))
  {
    var s' := WaitStep(s, t);
    assert Listed(s') == Listed(s) || Listed(s') == Listed(s) - {t};
  }

  lemma ExaminedAtFirst(s: State)
    requires s.k.Pass? && s.k.todo == {} && !s.k.rescan && ScanOK(s, {}, s.k.suspended, false, {})
    ensures Examined(s.(k := SetExpected(s.k.suspended)))
  {
    assert Listed(s.(k := SetExpected(s.k.suspended))) == Listed(s);
  }

  lemma ExaminedStep(s: State, a: Action)
    requires Inv(s) && Examined(s) && Enabled(s, a)
    ensures Examined(Apply(s, a))
  {
    if WaitPhase(s.k) {
      if IsUser(a) { ExaminedUser(s, a); }
      else if IsHandler(a) { ExaminedHandler(s, a); }
      else if a.Ckpt? { ExaminedCkpt(s, a); }
    } else {
      ExaminedBefore(s, a);
    }
  }

  lemma ExaminedBefore(s: State, a: Action)
    requires Inv(s) && !WaitPhase(s.k) && Enabled(s, a)
    ensures Examined(Apply(s, a))
  {
    if WaitPhase(Apply(s, a).k) {
      WaitBegins(s, a);
      ExaminedAtFirst(s);
    }
  }

  /** The wait begins at the end of the last pass. */
  lemma WaitBegins(s: State, a: Action)
    requires !WaitPhase(s.k) && Enabled(s, a) && WaitPhase(Apply(s, a).k)
    ensures s.k.Pass? && s.k.todo == {} && !s.k.rescan && Apply(s, a) == s.(k := SetExpected(s.k.suspended))
  {
    if ScanPhase(s.k) && (s.k.Pass? ==> s.k.todo != {}) && a.Ckpt? { ScanStays(s, a.t); }
  }

  lemma ScanStays(s: State, t: Tid)
    requires ScanPhase(s.k) && (s.k.Pass? ==> s.k.todo != {}) && CkptEnabled(s, t)
    ensures ScanPhase(ScanStep(s, t).k)
  {}

  lemma {:induction false} RunExamined(run: seq<State>, i: nat)
    requires IsRun(run) && i < |run|
    ensures Examined(run[i])
  {
    if i > 0 {
      RunExamined(run, i - 1);
      RunInv(run, i - 1);
      assert StepAt(run, i - 1);
      ExaminedNext(run[i - 1], run[i]);
    }
  }

  lemma ExaminedNext(s: State, s': State)
    requires Inv(s) && Examined(s) && Next(s, s')
    ensures Examined(s')
  {
    if a: Action :| Acts(s, a, s') { ExaminedStep(s, a); }
  }

  // ----- when it fails -----

  predicate RunsOutside(s: State, t: Tid) { t in s.threads && s.threads[t].h.NoHandler? }

  predicate IsSuspended(s: State, t: Tid) { t in s.threads && s.threads[t].state.Suspended? }

  /** The load of the state at `j` found it not ST_SUSPENDED; `i` is about to make the second load. */
  ghost predicate FirstLoad(run: seq<State>, j: int, i: int, t: Tid)
    requires 0 <= i < |run|
  {
    && 0 <= j < i && run[j].k.WaitPass? && Acts(run[j], Ckpt(t), run[j + 1])
    && forall l :: j < l <= i ==> run[l].k == run[i].k
  }

  ghost predicate MarkedAt(run: seq<State>, l: int, t: Tid) {
    0 <= l < |run| - 1 && Marked(run[l], t, run[l + 1])
  }

  predicate Marked(s: State, t: Tid, s': State) { Acts(s, MarkSuspended(t), s') }

  /** The thread became ST_SUSPENDED between the two loads. */
  ghost predicate MarkedBetween(run: seq<State>, i: int, t: Tid)
    requires 0 <= i < |run|
  {
    exists j, l :: FirstLoad(run, j, i, t) && MarkedAt(run, l, t) && j < l < i
  }

  lemma LookBegins(s: State, s': State)
    requires Next(s, s') && s'.k.WaitLook? && s.k != s'.k
    ensures s.k.WaitPass? && Acts(s, Ckpt(s'.k.t), s')
    ensures s'.k.t in s'.threads && s'.threads == s.threads && !IsSuspended(s, s'.k.t)
  {
    var a: Action :| Acts(s, a, s');
    LookStep(s, a);
  }

  lemma LookStep(s: State, a: Action)
    requires Enabled(s, a) && Apply(s, a).k.WaitLook? && s.k != Apply(s, a).k
    ensures s.k.WaitPass? && s.k.todo != {} && a == Ckpt(Apply(s, a).k.t)
    ensures a.t in s.threads && Apply(s, a).threads == s.threads && !IsSuspended(s, a.t)
  {
    assert a.Ckpt?;
    if ScanPhase(s.k) && (s.k.Pass? ==> s.k.todo != {}) { ScanStays(s, a.t); }
  }

  lemma {:induction false} FindFirstLoad(run: seq<State>, i: nat) returns (j: nat)
    requires IsRun(run) && i < |run| && run[i].k.WaitLook?
    ensures FirstLoad(run, j, i, run[i].k.t)
    ensures run[i].k.t in run[j + 1].threads && !IsSuspended(run[j + 1], run[i].k.t)
  {
    assert i > 0 && StepAt(run, i - 1);
    if run[i - 1].k == run[i].k {
      j := FindFirstLoad(run, i - 1);
    } else {
      j := i - 1;
      LookBegins(run[j], run[i]);
    }
  }

  lemma MarkStep(s: State, s': State, t: Tid)
    requires Next(s, s') && s.k.WaitLook? && s'.k.WaitLook? && t in s.threads
    ensures t in s'.threads
    ensures !IsSuspended(s, t) && IsSuspended(s', t) ==> Acts(s, MarkSuspended(t), s')
  {
    var a: Action :| Acts(s, a, s');
    MarkAction(s, a, t);
  }

  lemma MarkAction(s: State, a: Action, t: Tid)
    requires Enabled(s, a) && s.k.WaitLook? && Apply(s, a).k.WaitLook? && t in s.threads
    ensures t in Apply(s, a).threads
    ensures !IsSuspended(s, t) && IsSuspended(Apply(s, a), t) ==> a == MarkSuspended(t)
  {
    if IsUser(a) { UserMarksNobody(s, a, t); }
  }

  lemma UserMarksNobody(s: State, a: Action, t: Tid)
    requires IsUser(a) && UserEnabled(s, a) && t in s.threads
    ensures t in UserApply(s, a).threads && (IsSuspended(UserApply(s, a), t) ==> IsSuspended(s, t))
  {}

  lemma {:induction false} FindMark(run: seq<State>, j: nat, i: nat, t: Tid) returns (l: nat)
    requires IsRun(run) && j <= i < |run| && forall m :: j <= m <= i ==> run[m].k.WaitLook?
    requires t in run[j].threads && !IsSuspended(run[j], t) && IsSuspended(run[i], t)
    ensures j <= l < i && MarkedAt(run, l, t)
    decreases i - j
  {
    assert StepAt(run, j);
    MarkStep(run[j], run[j + 1], t);
    if IsSuspended(run[j + 1], t) { l := j; } else { l := FindMark(run, j + 1, i, t); }
  }

  /** With everybody out of the previous barrier no suspended thread goes back. */
  lemma StaysSuspended(s: State, s': State, t: Tid)
    requires Settled(s) && WaitPhase(s.k) && Next(s, s') && IsSuspended(s, t)
    requires t in s.threads ==> LocalOK(s, t)
    ensures IsSuspended(s', t)
  {
    if a: Action :| Acts(s, a, s') { SuspendedStep(s, a, t); }
  }

  lemma SuspendedStep(s: State, a: Action, t: Tid)
    requires Settled(s) && WaitPhase(s.k) && Enabled(s, a) && IsSuspended(s, t) && LocalOK(s, t)
    ensures IsSuspended(Apply(s, a), t)
  {
    if a.Ckpt? { CkptKeepsStates(s, a.t, t); }
    else if IsUser(a) { UserKeepsSuspended(s, a, t); }
  }

  lemma UserKeepsSuspended(s: State, a: Action, t: Tid)
    requires IsUser(a) && UserEnabled(s, a) && IsSuspended(s, t) && LocalOK(s, t) && !RestartPhase(s.k)
    ensures IsSuspended(UserApply(s, a), t)
  {}

  lemma CkptKeepsStates(s: State, u: Tid, t: Tid)
    requires WaitPhase(s.k) && CkptEnabled(s, u) && t in s.threads
    ensures t in CkptApply(s, u).threads && CkptApply(s, u).threads[t].state == s.threads[t].state
  {}

  lemma StaysSuspendedAt(run: seq<State>, i: nat, t: Tid)
    requires IsRun(run) && LeftBeforeScan(run) && i + 1 < |run| && WaitPhase(run[i].k) && IsSuspended(run[i], t)
    ensures IsSuspended(run[i + 1], t)
  {
    RunInv(run, i);
    RunSettled(run, i);
    assert StepAt(run, i);
    SuspendedNext(run[i], run[i + 1], t);
  }

  lemma SuspendedNext(s: State, s': State, t: Tid)
    requires Local(s) && Settled(s) && WaitPhase(s.k) && Next(s, s') && IsSuspended(s, t)
    ensures IsSuspended(s', t)
  {
    assert LocalOK(s, t);
    StaysSuspended(s, s', t);
  }

  lemma {:induction false} SuspendedSince(run: seq<State>, l: nat, i: nat, t: Tid)
    requires IsRun(run) && LeftBeforeScan(run) && l <= i < |run| && IsSuspended(run[l], t)
    requires forall m :: l <= m <= i ==> run[m].k.WaitLook?
    ensures IsSuspended(run[i], t)
  {
    if l < i {
      SuspendedSince(run, l, i - 1, t);
      StaysSuspendedAt(run, i - 1, t);
    }
  }

  /** At the second load a thread is outside the handler, ST_SUSPINPROG or ST_SUSPENDED. */
  lemma SecondLoad(s: State)
    requires Inv(s) && Settled(s) && Examined(s) && s.k.WaitLook?
    ensures s.k.t in s.threads
    ensures !RunsOutside(s, s.k.t) ==> s.threads[s.k.t].state.SuspInProg? || IsSuspended(s, s.k.t)
    ensures RunsOutside(s, s.k.t) ==> !s.threads[s.k.t].InSuspension() && s.slipped != {}
  {
    assert LocalOK(s, s.k.t);
  }

  lemma SecondLoadFails(s: State, s': State, t: Tid)
    requires s.k.WaitLook? && Acts(s, Ckpt(t), s')
    ensures s.k.t in s.threads && (s'.k.Aborted? <==> !s.threads[s.k.t].state.SuspInProg?)
  {}

  /**
    Exactly when the assertion fails: the thread runs outside the handler, and then somebody
    slipped through the last pass, or it became ST_SUSPENDED between the two loads.
   */
  lemma AbortIff(run: seq<State>, i: nat, t: Tid)
    requires IsRun(run) && LeftBeforeScan(run) && i + 1 < |run|
    requires run[i].k.WaitLook? && Acts(run[i], Ckpt(t), run[i + 1])
    ensures run[i + 1].k.Aborted? <==>
            RunsOutside(run[i], run[i].k.t) || MarkedBetween(run, i, run[i].k.t)
    ensures RunsOutside(run[i], run[i].k.t) ==> run[i].slipped != {}
  {
    var u := run[i].k.t;
    RunInv(run, i);
    RunSettled(run, i);
    RunExamined(run, i);
    SecondLoad(run[i]);
    SecondLoadFails(run[i], run[i + 1], t);
    SuspendedIffMarked(run, i);
  }

  lemma SuspendedIffMarked(run: seq<State>, i: nat)
    requires IsRun(run) && LeftBeforeScan(run) && i < |run| && run[i].k.WaitLook?
    ensures IsSuspended(run[i], run[i].k.t) <==> MarkedBetween(run, i, run[i].k.t)
  {
    if IsSuspended(run[i], run[i].k.t) { WasMarked(run, i); }
    if MarkedBetween(run, i, run[i].k.t) { MarkedIsSuspended(run, i); }
  }

  lemma WasMarked(run: seq<State>, i: nat)
    requires IsRun(run) && i < |run| && run[i].k.WaitLook? && IsSuspended(run[i], run[i].k.t)
    ensures MarkedBetween(run, i, run[i].k.t)
  {
    var j := FindFirstLoad(run, i);
    var l := FindMark(run, j + 1, i, run[i].k.t);
  }

  lemma MarkedIsSuspended(run: seq<State>, i: nat)
    requires IsRun(run) && LeftBeforeScan(run) && i < |run| && run[i].k.WaitLook?
    requires MarkedBetween(run, i, run[i].k.t)
    ensures IsSuspended(run[i], run[i].k.t)
  {
    var j, l :| FirstLoad(run, j, i, run[i].k.t) && MarkedAt(run, l, run[i].k.t) && j < l < i;
    SuspendedSinceMark(run, j, l, i, run[i].k.t);
  }

  lemma SuspendedSinceMark(run: seq<State>, j: int, l: nat, i: nat, t: Tid)
    requires IsRun(run) && LeftBeforeScan(run) && i < |run| && run[i].k.WaitLook?
    requires FirstLoad(run, j, i, t) && MarkedAt(run, l, t) && j < l < i
    ensures IsSuspended(run[i], t)
  {
    LooksSince(run, j, i, t);
    MarkMarks(run, l, t);
    SuspendedSince(run, l + 1, i, t);
  }

  lemma LooksSince(run: seq<State>, j: int, i: nat, t: Tid)
    requires i < |run| && run[i].k.WaitLook? && FirstLoad(run, j, i, t)
    ensures forall m :: j < m <= i ==> run[m].k.WaitLook?
  {}

  lemma MarkMarks(run: seq<State>, l: nat, t: Tid)
    requires MarkedAt(run, l, t)
    ensures IsSuspended(run[l + 1], t)
  {}

  // ----- when it can fail -----

  /** A thread on the list that is neither exiting nor joined nor ST_SUSPENDED. */
  predicate Restless(s: State, t: Tid) {
    t in Listed(s) && !s.threads[t].exiting && !s.threads[t].joined && !s.threads[t].state.Suspended?
  }

  predicate AllQuiet(s: State) { forall t | t in Listed(s) :: !Restless(s, t) }

  /** Steps of the process while the list is examined, from `s` on. */
  ghost predicate Continues(s: State, ext: seq<State>) {
    && ext != [] && ext[0] == s
    && forall i :: 0 <= i < |ext| - 1 ==> StepAt(ext, i) && WaitPhase(ext[i].k)
  }

  ghost predicate CanAbort(s: State) { exists ext: seq<State> :: Continues(s, ext) && ext[|ext| - 1].k.Aborted? }

  predicate Quiet(s: State) {
    && Local(s) && WaitPhase(s.k) && WaitOK(s) && Settled(s) && AllQuiet(s) && !s.k.WaitLook?
    && (s.k.WaitPass? ==> s.k.todo <= Listed(s))
  }

  lemma QuietUser(s: State, a: Action)
    requires Quiet(s) && IsUser(a) && UserEnabled(s, a)
    ensures AllQuiet(UserApply(s, a)) && Listed(s) <= Listed(UserApply(s, a))
  {
    UserStepFrame(s, a);
    if s.threads[a.t].pc.Starting? { var c := CreatorIsRestless(s, a.t); }
    QuietFrame(s, UserApply(s, a), a.t);
  }

  lemma CreatorIsRestless(s: State, t: Tid) returns (c: Tid)
    requires Local(s) && t in s.threads && s.threads[t].pc.Starting?
    ensures c in Listed(s) && Restless(s, c)
  {
    c := CreatorOf(s, t);
    assert LocalOK(s, c);
  }

  lemma QuietFrame(s: State, s': State, t: Tid)
    requires Local(s) && AllQuiet(s) && UserFrame(s, s', t) && !s.threads[t].pc.Starting?
    ensures AllQuiet(s') && Listed(s) <= Listed(s')
  {
    assert LocalOK(s, t);
    assert s.threads[t].exiting by { assert t in Listed(s) && !Restless(s, t); }
    forall u | u in Listed(s')
      ensures !Restless(s', u)
    {
      assert u in Listed(s) && !Restless(s, u) && LocalOK(s, u);
    }
  }

  lemma QuietHandler(s: State, a: Action)
    requires Quiet(s) && IsHandler(a) && HandlerEnabled(s, a)
    ensures AllQuiet(HandlerApply(s, a)) && Listed(HandlerApply(s, a)) == Listed(s)
  {
    assert LocalOK(s, a.t);
    forall u | u in Listed(HandlerApply(s, a))
      ensures !Restless(HandlerApply(s, a), u)
    {
      assert u in Listed(s) && !Restless(s, u);
    }
  }

  lemma QuietCkpt(s: State, a: Action)
    requires Quiet(s) && a.Ckpt? && CkptEnabled(s, a.t)
    ensures var s' := CkptApply(s, a.t);
            !s'.k.Aborted? && (WaitPhase(s'.k) ==>
              AllQuiet(s') && !s'.k.WaitLook? && (s'.k.WaitPass? ==> s'.k.todo <= Listed(s')))
  {
    var s' := CkptApply(s, a.t);
    if s.k.WaitPass? && s.k.todo != {} {
      assert a.t in Listed(s) && !Restless(s, a.t);
      assert Listed(s') == Listed(s) || Listed(s') == Listed(s) - {a.t};
    } else {
      assert Listed(s') == Listed(s);
    }
    forall u | u in Listed(s')
      ensures !Restless(s', u)
    {
      assert u in Listed(s) && !Restless(s, u);
    }
  }

  lemma QuietStep(s: State, a: Action)
    requires Quiet(s) && Enabled(s, a)
    ensures !Apply(s, a).k.Aborted?
    ensures WaitPhase(Apply(s, a).k) ==>
              AllQuiet(Apply(s, a)) && !Apply(s, a).k.WaitLook? &&
              (Apply(s, a).k.WaitPass? ==> Apply(s, a).k.todo <= Listed(Apply(s, a)))
  {
    if IsUser(a) { QuietUser(s, a); }
    else if IsHandler(a) { QuietHandler(s, a); }
    else if a.Ckpt? { QuietCkpt(s, a); }
  }

  lemma QuietNext(s: State, s': State)
    requires Inv(s) && Quiet(s) && Next(s, s')
    ensures Inv(s') && !s'.k.Aborted? && (WaitPhase(s'.k) ==> Quiet(s'))
  {
    NextInv(s, s');
    WaitFromInv(s');
    SettledNext(s, s');
    var a: Action :| Acts(s, a, s');
    QuietStep(s, a);
  }

  predicate QuietOrOver(s: State) { Inv(s) && !s.k.Aborted? && (WaitPhase(s.k) ==> Quiet(s)) }

  lemma QuietAfter(s: State, s': State)
    requires QuietOrOver(s) && WaitPhase(s.k) && Next(s, s')
    ensures QuietOrOver(s')
  {
    QuietNext(s, s');
  }

  ghost predicate QuietAt(ext: seq<State>, i: nat) { i < |ext| && QuietOrOver(ext[i]) }

  ghost predicate QuietThrough(ext: seq<State>, n: nat) { forall i: nat :: i <= n ==> QuietAt(ext, i) }

  lemma QuietOnce(ext: seq<State>, i: nat)
    requires i + 1 < |ext| && StepAt(ext, i) && WaitPhase(ext[i].k) && QuietThrough(ext, i)
    ensures QuietThrough(ext, i + 1)
  {
    assert QuietAt(ext, i);
    QuietAfter(ext[i], ext[i + 1]);
    assert QuietAt(ext, i + 1);
  }

  lemma {:induction false} StaysQuiet(s: State, ext: seq<State>, i: nat)
    requires QuietThrough(ext, 0) && Continues(s, ext) && i < |ext|
    ensures QuietThrough(ext, i)
  {
    if i > 0 {
      StaysQuiet(s, ext, i - 1);
      assert StepAt(ext, i - 1);
      QuietOnce(ext, i - 1);
    }
  }

  lemma QuietNeverAborts(s: State, ext: seq<State>)
    requires QuietOrOver(s) && Continues(s, ext)
    ensures !ext[|ext| - 1].k.Aborted?
  {
    assert QuietAt(ext, 0);
    StaysQuiet(s, ext, |ext| - 1);
    assert QuietAt(ext, |ext| - 1);
  }

  /** One step before a continuation. */
  lemma Before(s: State, a: Action, ext: seq<State>)
    requires WaitPhase(s.k) && Enabled(s, a) && Continues(Apply(s, a), ext) && ext[|ext| - 1].k.Aborted?
    ensures Continues(s, [s] + ext) && ([s] + ext)[|ext|].k.Aborted?
  {
    assert Acts(s, a, ext[0]);
    Prepend(s, ext);
  }

  lemma Prepend(s: State, ext: seq<State>)
    requires WaitPhase(s.k) && ext != [] && Next(s, ext[0]) && Continues(ext[0], ext)
    ensures Continues(s, [s] + ext)
  {
    forall i | 0 <= i < |[s] + ext| - 1
      ensures StepAt([s] + ext, i) && WaitPhase(([s] + ext)[i].k)
    {
      if i >= 1 { assert StepAt(ext, i - 1); }
    }
  }

  lemma AbortLater(s: State, a: Action)
    requires WaitPhase(s.k) && Enabled(s, a) && CanAbort(Apply(s, a))
    ensures CanAbort(s)
  {
    var ext: seq<State> :| Continues(Apply(s, a), ext) && ext[|ext| - 1].k.Aborted?;
    Before(s, a, ext);
  }

  lemma AbortsNow(s: State)
    requires s.k.WaitLook? && s.k.t in s.threads && !s.threads[s.k.t].state.SuspInProg?
    ensures CanAbort(s)
  {
    var s' := Apply(s, Ckpt(s.k.t));
    assert Continues(s', [s']);
    Before(s, Ckpt(s.k.t), [s']);
  }

  /** Both loads of a thread that is saving its context; it is marked between them. */
  lemma SavingAborts(s: State)
    requires s.k.WaitLook? && s.k.t in s.threads && s.threads[s.k.t].Live() && s.threads[s.k.t].h.Saving?
    ensures CanAbort(s)
  {
    SavedAborts(Apply(s, SaveContext(s.k.t)));
    AbortLater(s, SaveContext(s.k.t));
  }

  lemma SavedAborts(s: State)
    requires s.k.WaitLook? && s.k.t in s.threads && s.threads[s.k.t].Live() && s.threads[s.k.t].h.Saved?
    ensures CanAbort(s)
  {
    AbortsNow(Apply(s, MarkSuspended(s.k.t)));
    AbortLater(s, MarkSuspended(s.k.t));
  }

  /** The restless thread is examined first. */
  lemma RestlessAborts(s: State, t: Tid)
    requires Local(s) && Settled(s) && s.k.WaitAgain? && Restless(s, t)
    ensures CanAbort(s)
  {
    var s1 := s.(k := WaitPass(Listed(s), 0, 0));
    var s2 := s1.(k := WaitLook(t, Listed(s) - {t}, 0, 0));
    assert LocalOK(s, t);
    RestlessIs(s, t);
    if s.threads[t].h.Saving? { SavingAborts(s2); }
    else if s.threads[t].h.Saved? { SavedAborts(s2); }
    else { AbortsNow(s2); }
    AbortLater(s1, Ckpt(t));
    AbortLater(s, Ckpt(t));
  }

  lemma RestlessIs(s: State, t: Tid)
    requires Settled(s) && Restless(s, t) && LocalOK(s, t) && !RestartPhase(s.k)
    ensures s.threads[t].h.Saving? || s.threads[t].h.Saved? ==> s.threads[t].Live()
    ensures s.threads[t].state.SuspInProg? ==> s.threads[t].h.Saving? || s.threads[t].h.Saved?
  {}

  /**
    Exactly when it can fail, seen from the beginning of a turn of wait_for_exiting_threads:
    some listed thread is neither exiting nor joined nor ST_SUSPENDED yet. If nobody slipped
    these are the counted threads that are still saving their context.
   */
  lemma AbortPossibleIff(run: seq<State>, i: nat)
    requires IsRun(run) && LeftBeforeScan(run) && i < |run| && run[i].k.WaitAgain?
    ensures CanAbort(run[i]) <==> exists t | t in Listed(run[i]) :: Restless(run[i], t)
    ensures run[i].slipped == {} ==>
              forall t | t in Listed(run[i]) :: Restless(run[i], t) <==>
                t in run[i].counted && (run[i].threads[t].h.Saving? || run[i].threads[t].h.Saved?)
  {
    RunInv(run, i);
    RunSettled(run, i);
    RunExamined(run, i);
    CanAbortIff(run[i]);
    if run[i].slipped == {} { RestlessAreSaving(run[i]); }
  }

  lemma CanAbortIff(s: State)
    requires Inv(s) && Settled(s) && s.k.WaitAgain?
    ensures CanAbort(s) <==> exists t | t in Listed(s) :: Restless(s, t)
  {
    if t :| t in Listed(s) && Restless(s, t) {
      RestlessAborts(s, t);
    } else if CanAbort(s) {
      var ext: seq<State> :| Continues(s, ext) && ext[|ext| - 1].k.Aborted?;
      QuietNeverAborts(s, ext);
    }
  }

  lemma RestlessAreSaving(s: State)
    requires Inv(s) && Settled(s) && Examined(s) && s.k.WaitAgain? && s.slipped == {}
    ensures forall t | t in Listed(s) :: Restless(s, t) <==>
              t in s.counted && (s.threads[t].h.Saving? || s.threads[t].h.Saved?)
  {
    forall t | t in Listed(s)
      ensures Restless(s, t) <==> t in s.counted && (s.threads[t].h.Saving? || s.threads[t].h.Saved?)
    {
      assert LocalOK(s, t);
    }
  }

  // ----- a run without a slip in which it fails -----

  function One(state: ThreadState, h: Handler, k: KPc, counted: set<Tid>, expected: nat): State {
    State(map[0 := Th(state, h, 0)], 0, XSuspInProg, expected, 0, k, counted, {}, {}, {})
  }

  lemma OneIsAsked(r: State -> bool)
    requires Closed(r) && r(Init(0, 0))
    ensures r(One(Running, NoHandler, Again, {}, 0))
  {
    var s := Init(0, 0);
    s := Go(r, s, Request);
    s := Go(r, s, Ready);
    s := Go(r, s, Start);
    s := Go(r, s, Ckpt(0));
    s := Go(r, s, Ckpt(0));
    assert s.threads == One(Running, NoHandler, Again, {}, 0).threads;
  }

  lemma OneIsSignalled(r: State -> bool)
    requires Closed(r) && r(One(Running, NoHandler, Again, {}, 0))
    ensures r(One(Signaled, NoHandler, Again, {}, 0))
  {
    var s := Go(r, One(Running, NoHandler, Again, {}, 0), Ckpt(0));
    assert s == One(Running, NoHandler, Pass({0}, 0, false), {}, 0);
    s := Go(r, s, Ckpt(0));
    assert s == One(Signaled, NoHandler, Pass({}, 0, true), {}, 0);
    s := Go(r, s, Ckpt(0));
  }

  lemma OneIsLookedAt(r: State -> bool)
    requires Closed(r) && r(One(Signaled, NoHandler, Again, {}, 0))
    ensures r(One(SuspInProg, Saving, Pass({0}, 0, false), {}, 0))
  {
    var s := One(Signaled, NoHandler, Again, {}, 0);
    s := Go(r, s, Handle(0));
    assert s == One(SuspInProg, Saving, Again, {}, 0);
    s := Go(r, s, Ckpt(0));
    assert s.k == Pass({0}, 0, false);
  }

  lemma OneIsCounted(r: State -> bool)
    requires Closed(r) && r(One(SuspInProg, Saving, Pass({0}, 0, false), {}, 0))
    ensures r(One(SuspInProg, Saving, Pass({}, 1, false), {0}, 0))
  {
    var s := Go(r, One(SuspInProg, Saving, Pass({0}, 0, false), {}, 0), Ckpt(0));
    assert s.k == Look(0, 2, {}, 0, false);
    s := Go(r, s, Ckpt(0));
    s := Go(r, s, Ckpt(0));
    s := Go(r, s, Ckpt(0));
    assert s.counted == {0};
  }

  lemma WaitsForOne(r: State -> bool)
    requires Closed(r) && r(One(SuspInProg, Saving, Pass({}, 1, false), {0}, 0))
    ensures r(One(SuspInProg, Saving, WaitLook(0, {}, 0, 0), {0}, 1))
  {
    var s := One(SuspInProg, Saving, Pass({}, 1, false), {0}, 0);
    s := Go(r, s, Ckpt(0));
    s := Go(r, s, Ckpt(0));
    s := Go(r, s, Ckpt(0));
    assert s.k == WaitPass({0}, 0, 0);
    s := Go(r, s, Ckpt(0));
    assert s.k == WaitLook(0, {}, 0, 0);
  }

  lemma OneIsMarked(r: State -> bool)
    requires Closed(r) && r(One(SuspInProg, Saving, WaitLook(0, {}, 0, 0), {0}, 1))
    ensures r(One(Suspended, AtBarrier(false), Aborted, {0}, 1))
  {
    var s := One(SuspInProg, Saving, WaitLook(0, {}, 0, 0), {0}, 1);
    s := Go(r, s, SaveContext(0));
    s := Go(r, s, MarkSuspended(0));
    assert s == One(Suspended, AtBarrier(false), WaitLook(0, {}, 0, 0), {0}, 1);
    s := Go(r, s, Ckpt(0));
  }

  /** One thread, counted while it saves its context; nobody slips, deserts or straggles. */
  lemma AbortWithoutSlip()
    ensures Reachable(One(Suspended, AtBarrier(false), Aborted, {0}, 1))
  {
    var r := s => Reachable(s);
    ReachableClosed(r);
    OneIsAsked(r);
    OneIsSignalled(r);
    OneIsLookedAt(r);
    OneIsCounted(r);
    WaitsForOne(r);
    OneIsMarked(r);
  }
}
