/**
  What happens when the directory of an epoch already exists (xnd/coordinator/xnd_coord.c:764-769
  and 819): the coordinator removes it and stops, and every process keeps waiting in the
  pre-checkpoint barrier until the next checkpoint.
 */
module RetryTheorems {
  import opened CheckpointProtocol
  import opened ProtocolInvariant
  import opened GlobalTheorems
  import opened SnapshotTheorems
  import T = ThreadSuspension

  // ----- when the directory exists -----

  /** Before any restart no directory is newer than the epoch, and that of the epoch is in use. */
  predicate NothingLeftOver(s: State) {
    && !s.c.Gather? && !s.c.ReleaseRestart? && !(s.c.Unlink? && !s.c.success)
    && forall e | e in s.disk :: e <= s.epoch && (e == s.epoch ==> Round(s.c) || Post(s.c))
  }

  lemma LeftOverClient(s: State, a: Action)
    requires NothingLeftOver(s) && IsClient(a) && ClientEnabled(s, a)
    ensures NothingLeftOver(ClientApply(s, a))
  {
    if a.WriteImage? {
      assert WriteImageApply(s, a.p).disk.Keys == s.disk.Keys;
    }
  }

  lemma LeftOverTurn(s: State, a: Action)
    requires NothingLeftOver(s) && IsTurn(a) && TurnEnabled(s, a)
    ensures NothingLeftOver(TurnApply(s, a))
  {}

  lemma LeftOverMove(s: State, a: Action)
    requires NothingLeftOver(s) && IsMove(a) && MoveEnabled(s, a)
    ensures NothingLeftOver(MoveApply(s, a))
  {}

  lemma LeftOverDisk(s: State, a: Action)
    requires NothingLeftOver(s) && IsDisk(a) && DiskEnabled(s, a)
    ensures NothingLeftOver(DiskApply(s, a))
  {
    assert forall e | e in DiskApply(s, a).disk :: e in s.disk || a.CreateDir?;
  }

  lemma LeftOverStep(s: State, a: Action)
    requires NothingLeftOver(s) && Enabled(s, a) && !a.CrashAndRestart?
    ensures NothingLeftOver(Apply(s, a))
  {
    if IsClient(a) { LeftOverClient(s, a); }
    else if IsTurn(a) { LeftOverTurn(s, a); }
    else if IsMove(a) { LeftOverMove(s, a); }
    else if IsDisk(a) { LeftOverDisk(s, a); }
  }

  lemma LeftOverNext(s: State, s': State)
    requires NothingLeftOver(s) && Uncrashed(s, s')
    ensures NothingLeftOver(s')
  {
    var a: Action :| !a.CrashAndRestart? && Acts(s, a, s');
    LeftOverStep(s, a);
  }

  /** Nothing has crashed before state `i` of the run. */
  ghost predicate UncrashedUntil(run: seq<State>, i: nat)
    requires i < |run|
  {
    forall l: nat | l < i :: UncrashedAt(run, l)
  }

  lemma LeftOverAt(run: seq<State>, i: nat)
    requires i + 1 < |run| && UncrashedAt(run, i) && NothingLeftOver(run[i])
    ensures NothingLeftOver(run[i + 1])
  {
    LeftOverNext(run[i], run[i + 1]);
  }

  lemma {:induction false} RunNothingLeftOver(run: seq<State>, i: nat)
    requires i < |run| && run[0] == Init() && UncrashedUntil(run, i)
    ensures NothingLeftOver(run[i])
  {
    if i > 0 {
      RunNothingLeftOver(run, i - 1);
      LeftOverAt(run, i - 1);
    }
  }

  /** The coordinator finds the directory of its epoch in place. */
  ghost predicate DirectoryExists(run: seq<State>, j: nat) {
    && j + 1 < |run| && run[j].c.MakeDir? && Acts(run[j], CreateDir, run[j + 1])
    && run[j + 1].c == Unlink(run[j].epoch, false)
  }

  /** That happens exactly if the directory is left over, and never before a crash. */
  lemma DirectoryExistsIff(run: Run, j: nat)
    requires j + 1 < |run| && Acts(run[j], CreateDir, run[j + 1])
    ensures DirectoryExists(run, j) <==> run[j].epoch in run[j].disk
    ensures DirectoryExists(run, j) ==> !UncrashedUntil(run, j)
  {
    DiskActs(run[j], CreateDir, run[j + 1]);
    if UncrashedUntil(run, j) { RunNothingLeftOver(run, j); }
  }

  // ----- who waits, and since when -----

  /** In the pre-checkpoint barrier, with nothing in flight. */
  predicate Parked(s: State, p: Pid) {
    && p in s.pstate && s.pstate[p].PReady? && p in s.procs && s.procs[p].ts.k.AwaitStart?
    && s.procs[p].toClient == [] && s.procs[p].toCoord == []
  }

  lemma ReadyIsParked(s: State, p: Pid)
    requires KeysOK(s) && ClientsOK(s) && p in s.pstate && s.pstate[p].PReady?
    ensures Parked(s, p)
  {
    assert ClientOK(s, p);
  }

  /** While the directory is being removed every process waits. */
  lemma EverybodyIsParked(run: Run, i: nat, p: Pid)
    requires i < |run| && run[i].c.Unlink? && !run[i].c.success && p in run[i].procs
    ensures Parked(run[i], p) && run[i].c.e == run[i].epoch
  {
    RunGood(run, i);
    assert ClientOK(run[i], p);
    ReadyIsParked(run[i], p);
  }

  /** The coordinator is idle, or is about to be, and `p` waits for XND_CKPT_START. */
  predicate Waiting(s: State, p: Pid) {
    p in s.pstate && s.pstate[p].PReady? && (s.c.Idle? || (s.c.Unlink? && !s.c.success))
  }

  predicate FailsToCreate(s: State, a: Action) { a.CreateDir? && s.c.MakeDir? && s.epoch in s.disk }

  lemma WaitingClient(s: State, a: Action, p: Pid)
    requires IsClient(a) && ClientEnabled(s, a) && Waiting(ClientApply(s, a), p)
    ensures Waiting(s, p) && ClientApply(s, a).epoch == s.epoch
  {}

  lemma WaitingTurn(s: State, a: Action, p: Pid)
    requires IsTurn(a) && TurnEnabled(s, a)
    ensures !Waiting(TurnApply(s, a), p)
  {}

  lemma WaitingMove(s: State, a: Action, p: Pid)
    requires IsMove(a) && MoveEnabled(s, a) && (s.c == ReleaseRestart({}) && p in s.pstate ==> s.pstate[p].PRunning?)
    ensures !Waiting(MoveApply(s, a), p)
  {}

  lemma WaitingDisk(s: State, a: Action, p: Pid)
    requires IsDisk(a) && DiskEnabled(s, a) && (s.c.NextEpoch? && p in s.pstate ==> s.pstate[p].PRunning?)
    requires Waiting(DiskApply(s, a), p)
    ensures (Waiting(s, p) || FailsToCreate(s, a)) && DiskApply(s, a).epoch == s.epoch
  {}

  lemma RunsAtTheEnd(s: State, p: Pid)
    requires KeysOK(s) && ClientsOK(s) && p in s.pstate && (s.c == ReleaseRestart({}) || s.c.NextEpoch?)
    ensures s.pstate[p].PRunning?
  {
    assert ClientOK(s, p);
  }

  lemma WaitingSince(s: State, a: Action, p: Pid)
    requires p in s.pstate && (s.c == ReleaseRestart({}) || s.c.NextEpoch?) ==> s.pstate[p].PRunning?
    requires Enabled(s, a) && Waiting(Apply(s, a), p)
    ensures (Waiting(s, p) || FailsToCreate(s, a)) && Apply(s, a).epoch == s.epoch
  {
    if IsClient(a) { WaitingClient(s, a, p); }
    else if IsTurn(a) { WaitingTurn(s, a, p); }
    else if IsMove(a) { WaitingMove(s, a, p); }
    else if IsDisk(a) { WaitingDisk(s, a, p); }
  }

  lemma WaitingBefore(run: Run, i: nat, p: Pid)
    requires i + 1 < |run| && Waiting(run[i + 1], p)
    ensures Waiting(run[i], p) || DirectoryExists(run, i)
    ensures run[i + 1].epoch == run[i].epoch
  {
    RunEnds(run, i, p);
    StepIsNext(run, i);
    WaitingNext(run[i], run[i + 1], p);
  }

  lemma RunEnds(run: Run, i: nat, p: Pid)
    requires i < |run|
    ensures p in run[i].pstate && (run[i].c == ReleaseRestart({}) || run[i].c.NextEpoch?) ==> run[i].pstate[p].PRunning?
  {
    RunGood(run, i);
    if p in run[i].pstate && (run[i].c == ReleaseRestart({}) || run[i].c.NextEpoch?) { RunsAtTheEnd(run[i], p); }
  }

  lemma WaitingNext(s: State, s': State, p: Pid)
    requires p in s.pstate && (s.c == ReleaseRestart({}) || s.c.NextEpoch?) ==> s.pstate[p].PRunning?
    requires Next(s, s') && Waiting(s', p)
    ensures s'.epoch == s.epoch
    ensures Waiting(s, p) || (s.c.MakeDir? && Acts(s, CreateDir, s') && s'.c == Unlink(s.epoch, false))
  {
    var a :| Acts(s, a, s') && ExecInTime(s, a);
    WaitingSince(s, a, p);
  }

  /**
    An idle coordinator has a process on its list that waits for XND_CKPT_START only since
    it found a directory in place, in the same epoch; the process has waited ever since.
   */
  lemma {:induction false} ReadyWhenIdle(run: Run, i: nat, p: Pid) returns (j: nat)
    requires i < |run| && Waiting(run[i], p)
    ensures j < i && DirectoryExists(run, j) && run[j].epoch == run[i].epoch
    ensures forall l :: j < l <= i ==> Waiting(run[l], p)
  {
    assert i > 0;
    WaitingBefore(run, i - 1, p);
    if DirectoryExists(run, i - 1) { j := i - 1; } else { j := ReadyWhenIdle(run, i - 1, p); }
  }

  // ----- the next checkpoint -----

  /** The coordinator has not created a directory since. */
  predicate NotStarted(c: CPc) { c.Idle? || c.Suspend? || c.MakeDir? }

  lemma StaysReady(s: State, a: Action, p: Pid)
    requires NotStarted(s.c) && p in s.pstate && s.pstate[p].PReady? && Enabled(s, a) && p in Apply(s, a).pstate
    ensures Apply(s, a).pstate[p].PReady?
  {
    if IsClient(a) { ReadyClient(s, a, p); }
    else if IsMember(a) { ReadyMember(s, a, p); }
    else if IsTurn(a) { ReadyTurn(s, a, p); }
    else if IsDisk(a) { ReadyDisk(s, a); }
  }

  lemma ReadyMember(s: State, a: Action, p: Pid)
    requires p in s.pstate && IsMember(a) && MemberEnabled(s, a) && p in MemberApply(s, a).pstate
    ensures MemberApply(s, a).pstate[p] == s.pstate[p]
  {}

  lemma ReadyClient(s: State, a: Action, p: Pid)
    requires NotStarted(s.c) && IsClient(a) && ClientEnabled(s, a)
    ensures ClientApply(s, a).pstate == s.pstate
  {}

  lemma ReadyDisk(s: State, a: Action)
    requires IsDisk(a) && DiskEnabled(s, a)
    ensures DiskApply(s, a).pstate == s.pstate
  {}

  lemma ReadyTurn(s: State, a: Action, p: Pid)
    requires NotStarted(s.c) && p in s.pstate && s.pstate[p].PReady? && IsTurn(a) && TurnEnabled(s, a)
    ensures p in TurnApply(s, a).pstate && TurnApply(s, a).pstate[p].PReady?
  {}

  lemma ReadyNext(s: State, s': State, p: Pid)
    requires NotStarted(s.c) && p in s.pstate && s.pstate[p].PReady? && Next(s, s') && p in s'.pstate
    ensures s'.pstate[p].PReady?
  {
    var a :| Acts(s, a, s') && ExecInTime(s, a);
    StaysReady(s, a, p);
  }

  lemma RunParked(run: Run, j: nat, p: Pid)
    requires j < |run| && p in run[j].pstate && run[j].pstate[p].PReady?
    ensures Parked(run[j], p)
  {
    RunGood(run, j);
    ReadyIsParked(run[j], p);
  }

  /** Until then such a process is sent nothing: the next checkpoint starts without a request to it. */
  lemma {:induction false} NoNewRequest(run: Run, i: nat, j: nat, p: Pid)
    requires i <= j < |run| && p in run[i].pstate && run[i].pstate[p].PReady?
    requires forall l :: i <= l < j ==> NotStarted(run[l].c)
    requires forall l :: i <= l <= j ==> p in run[l].pstate
    ensures Parked(run[j], p)
  {
    if i < j {
      NoNewRequest(run, i, j - 1, p);
      StepIsNext(run, j - 1);
      ReadyNext(run[j - 1], run[j], p);
    }
    RunParked(run, j, p);
  }

  /** If everybody waits, the next checkpoint is at once where the last one stopped. */
  lemma RetriesAtOnce(s: State)
    requires s.up && s.c.Idle? && s.pstate != map[] && forall p | p in s.pstate :: s.pstate[p].PReady?
    ensures Enabled(s, BeginCkpt)
    ensures var s' := Apply(s, BeginCkpt); Enabled(s', AllReady) && Apply(s', AllReady) == s.(c := MakeDir)
  {}
}
