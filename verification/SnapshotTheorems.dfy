/**
  The checkpoint as a whole: what is on disk is one instant of the computation, a restart
  continues from that instant, and there is always a checkpoint to restart from.
 */
module SnapshotTheorems {
  import opened CheckpointProtocol
  import opened ProtocolInvariant
  import opened GlobalTheorems
  import T = ThreadSuspension
  import SI = SuspensionInvariant
  import ST = SuspensionTheorems

  /** Steps of a process, not of the coordinator. */
  predicate IsProcess(a: Action) { IsClient(a) || IsMember(a) }

  // ----- one global instant -----

  /** What a restart loads from an image: memory, and the saved context of each thread. */
  function Loaded(ts: T.State): ST.Program {
    ST.Program(ts.mem, map t | t in ts.threads && ts.threads[t].listed && !ts.threads[t].gone :: ts.threads[t].uctx)
  }

  /** No thread that slipped through the last pass before this image was alive. */
  predicate Clean(i: Image) { i.ts.slipped !! ST.LiveThreads(i.ts) }

  /**
    The image has the memory, the threads and, but for a thread whose context was still
    being saved, the contexts of the process `ts`. In a clean image there is none such.
   */
  predicate ImageOf(i: Image, ts: T.State) {
    && Loaded(i.ts).mem == ts.mem && T.Listed(i.ts) == T.Listed(ts)
    && Loaded(i.ts).regs.Keys == ST.UserState(ts).regs.Keys
    && (forall t | t in Loaded(i.ts).regs ::
          i.ts.threads[t].h.Saving? || Loaded(i.ts).regs[t] == ST.UserState(ts).regs[t])
    && (Clean(i) ==> Loaded(i.ts) == ST.UserState(ts))
  }

  lemma CurrentIsImage(i: Image, ts: T.State)
    requires ImageSound(i) && ST.SameUserState(i.ts, ts)
    ensures ImageOf(i, ts)
  {
    forall t | t in Loaded(i.ts).regs
      ensures t in ST.LiveThreads(i.ts) && ST.UserState(ts).regs[t] == i.ts.threads[t].regs
    {
      assert t in T.Listed(i.ts) && t in ST.UserState(i.ts).regs;
    }
    if Clean(i) { assert Loaded(i.ts).regs == ST.UserState(i.ts).regs; }
  }

  /** The images left in `d` are the states of the named processes in `s`, all at once. */
  predicate SnapshotOf(d: Dir, s: State) {
    && d.manifest == Names(s.procs.Keys)
    && forall p | p in d.images && p in s.procs :: ImageOf(d.images[p], s.procs[p].ts)
  }

  /** `d'` is `d`, possibly without some of its images. */
  predicate FewerImages(d: Dir, d': Dir) {
    && d'.manifest == d.manifest && d'.images.Keys <= d.images.Keys
    && forall p | p in d'.images :: d'.images[p] == d.images[p]
  }

  lemma FewerImagesSnapshot(d: Dir, d': Dir, s: State)
    requires SnapshotOf(d, s) && FewerImages(d, d')
    ensures SnapshotOf(d', s)
  {}

  /** A manifest appears when it is filled; afterwards the directory can only lose images. */
  predicate DirKept(s: State, s': State, e: nat)
    requires e in s'.disk
  {
    (e in s.disk && FewerImages(s.disk[e], s'.disk[e])) || SnapshotOf(s'.disk[e], s')
  }

  lemma FillTakesSnapshot(s: State, s': State)
    requires ImagesSound(s) && ImagesCurrent(s) && s.c.ScanImages? && ManifestFilled(s, s')
    ensures SnapshotOf(s'.disk[s.epoch], s')
  {
    forall p | p in s'.disk[s.epoch].images && p in s'.procs
      ensures ImageOf(s'.disk[s.epoch].images[p], s'.procs[p].ts)
    {
      assert ImageIsCurrent(s, p) && ImageSound(s.disk[s.epoch].images[p]);
      CurrentIsImage(s.disk[s.epoch].images[p], s.procs[p].ts);
    }
  }

  // ----- which steps touch the disk -----

  lemma ClientDisk(s: State, a: Action)
    requires IsClient(a) && !a.WriteImage? && ClientEnabled(s, a)
    ensures ClientApply(s, a).disk == s.disk
  {}

  lemma TurnDisk(s: State, a: Action)
    requires IsTurn(a) && TurnEnabled(s, a)
    ensures TurnApply(s, a).disk == s.disk
  {}

  /** Only writing an image and the disk steps of the coordinator do. */
  lemma SameDisk(s: State, a: Action)
    requires Enabled(s, a) && !a.WriteImage? && !IsDisk(a)
    ensures Apply(s, a).disk == s.disk
  {
    if IsClient(a) { ClientDisk(s, a); } else if IsTurn(a) { TurnDisk(s, a); }
  }

  /** `s'` is `s` with one more image, in the directory of the coordinator's epoch. */
  predicate NewImage(s: State, s': State, p: Pid) {
    && Round(s.c) && s.epoch in s.disk && p !in s.disk[s.epoch].images && s'.disk.Keys == s.disk.Keys
    && (forall e | e in s.disk && e != s.epoch :: s'.disk[e] == s.disk[e])
    && s'.disk[s.epoch].manifest == s.disk[s.epoch].manifest
    && (forall q | q in s.disk[s.epoch].images ::
          q in s'.disk[s.epoch].images && s'.disk[s.epoch].images[q] == s.disk[s.epoch].images[q])
  }

  lemma WriteIs(s: State, p: Pid)
    requires Inv(s) && p in s.procs && s.procs[p].ts.k.Frozen?
    ensures NewImage(s, WriteImageApply(s, p), p)
  {
    ImageHasItsPlace(s, p);
  }

  lemma WriteStep(s: State, a: Action)
    requires Inv(s) && a.WriteImage? && ClientEnabled(s, a)
    ensures NewImage(s, ClientApply(s, a), a.p)
  {
    WriteIs(s, a.p);
  }

  lemma NewImageDir(s: State, s': State, p: Pid, e: nat)
    requires StageOK(s) && NewImage(s, s', p) && e in s'.disk && s'.disk[e].manifest.Names?
    ensures DirKept(s, s', e)
  {}

  lemma OtherDir(s: State, a: Action, e: nat)
    requires IsDisk(a) && !a.FillManifest? && DiskEnabled(s, a)
    requires e in DiskApply(s, a).disk && DiskApply(s, a).disk[e].manifest.Names?
    ensures DirKept(s, DiskApply(s, a), e)
  {
    DirIsOld(s, a, e);
  }

  lemma DirIsOld(s: State, a: Action, e: nat)
    requires IsDisk(a) && !a.FillManifest? && DiskEnabled(s, a)
    requires e in DiskApply(s, a).disk && DiskApply(s, a).disk[e].manifest.Names?
    ensures e in s.disk && FewerImages(s.disk[e], DiskApply(s, a).disk[e])
  {}

  lemma FillDir(s: State, e: nat)
    requires Inv(s) && ImagesSound(s) && ImagesCurrent(s)
    requires DiskEnabled(s, FillManifest) && e in DiskApply(s, FillManifest).disk
    ensures DirKept(s, DiskApply(s, FillManifest), e)
  {
    FillIs(s);
    FilledDir(s, DiskApply(s, FillManifest), e);
  }

  lemma FilledDir(s: State, s': State, e: nat)
    requires ImagesSound(s) && ImagesCurrent(s) && s.c.ScanImages? && ManifestFilled(s, s') && e in s'.disk
    ensures DirKept(s, s', e)
  {
    FillTakesSnapshot(s, s');
  }

  lemma WriteDir(s: State, a: Action, e: nat)
    requires Inv(s) && a.WriteImage? && ClientEnabled(s, a)
    requires e in ClientApply(s, a).disk && ClientApply(s, a).disk[e].manifest.Names?
    ensures DirKept(s, ClientApply(s, a), e)
  {
    WriteStep(s, a);
    NewImageDir(s, ClientApply(s, a), a.p, e);
  }

  /** A step as far as the disk is concerned. */
  predicate DiskEvent(s: State, a: Action, s': State) {
    || (IsDisk(a) && DiskEnabled(s, a) && s' == DiskApply(s, a))
    || (a.WriteImage? && ClientEnabled(s, a) && s' == ClientApply(s, a))
    || (!IsDisk(a) && !a.WriteImage? && s'.disk == s.disk)
  }

  lemma IsDiskEvent(s: State, a: Action, s': State)
    requires Acts(s, a, s')
    ensures DiskEvent(s, a, s')
  {
    if IsDisk(a) { DiskActs(s, a, s'); }
    else if a.WriteImage? { WriteActs(s, a, s'); }
    else { SameDisk(s, a); }
  }

  lemma DiskActs(s: State, a: Action, s': State)
    requires IsDisk(a) && Acts(s, a, s')
    ensures DiskEnabled(s, a) && s' == DiskApply(s, a)
  {
    NotOfAnotherKind(a);
  }

  lemma NotOfAnotherKind(a: Action)
    requires IsDisk(a)
    ensures !IsClient(a) && !IsMember(a) && !IsTurn(a) && !IsMove(a)
  {}

  lemma WriteActs(s: State, a: Action, s': State)
    requires a.WriteImage? && Acts(s, a, s')
    ensures ClientEnabled(s, a) && s' == ClientApply(s, a)
  {}

  lemma NextEvent(s: State, s': State) returns (a: Action)
    requires Next(s, s')
    ensures DiskEvent(s, a, s') && Acts(s, a, s')
  {
    a :| Acts(s, a, s') && ExecInTime(s, a);
    IsDiskEvent(s, a, s');
  }

  lemma DirStep(s: State, a: Action, s': State, e: nat)
    requires Inv(s) && ImagesSound(s) && ImagesCurrent(s) && DiskEvent(s, a, s')
    requires e in s'.disk && s'.disk[e].manifest.Names?
    ensures DirKept(s, s', e)
  {
    if a.FillManifest? { FillDir(s, e); }
    else if a.WriteImage? { WriteDir(s, a, e); }
    else if IsDisk(a) { OtherDir(s, a, e); }
  }

  lemma DirNext(s: State, s': State, e: nat)
    requires Inv(s) && ImagesSound(s) && ImagesCurrent(s) && Next(s, s')
    requires e in s'.disk && s'.disk[e].manifest.Names?
    ensures DirKept(s, s', e)
  {
    var a := NextEvent(s, s');
    DirStep(s, a, s', e);
  }

  lemma RunDirStep(run: Run, i: nat, e: nat)
    requires i + 1 < |run| && e in run[i + 1].disk && run[i + 1].disk[e].manifest.Names?
    ensures DirKept(run[i], run[i + 1], e)
  {
    RunGood(run, i);
    StepIsNext(run, i);
    DirNext(run[i], run[i + 1], e);
  }

  lemma NothingAtFirst(run: Run)
    ensures run[0].disk == map[]
  {}

  /**
    Global snapshot: every written manifest names exactly the processes of one state of
    the run, and every image of that directory is what its process was in that state.
    This holds after slips too; SnapshotOf says which contexts may then be stale.
   */
  lemma {:induction false} GlobalSnapshot(run: Run, i: nat, e: nat) returns (j: nat)
    requires i < |run| && e in run[i].disk && run[i].disk[e].manifest.Names?
    ensures j <= i && SnapshotOf(run[i].disk[e], run[j])
  {
    if i == 0 {
      NothingAtFirst(run);
    } else {
      RunDirStep(run, i - 1, e);
      if SnapshotOf(run[i].disk[e], run[i]) {
        j := i;
      } else {
        j := GlobalSnapshot(run, i - 1, e);
        FewerImagesSnapshot(run[i - 1].disk[e], run[i].disk[e], run[j]);
      }
    }
  }

  // ----- restart -----

  lemma ImageRestarts(i: Image)
    requires ImageSound(i)
    ensures ST.UserState(T.RestartOf(i.ts)) == Loaded(i.ts) && T.Listed(T.RestartOf(i.ts)) == T.Listed(i.ts)
  {
    assert T.Listed(T.RestartOf(i.ts)) == T.Listed(i.ts);
    assert ST.UserState(T.RestartOf(i.ts)).regs == Loaded(i.ts).regs;
  }

  lemma ImageOfDisk(s: State, e: nat, p: Pid)
    requires ImagesSound(s) && e in s.disk && p in s.disk[e].images
    ensures ImageSound(s.disk[e].images[p])
  {}

  lemma CrashIs(s: State, e: nat, p: Pid)
    requires CrashEnabled(s, e) && p in s.disk[e].manifest.pids
    ensures var s' := CrashApply(s, e);
            s'.procs.Keys == s.disk[e].manifest.pids && s'.procs[p].ts == T.RestartOf(s.disk[e].images[p].ts)
  {}

  lemma RestartedProcess(s: State, e: nat, p: Pid, at: State)
    requires ImagesSound(s) && CrashEnabled(s, e) && SnapshotOf(s.disk[e], at) && p in at.procs
    requires Clean(s.disk[e].images[p])
    ensures var s' := CrashApply(s, e);
            s'.procs.Keys == at.procs.Keys && ST.SameUserState(s'.procs[p].ts, at.procs[p].ts)
  {
    CrashIs(s, e, p);
    ImageOfDisk(s, e, p);
    ImageRestarts(s.disk[e].images[p]);
  }

  /** The step CrashAndRestart(e). */
  predicate CrashTo(s: State, e: nat, s': State) { CrashEnabled(s, e) && s' == CrashApply(s, e) }

  /** All processes of `s'` are where they were in `s`. */
  predicate SameComputation(s: State, s': State) {
    && s'.procs.Keys == s.procs.Keys
    && forall p | p in s'.procs :: ST.SameUserState(s'.procs[p].ts, s.procs[p].ts)
  }

  /** All images that a restart from `d` uses are clean. */
  predicate CleanDir(d: Dir) {
    d.manifest.Names? && forall p | p in d.manifest.pids && p in d.images :: Clean(d.images[p])
  }

  /**
    A restart from clean images brings the whole computation back to one earlier state of
    the run: each process gets its memory and each of its threads its continuation.
   */
  lemma RestartResumesAnInstant(run: Run, i: nat, e: nat) returns (j: nat)
    requires i + 1 < |run| && CrashTo(run[i], e, run[i + 1]) && CleanDir(run[i].disk[e])
    ensures j <= i && SameComputation(run[j], run[i + 1])
  {
    j := GlobalSnapshot(run, i, e);
    RunImages(run, i);
    RestartedComputation(run[i], e, run[j], run[i + 1]);
  }

  lemma RunImages(run: Run, i: nat)
    requires i < |run|
    ensures ImagesSound(run[i])
  {
    RunGood(run, i);
  }

  lemma RestartedComputation(s: State, e: nat, at: State, s': State)
    requires ImagesSound(s) && CrashTo(s, e, s') && SnapshotOf(s.disk[e], at) && CleanDir(s.disk[e])
    ensures SameComputation(at, s')
  {
    CrashKeys(s, e);
    forall p | p in at.procs
      ensures ST.SameUserState(CrashApply(s, e).procs[p].ts, at.procs[p].ts)
    {
      RestartedProcess(s, e, p, at);
    }
  }

  lemma CrashKeys(s: State, e: nat)
    requires CrashEnabled(s, e)
    ensures CrashApply(s, e).procs.Keys == s.disk[e].manifest.pids
  {}

  /** No crash in the steps from `i` to `l`, and `p` is still there and being restarted. */
  ghost predicate Restarting(run: seq<State>, i: nat, l: nat, p: Pid) {
    && i <= l < |run|
    && (forall m :: i <= m < l ==> UncrashedAt(run, m))
    && (forall m :: i <= m <= l ==> p in run[m].procs)
    && (forall m :: i <= m < l ==> SI.RestartPhase(run[m].procs[p].ts.k))
  }

  ghost predicate Uncrashed(s: State, s': State) {
    exists a: Action :: !a.CrashAndRestart? && Acts(s, a, s')
  }

  ghost predicate UncrashedAt(run: seq<State>, m: nat)
    requires m + 1 < |run|
  {
    Uncrashed(run[m], run[m + 1])
  }

  /** A step during which a restarting process does nothing the program could notice. */
  lemma RestartingStep(m: Assumption, s: State, a: Action, p: Pid)
    requires ClientsOK(s) && ClientsSound(m, s) && Enabled(s, a) && !a.CrashAndRestart?
    requires p in s.procs && p in Apply(s, a).procs && SI.RestartPhase(s.procs[p].ts.k)
    ensures ST.SameUserState(s.procs[p].ts, Apply(s, a).procs[p].ts)
  {
    if IsClient(a) { RestartingClient(m, s, a, p); }
    else if IsMember(a) { RestartingMember(m, s, a, p); }
    else if IsTurn(a) { TurnKeepsThreads(s, a, p); }
    else if IsMove(a) { MoveKeepsThreads(s, a); }
    else { DiskKeepsThreads(s, a); }
  }

  lemma TurnKeepsThreads(s: State, a: Action, p: Pid)
    requires IsTurn(a) && TurnEnabled(s, a) && p in s.procs
    ensures p in TurnApply(s, a).procs && TurnApply(s, a).procs[p].ts == s.procs[p].ts
  {
    TurnRecords(s, a);
  }

  lemma MoveKeepsThreads(s: State, a: Action)
    requires IsMove(a) && MoveEnabled(s, a)
    ensures MoveApply(s, a).procs == s.procs
  {}

  lemma DiskKeepsThreads(s: State, a: Action)
    requires IsDisk(a) && DiskEnabled(s, a)
    ensures DiskApply(s, a).procs == s.procs
  {}

  lemma RestartingClient(m: Assumption, s: State, a: Action, p: Pid)
    requires ClientsOK(s) && ClientsSound(m, s) && IsClient(a) && ClientEnabled(s, a)
    requires p in s.procs && SI.RestartPhase(s.procs[p].ts.k)
    ensures p in ClientApply(s, a).procs && ST.SameUserState(s.procs[p].ts, ClientApply(s, a).procs[p].ts)
  {
    if a.p != p { OtherClientSame(s, a, p); }
    else if a.Inner? { RestartingInner(s.procs[p].ts, a.a); }
    else if IsReceive(a) { RestartingResume(s, a); }
    else { NotItsClientStep(s, a); }
  }

  lemma RestartingInner(ts: T.State, b: T.Action)
    requires SI.Inv(ts) && SI.RestartPhase(ts.k) && T.Enabled(ts, b)
    ensures ST.SameUserState(ts, T.Apply(ts, b))
  {
    ST.WaitFromInv(ts);
    ST.RestartStateIsStable(ts, b);
  }

  lemma RestartingResume(s: State, a: Action)
    requires ClientsOK(s) && IsReceive(a) && ClientEnabled(s, a) && SI.RestartPhase(s.procs[a.p].ts.k)
    ensures a.p in ClientApply(s, a).procs
    ensures ST.SameUserState(s.procs[a.p].ts, ClientApply(s, a).procs[a.p].ts)
  {
    ReceiveIsExpected(s, a);
    ReceiveKeepsProgram(s, a);
  }

  lemma ReceiveKeepsProgram(s: State, a: Action)
    requires IsReceive(a) && ClientEnabled(s, a) && Waits(s.procs[a.p])
    requires Expected(s.procs[a.p].ts.k, s.procs[a.p].toClient[0])
    ensures a.p in ClientApply(s, a).procs
    ensures ST.SameUserState(s.procs[a.p].ts, ClientApply(s, a).procs[a.p].ts)
  {
    ReceiveApply(s, a);
    SameThreads(s.procs[a.p].ts, Received(s.procs[a.p]).ts);
  }

  lemma SameThreads(ts: T.State, ts': T.State)
    requires ts'.threads == ts.threads && ts'.mem == ts.mem
    ensures ST.SameUserState(ts, ts')
  {
    assert T.Listed(ts') == T.Listed(ts);
  }

  lemma NotItsClientStep(s: State, a: Action)
    requires IsClient(a) && !a.Inner? && !IsReceive(a) && ClientEnabled(s, a) && SI.RestartPhase(s.procs[a.p].ts.k)
    ensures a.p in ClientApply(s, a).procs && s.procs[a.p].ts == ClientApply(s, a).procs[a.p].ts
  {}

  /** It cannot exec: none of its threads runs. */
  lemma RestartingMember(m: Assumption, s: State, a: Action, p: Pid)
    requires ClientsSound(m, s) && IsMember(a) && MemberEnabled(s, a)
    requires p in s.procs && p in MemberApply(s, a).procs && SI.RestartPhase(s.procs[p].ts.k)
    ensures s.procs[p].ts == MemberApply(s, a).procs[p].ts
  {
    if a.Exec? && a.p == p {
      NobodyRuns(s.procs[p].ts, a.t);
    }
  }

  lemma NobodyRuns(ts: T.State, t: T.Tid)
    requires SI.Inv(ts) && SI.RestartPhase(ts.k) && t in ts.threads && ts.threads[t].Live()
    ensures !ts.threads[t].h.NoHandler?
  {
    ST.WaitFromInv(ts);
  }

  lemma RestartingNext(run: Run, m: nat, p: Pid)
    requires m + 1 < |run| && UncrashedAt(run, m)
    requires p in run[m].procs && p in run[m + 1].procs && SI.RestartPhase(run[m].procs[p].ts.k)
    ensures ST.SameUserState(run[m].procs[p].ts, run[m + 1].procs[p].ts)
  {
    RunGood(run, m);
    UncrashedStep(AssumptionOf(run), run[m], run[m + 1], p);
  }

  lemma UncrashedStep(m: Assumption, s: State, s': State, p: Pid)
    requires ClientsOK(s) && ClientsSound(m, s) && Uncrashed(s, s')
    requires p in s.procs && p in s'.procs && SI.RestartPhase(s.procs[p].ts.k)
    ensures ST.SameUserState(s.procs[p].ts, s'.procs[p].ts)
  {
    var a: Action :| !a.CrashAndRestart? && Acts(s, a, s');
    RestartingStep(m, s, a, p);
  }

  lemma {:induction false} RestartingKeeps(run: Run, i: nat, l: nat, p: Pid)
    requires Restarting(run, i, l, p)
    ensures ST.SameUserState(run[i].procs[p].ts, run[l].procs[p].ts)
  {
    if i < l {
      RestartingKeeps(run, i, l - 1, p);
      RestartingNext(run, l - 1, p);
    }
  }

  /**
    Until a restarted process lets its threads go, it stays as it was in the instant of
    the checkpoint, whatever the other processes do meanwhile.
   */
  lemma RestartStaysAtTheInstant(run: Run, i: nat, e: nat, l: nat, p: Pid) returns (j: nat)
    requires i + 1 < |run| && CrashTo(run[i], e, run[i + 1]) && CleanDir(run[i].disk[e])
    requires Restarting(run, i + 1, l, p)
    ensures j <= i && SameComputation(run[j], run[i + 1]) && p in run[j].procs
    ensures ST.SameUserState(run[l].procs[p].ts, run[j].procs[p].ts)
  {
    j := RestartResumesAnInstant(run, i, e);
    RestartingKeeps(run, i + 1, l, p);
  }

  // ----- crash consistency -----

  ghost predicate Restartable(s: State) { exists e: nat :: HasComplete(s, e) }

  /** When the coordinator has written a manifest. */
  predicate Succeeded(s: State) { s.c.Gather? || Post(s.c) || s.epoch > 0 }

  /** The epoch of the last manifest. */
  function LastEpoch(s: State): int {
    if s.c.Gather? then s.c.from else if Post(s.c) then s.epoch else s.epoch - 1
  }

  /** The last manifest names nobody: no process was left when it was filled. */
  predicate NamesNobody(s: State) { LastEpoch(s) in s.disk && s.disk[LastEpoch(s)].manifest == Names({}) }

  lemma RunStage(run: Run, i: nat)
    requires i < |run|
    ensures KeysOK(run[i]) && StageOK(run[i])
  {
    RunGood(run, i);
  }

  /**
    Exactly when there is something to restart from: a manifest has been written, and the
    last one names somebody or another directory is complete. It names nobody only after
    every process has ended.
   */
  lemma RestartableIff(run: Run, i: nat)
    requires i < |run|
    ensures var s := run[i];
            Restartable(s) <==>
            Succeeded(s) && (!NamesNobody(s) || exists e: nat :: e != LastEpoch(s) && HasComplete(s, e))
    ensures Succeeded(run[i]) && NamesNobody(run[i]) ==> run[i].procs == map[]
  {
    RunStage(run, i);
    if Succeeded(run[i]) { LastIsComplete(run[i]); } else { NotYet(run[i]); }
  }

  lemma LastIsComplete(s: State)
    requires StageOK(s) && Succeeded(s)
    ensures LastEpoch(s) >= 0 && (HasComplete(s, LastEpoch(s)) <==> !NamesNobody(s))
    ensures NamesNobody(s) ==> s.procs == map[]
  {
    assert HasManifest(s, LastEpoch(s)) || HasComplete(s, LastEpoch(s));
  }

  lemma NotYet(s: State)
    requires StageOK(s) && !Succeeded(s)
    ensures !Restartable(s)
  {
    forall e: nat
      ensures !HasComplete(s, e)
    {
      assert s.epoch == 0 && s.disk.Keys == if Round(s.c) then {0} else {};
    }
  }

  // ----- a success is not undone -----

  lemma ClientStage(s: State, a: Action)
    requires IsClient(a) && ClientEnabled(s, a)
    ensures ClientApply(s, a).c == s.c && (s.c.Gather? || ClientApply(s, a).epoch == s.epoch)
  {}

  lemma TurnStaysSucceeded(s: State, a: Action)
    requires Succeeded(s) && IsTurn(a) && TurnEnabled(s, a)
    ensures Succeeded(TurnApply(s, a))
  {}

  lemma MoveStaysSucceeded(s: State, a: Action)
    requires s.c.Gather? && s.pstate != map[] ==> s.epoch > 0
    requires Succeeded(s) && IsMove(a) && MoveEnabled(s, a)
    ensures Succeeded(MoveApply(s, a))
  {}

  lemma DiskStaysSucceeded(s: State, a: Action)
    requires s.c.Unlink? ==> s.epoch > 0
    requires Succeeded(s) && IsDisk(a) && DiskEnabled(s, a)
    ensures Succeeded(DiskApply(s, a))
  {}

  lemma StaysSucceeded(s: State, a: Action)
    requires s.c.Gather? && s.pstate != map[] ==> s.epoch > 0
    requires s.c.Unlink? ==> s.epoch > 0
    requires Succeeded(s) && Enabled(s, a)
    ensures Succeeded(Apply(s, a))
  {
    if IsClient(a) { ClientStage(s, a); }
    else if IsTurn(a) { TurnStaysSucceeded(s, a); }
    else if IsMove(a) { MoveStaysSucceeded(s, a); }
    else if IsDisk(a) { DiskStaysSucceeded(s, a); }
  }

  lemma NextStaysSucceeded(s: State, s': State)
    requires s.c.Gather? && s.pstate != map[] ==> s.epoch > 0
    requires s.c.Unlink? ==> s.epoch > 0
    requires Succeeded(s) && Next(s, s')
    ensures Succeeded(s')
  {
    var a :| Acts(s, a, s') && ExecInTime(s, a);
    StaysSucceeded(s, a);
  }

  lemma RunPastEpoch(run: Run, i: nat)
    requires i < |run|
    ensures var s := run[i];
            (s.c.Gather? && s.pstate != map[] ==> s.epoch > 0) && (s.c.Unlink? ==> s.epoch > 0)
  {
    RunStage(run, i);
  }

  lemma {:induction false} RunStaysSucceeded(run: Run, i: nat, j: nat)
    requires i <= j < |run| && Succeeded(run[i])
    ensures Succeeded(run[j])
  {
    if i < j {
      RunStaysSucceeded(run, i, j - 1);
      RunPastEpoch(run, j - 1);
      StepIsNext(run, j - 1);
      NextStaysSucceeded(run[j - 1], run[j]);
    }
  }

  /**
    After the first success every later state of the disk can be restarted from, whatever
    ends or crashes in between and whether or not the coordinator gives up, until a
    manifest that names nobody has been written.
   */
  lemma CrashConsistency(run: Run, i: nat, j: nat)
    requires i <= j < |run| && Restartable(run[i])
    ensures Restartable(run[j]) || NamesNobody(run[j])
  {
    RestartableIff(run, i);
    RunStaysSucceeded(run, i, j);
    RestartableIff(run, j);
  }

  // ----- when a directory becomes complete, and when it is removed -----

  /** A new manifest makes its directory complete exactly if some process is left. */
  lemma ManifestCompleteIff(run: Run, i: nat)
    requires i + 1 < |run| && Acts(run[i], FillManifest, run[i + 1])
    ensures HasComplete(run[i + 1], run[i].epoch) <==> run[i].procs != map[]
  {
    RunFilled(run, i, run[i + 1]);
    FilledIsComplete(run[i], run[i + 1]);
  }

  /** What filling the manifest does, in a state of a run. */
  predicate Fills(s: State, s': State) {
    && s.c.ScanImages? && StageOK(s) && ManifestFilled(s, s')
    && s.disk[s.epoch].images.Keys == s.procs.Keys && s.pstate.Keys == s.procs.Keys
    && s.numPeers == |s.procs.Keys| && Completed(s) == s.procs.Keys
    && forall p | p in s.disk[s.epoch].images :: s.disk[s.epoch].images[p].numPeers == s.numPeers
  }

  lemma FillStep(s: State)
    requires Inv(s) && DiskEnabled(s, FillManifest)
    ensures Fills(s, DiskApply(s, FillManifest))
  {
    FillIs(s);
    ScanFindsAll(s);
    EveryoneIsDone(s);
  }

  lemma RunInv(run: Run, i: nat)
    requires i < |run|
    ensures Inv(run[i])
  {
    RunGood(run, i);
  }

  lemma RunFilled(run: Run, i: nat, s': State)
    requires i < |run| && Acts(run[i], FillManifest, s')
    ensures Fills(run[i], s')
  {
    RunInv(run, i);
    DiskActs(run[i], FillManifest, s');
    FillStep(run[i]);
  }

  lemma EveryoneIsDone(s: State)
    requires KeysOK(s) && ClientsOK(s) && s.c.ScanImages?
    ensures Completed(s) == s.procs.Keys
  {
    forall p | p in s.pstate
      ensures s.pstate[p].PComplete?
    {
      assert ClientOK(s, p);
    }
  }

  lemma FilledIsComplete(s: State, s': State)
    requires Fills(s, s')
    ensures HasComplete(s', s.epoch) <==> s.procs != map[]
    ensures forall e: nat :: e != s.epoch ==> (HasComplete(s', e) <==> HasComplete(s, e))
    ensures !HasComplete(s, s.epoch)
  {}

  lemma DiskKeepsComplete(s: State, a: Action, e: nat)
    requires IsDisk(a) && !a.FillManifest? && !IsUnlink(a) && DiskEnabled(s, a)
    ensures HasComplete(DiskApply(s, a), e) <==> HasComplete(s, e)
  {}

  lemma UnlinkedIsNotNew(s: State, s': State, e: nat)
    requires OnlyUnlinks(s, s') && HasComplete(s', e)
    ensures HasComplete(s, e) || s.c.e == e
  {}

  lemma UnlinkStep(s: State, a: Action, e: nat)
    requires IsUnlink(a) && DiskEnabled(s, a) && HasComplete(DiskApply(s, a), e)
    ensures HasComplete(s, e)
  {}

  lemma NewImageKeeps(s: State, s': State, p: Pid, e: nat)
    requires StageOK(s) && NewImage(s, s', p)
    ensures HasComplete(s', e) <==> HasComplete(s, e)
  {}

  /** A directory becomes complete only when its manifest is filled, and loses that only by unlinking. */
  predicate CompleteOnlyBy(s: State, a: Action, s': State, e: nat) {
    && (HasComplete(s', e) && !HasComplete(s, e) ==> a.FillManifest? && e == s.epoch)
    && (HasComplete(s, e) && !HasComplete(s', e) ==> IsUnlink(a))
  }

  lemma FillComplete(s: State, e: nat)
    requires Inv(s) && DiskEnabled(s, FillManifest)
    ensures CompleteOnlyBy(s, FillManifest, DiskApply(s, FillManifest), e)
  {
    FillStep(s);
    FilledIsComplete(s, DiskApply(s, FillManifest));
  }

  lemma WriteComplete(s: State, a: Action, e: nat)
    requires Inv(s) && a.WriteImage? && ClientEnabled(s, a)
    ensures CompleteOnlyBy(s, a, ClientApply(s, a), e)
  {
    WriteStep(s, a);
    NewImageKeeps(s, ClientApply(s, a), a.p, e);
  }

  lemma CompleteStep(s: State, a: Action, s': State, e: nat)
    requires Inv(s) && DiskEvent(s, a, s')
    ensures CompleteOnlyBy(s, a, s', e) && (IsUnlink(a) ==> OnlyUnlinks(s, s'))
  {
    if a.FillManifest? { FillComplete(s, e); }
    else if a.WriteImage? { WriteComplete(s, a, e); }
    else if IsUnlink(a) { UnlinkComplete(s, a, e); UnlinkIs(s, a); }
    else if IsDisk(a) { DiskKeepsComplete(s, a, e); }
  }

  lemma CompleteNext(s: State, s': State, e: nat) returns (a: Action)
    requires Inv(s) && Next(s, s')
    ensures CompleteOnlyBy(s, a, s', e) && (IsUnlink(a) ==> OnlyUnlinks(s, s'))
    ensures Acts(s, a, s')
  {
    a := NextEvent(s, s');
    CompleteStep(s, a, s', e);
  }

  lemma RunComplete(run: Run, i: nat, e: nat) returns (a: Action)
    requires i + 1 < |run|
    ensures CompleteOnlyBy(run[i], a, run[i + 1], e) && (IsUnlink(a) ==> OnlyUnlinks(run[i], run[i + 1]))
    ensures Acts(run[i], a, run[i + 1])
  {
    RunInv(run, i);
    StepIsNext(run, i);
    a := CompleteNext(run[i], run[i + 1], e);
  }

  lemma UnlinkComplete(s: State, a: Action, e: nat)
    requires IsUnlink(a) && DiskEnabled(s, a)
    ensures HasComplete(DiskApply(s, a), e) ==> HasComplete(s, e)
  {
    if HasComplete(DiskApply(s, a), e) { UnlinkStep(s, a, e); }
  }

  /** The first success is the step that fills the manifest of epoch 0. */
  lemma FirstSuccess(run: Run, i: nat)
    requires i + 1 < |run| && !Restartable(run[i]) && Restartable(run[i + 1])
    ensures Acts(run[i], FillManifest, run[i + 1]) && run[i].epoch == 0 && run[i].procs != map[]
  {
    var e: nat :| HasComplete(run[i + 1], e);
    assert !HasComplete(run[i], e);
    var a := RunComplete(run, i, e);
    ManifestCompleteIff(run, i);
    RestartableIff(run, i);
  }

  /**
    A complete directory loses a file only while another one is complete, so the previous
    checkpoint is removed only after the next one can be restarted from. The exception is
    a computation in which nobody is left.
   */
  lemma RemovedOnlyAfterwards(run: Run, i: nat, e: nat) returns (e': nat)
    requires i + 1 < |run| && HasComplete(run[i], e) && !HasComplete(run[i + 1], e)
    ensures run[i].procs == map[] || (e' != e && HasComplete(run[i], e') && HasComplete(run[i + 1], e'))
  {
    var a := RunComplete(run, i, e);
    RunStage(run, i);
    e' := OtherComplete(run[i], run[i + 1], e);
  }

  lemma OtherComplete(s: State, s': State, e: nat) returns (e': nat)
    requires StageOK(s) && OnlyUnlinks(s, s') && HasComplete(s, e) && !HasComplete(s', e)
    ensures s.procs == map[] || (e' != e && HasComplete(s, e') && HasComplete(s', e'))
  {
    e' := if s.c.success then s.epoch else s.epoch - 1;
    assert HasManifest(s, e') && s'.disk[e'] == s.disk[e'];
  }

  predicate NamesTheDone(s: State, s': State) {
    && s.epoch in s'.disk && s'.c.SendResume?
    && s'.disk[s.epoch].manifest == Names(Completed(s)) && Completed(s) == s.procs.Keys
    && s'.disk[s.epoch].images.Keys == s.procs.Keys
  }

  /**
    A written manifest names exactly the processes whose XND_CKPT_DONE the coordinator
    has received, and these are all processes of the computation.
   */
  lemma ManifestNamesTheDone(run: Run, i: nat)
    requires i + 1 < |run| && Acts(run[i], FillManifest, run[i + 1])
    ensures NamesTheDone(run[i], run[i + 1])
  {
    RunFilled(run, i, run[i + 1]);
    FilledNames(run[i], run[i + 1]);
  }

  lemma FilledNames(s: State, s': State)
    requires Fills(s, s')
    ensures NamesTheDone(s, s')
  {}
}
