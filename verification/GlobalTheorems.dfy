/**
  The guarantees of the whole system: coordinator, clients and disk together.
 */
module GlobalTheorems {
  import opened CheckpointProtocol
  import opened ProtocolInvariant
  import T = ThreadSuspension
  import SI = SuspensionInvariant
  import ST = SuspensionTheorems

  /**
    What the theorems assume of the threads: either every thread has left the previous
    barrier before the next scan, or no thread slips through the tests of a last pass.
   */
  datatype Assumption = EveryoneLeft | NobodySlips

  ghost predicate Assumed(m: Assumption, s: State) {
    forall p | p in s.procs ::
      if m.EveryoneLeft? then s.procs[p].ts.k.ResetArrived? ==> ST.NoStragglers(s.procs[p].ts)
      else s.procs[p].ts.slipped == {}
  }

  /** A client satisfies the invariants of its own suspension protocol. */
  predicate ThreadsSound(m: Assumption, ts: T.State) {
    SI.Inv(ts) && (m.EveryoneLeft? ==> ST.Settled(ts) && ST.Caught(ts))
  }

  predicate ClientsSound(m: Assumption, s: State) { forall p | p in s.procs :: ThreadsSound(m, s.procs[p].ts) }

  predicate ImageSound(i: Image) { SI.Inv(i.ts) && i.ts.k.Frozen? && ST.Held(i.ts) }

  predicate ImagesSound(s: State) {
    forall e, p | e in s.disk && p in s.disk[e].images :: ImageSound(s.disk[e].images[p])
  }

  /** Until the first XND_RESUME_AFTER_CKPT, what is on disk is what the clients are. */
  predicate ImageIsCurrent(s: State, p: Pid)
    requires p in s.procs
  {
    Round(s.c) && s.epoch in s.disk && p in s.disk[s.epoch].images ==>
      ST.SameUserState(s.disk[s.epoch].images[p].ts, s.procs[p].ts)
  }

  predicate ImagesCurrent(s: State) { forall p | p in s.procs :: ImageIsCurrent(s, p) }

  predicate Sound(m: Assumption, s: State) { ClientsSound(m, s) && ImagesSound(s) && ImagesCurrent(s) }

  ghost predicate Acts(s: State, a: Action, s': State) { Enabled(s, a) && s' == Apply(s, a) }

  /** Exec later than that leaves the process at epoch 0: EpochsAgreeIff. */
  predicate ExecInTime(s: State, a: Action) { a.Exec? ==> s.epoch == 0 }

  ghost predicate Next(s: State, s': State) { exists a :: Acts(s, a, s') && ExecInTime(s, a) }

  ghost predicate StepAt(m: Assumption, run: seq<State>, i: nat)
    requires i + 1 < |run|
  {
    Assumed(m, run[i]) && Next(run[i], run[i + 1])
  }

  ghost predicate IsRunUnder(m: Assumption, run: seq<State>) {
    run != [] && run[0] == Init() && forall i: nat | i + 1 < |run| :: StepAt(m, run, i)
  }

  /** A run from the initial state that meets one of the two assumptions. */
  ghost predicate IsRun(run: seq<State>) { IsRunUnder(EveryoneLeft, run) || IsRunUnder(NobodySlips, run) }

  lemma ShortestRun()
    ensures IsRun([Init()])
  {
    assert IsRunUnder(NobodySlips, [Init()]);
  }

  type Run = run: seq<State> | IsRun(run) ghost witness (ShortestRun(); [Init()])

  ghost function AssumptionOf(run: Run): Assumption {
    if IsRunUnder(EveryoneLeft, run) then EveryoneLeft else NobodySlips
  }

  // ----- soundness of the clients and their images -----

  /** A client whose threads wait for the image to be written. */
  lemma HeldNow(m: Assumption, s: State, p: Pid)
    requires ClientsSound(m, s) && Assumed(m, s) && p in s.procs && SI.FrozenPhase(s.procs[p].ts.k)
    ensures ST.Held(s.procs[p].ts)
  {
    var ts := s.procs[p].ts;
    if m.EveryoneLeft? { ST.CaughtIsHeld(ts); } else { ST.SafeIsHeld(ts); }
  }

  lemma ForkerIsNotFrozen(m: Assumption, s: State, a: Action)
    requires ClientsSound(m, s) && Assumed(m, s) && a.Fork? && MemberEnabled(s, a)
    ensures !s.procs[a.parent].ts.k.AwaitResume?
  {
    if s.procs[a.parent].ts.k.AwaitResume? {
      HeldNow(m, s, a.parent);
      WrapIsOutside(s.procs[a.parent].ts, a.t);
    }
  }

  lemma WrapIsOutside(ts: T.State, t: T.Tid)
    requires SI.Inv(ts) && t in ts.threads && ts.threads[t].pc.Wrap?
    ensures ts.threads[t].h.NoHandler?
  {
    assert SI.LocalOK(ts, t);
  }

  /** A step of a client's own threads, or of its checkpoint thread alone. */
  lemma ThreadsStep(m: Assumption, ts: T.State, a: T.Action)
    requires ThreadsSound(m, ts) && T.Enabled(ts, a)
    requires m.EveryoneLeft? && ts.k.ResetArrived? ==> ST.NoStragglers(ts)
    ensures ThreadsSound(m, T.Apply(ts, a))
  {
    ST.StepInv(ts, a);
    if m.EveryoneLeft? { CalmStep(ts, a); }
  }

  lemma CalmStep(ts: T.State, a: T.Action)
    requires SI.Inv(ts) && ST.Settled(ts) && ST.Caught(ts) && T.Enabled(ts, a)
    requires ts.k.ResetArrived? ==> ST.NoStragglers(ts)
    ensures ST.Settled(T.Apply(ts, a)) && ST.Caught(T.Apply(ts, a))
  {
    ST.WaitFromInv(ts);
    ST.SettledStep(ts, a);
    ST.CaughtStep(ts, a);
  }

  lemma ReceivedSound(m: Assumption, c: Client)
    requires ThreadsSound(m, c.ts) && c.toClient != [] && Expected(c.ts.k, c.toClient[0])
    ensures ThreadsSound(m, Received(c).ts) && ST.SameUserState(c.ts, Received(c).ts)
  {
    var a: T.Action := match c.ts.k
      case Idle => T.Request
      case AwaitStart => T.Start
      case AwaitResume => T.Resume
      case RestartConnect => T.RestartResume;
    SyncSound(m, c.ts, a);
    assert Received(c).ts == T.SyncApply(c.ts, a);
  }

  lemma SyncSound(m: Assumption, ts: T.State, a: T.Action)
    requires ThreadsSound(m, ts) && T.IsSync(a) && T.SyncEnabled(ts, a)
    ensures ThreadsSound(m, T.SyncApply(ts, a)) && ST.SameUserState(ts, T.SyncApply(ts, a))
  {
    SI.SyncStep(ts, a);
    if m.EveryoneLeft? {
      ST.SettledSync(ts, a);
      ST.CaughtSync(ts, a);
    }
  }

  lemma SetSound(m: Assumption, s: State, p: Pid, c': Client)
    requires ClientsSound(m, s) && ImagesSound(s) && p in s.procs && ThreadsSound(m, c'.ts)
    ensures ClientsSound(m, SetClient(s, p, c')) && ImagesSound(SetClient(s, p, c'))
  {}

  lemma SetCurrent(s: State, p: Pid, c': Client)
    requires ImagesCurrent(s) && p in s.procs && ImageIsCurrent(SetClient(s, p, c'), p)
    ensures ImagesCurrent(SetClient(s, p, c'))
  {
    var s' := SetClient(s, p, c');
    forall q | q in s'.procs
      ensures ImageIsCurrent(s', q)
    {
      if q != p { assert ImageIsCurrent(s, q); }
    }
  }

  /** During a round a client with an image on disk is between its image and its resume. */
  lemma HasImage(s: State, p: Pid)
    requires Inv(s) && p in s.procs && Round(s.c) && p in s.disk[s.epoch].images
    ensures s.epoch in s.disk && (s.procs[p].ts.k.ImageWritten? || s.procs[p].ts.k.AwaitResume?)
  {
    assert ClientOK(s, p) && ImageOK(s, p);
  }

  lemma InnerSound(m: Assumption, s: State, a: Action)
    requires Inv(s) && Sound(m, s) && Assumed(m, s) && a.Inner? && ClientEnabled(s, a)
    ensures Sound(m, ClientApply(s, a))
  {
    var c := s.procs[a.p];
    ThreadsStep(m, c.ts, a.a);
    SetSound(m, s, a.p, InnerApply(c, a.a));
    InnerCurrent(m, s, a);
  }

  lemma InnerCurrent(m: Assumption, s: State, a: Action)
    requires Inv(s) && Sound(m, s) && Assumed(m, s) && a.Inner? && ClientEnabled(s, a)
    ensures ImagesCurrent(ClientApply(s, a))
  {
    var c := s.procs[a.p];
    if Round(s.c) && a.p in s.disk[s.epoch].images {
      HasImage(s, a.p);
      HeldNow(m, s, a.p);
      ST.HeldIsStable(c.ts, a.a);
      assert ImageIsCurrent(s, a.p);
    }
    SetCurrent(s, a.p, InnerApply(c, a.a));
  }

  lemma ReceiveSound(m: Assumption, s: State, a: Action)
    requires ClientsOK(s) && Sound(m, s) && IsReceive(a) && ClientEnabled(s, a)
    ensures Sound(m, ClientApply(s, a))
  {
    ReceiveIsExpected(s, a);
    ExpectedSound(m, s, a);
  }

  lemma ExpectedSound(m: Assumption, s: State, a: Action)
    requires IsReceive(a) && ClientEnabled(s, a) && Waits(s.procs[a.p])
    requires Expected(s.procs[a.p].ts.k, s.procs[a.p].toClient[0]) && Sound(m, s)
    ensures Sound(m, ClientApply(s, a))
  {
    ReceiveApply(s, a);
    ReceivedSound(m, s.procs[a.p]);
    SameUserSound(m, s, a.p, Received(s.procs[a.p]));
  }

  lemma SendSound(m: Assumption, s: State, a: Action)
    requires Sound(m, s) && (a.Ready? || a.Done?) && ClientEnabled(s, a)
    ensures Sound(m, ClientApply(s, a))
  {
    var c' := SendApply(s, a);
    SentSound(m, s.procs[a.p], c');
    SameUserSound(m, s, a.p, c');
  }

  lemma SentSound(m: Assumption, c: Client, c': Client)
    requires ThreadsSound(m, c.ts)
    requires IsSent(c, c')
    ensures ThreadsSound(m, c'.ts) && ST.SameUserState(c.ts, c'.ts)
  {
    SyncSound(m, c.ts, if c.ts.k.Pending? then T.Ready else T.SendDone);
  }

  lemma SameUserSound(m: Assumption, s: State, p: Pid, c': Client)
    requires Sound(m, s) && p in s.procs && ThreadsSound(m, c'.ts) && ST.SameUserState(s.procs[p].ts, c'.ts)
    ensures Sound(m, SetClient(s, p, c'))
  {
    SetSound(m, s, p, c');
    assert ImageIsCurrent(s, p);
    SetCurrent(s, p, c');
  }

  lemma WriteImageSound(m: Assumption, s: State, p: Pid)
    requires Inv(s) && Sound(m, s) && Assumed(m, s) && p in s.procs && s.procs[p].ts.k.Frozen?
    ensures Sound(m, WriteImageApply(s, p))
  {
    ImageHasItsPlace(s, p);
    HeldNow(m, s, p);
    WriteImageSoundAt(m, s, p);
  }

  lemma WriteImageSoundAt(m: Assumption, s: State, p: Pid)
    requires Sound(m, s) && p in s.procs && s.procs[p].ts.k.Frozen? && ST.Held(s.procs[p].ts)
    requires s.procs[p].epoch == s.epoch && s.epoch in s.disk && p !in s.disk[s.epoch].images
    ensures Sound(m, WriteImageApply(s, p))
  {
    var c, d := s.procs[p], s.disk[s.epoch];
    var image := Image(c.ts, c.epoch, c.numPeers);
    SyncSound(m, c.ts, T.WriteImage);
    SetSound(m, s, p, Sync(c, T.WriteImage));
    var s1 := SetClient(s, p, Sync(c, T.WriteImage));
    var s' := s1.(disk := s.disk[s.epoch := d.(images := d.images[p := image])]);
    AddImage(s1, p, image);
    assert ClientsSound(m, s');
    WriteImageCurrent(s, p, s');
  }

  lemma WriteImageCurrent(s: State, p: Pid, s': State)
    requires ImagesCurrent(s) && p in s.procs && s.procs[p].ts.k.Frozen? && s.epoch in s.disk
    requires var c, d := s.procs[p], s.disk[s.epoch];
             && ST.SameUserState(c.ts, Sync(c, T.WriteImage).ts)
             && s' == SetClient(s, p, Sync(c, T.WriteImage)).(
                        disk := s.disk[s.epoch := d.(images := d.images[p := Image(c.ts, c.epoch, c.numPeers)])])
    ensures ImagesCurrent(s')
  {
    forall q | q in s'.procs
      ensures ImageIsCurrent(s', q)
    {
      if q != p { assert ImageIsCurrent(s, q); }
    }
  }

  lemma AddImage(s: State, p: Pid, image: Image)
    requires ImagesSound(s) && s.epoch in s.disk && ImageSound(image)
    ensures var d := s.disk[s.epoch];
            ImagesSound(s.(disk := s.disk[s.epoch := d.(images := d.images[p := image])]))
  {}

  lemma RegisterSound(m: Assumption, s: State, p: Pid)
    requires Sound(m, s) && s.c.Gather? && p in s.procs
    ensures Sound(m, RegisterApply(s, p))
  {}

  lemma DieSound(m: Assumption, s: State, p: Pid)
    requires Sound(m, s) && p in s.procs
    ensures Sound(m, SetClient(s, p, s.procs[p].(alive := false)))
  {
    SameUserSound(m, s, p, s.procs[p].(alive := false));
  }

  lemma ClientSound(m: Assumption, s: State, a: Action)
    requires Inv(s) && Sound(m, s) && Assumed(m, s) && IsClient(a) && ClientEnabled(s, a)
    ensures Sound(m, ClientApply(s, a))
  {
    if a.Inner? { InnerSound(m, s, a); }
    else if a.WriteImage? { ImageSoundStep(m, s, a); }
    else { MessageSound(m, s, a); }
  }

  lemma ImageSoundStep(m: Assumption, s: State, a: Action)
    requires Inv(s) && Sound(m, s) && Assumed(m, s) && a.WriteImage? && ClientEnabled(s, a)
    ensures Sound(m, ClientApply(s, a))
  {
    WriteImageSound(m, s, a.p);
  }

  lemma MessageSound(m: Assumption, s: State, a: Action)
    requires ClientsOK(s) && Sound(m, s) && IsClient(a) && !a.Inner? && !a.WriteImage? && ClientEnabled(s, a)
    ensures Sound(m, ClientApply(s, a))
  {
    if IsReceive(a) { ReceiveSound(m, s, a); }
    else if a.Ready? || a.Done? { SendSound(m, s, a); }
    else { EndSound(m, s, a); }
  }

  lemma EndSound(m: Assumption, s: State, a: Action)
    requires Sound(m, s) && (a.Register? || a.Die?) && ClientEnabled(s, a)
    ensures Sound(m, ClientApply(s, a))
  {
    if a.Register? { RegisterSound(m, s, a.p); } else { DieSound(m, s, a.p); }
  }

  lemma MemberSound(m: Assumption, s: State, a: Action)
    requires Sound(m, s) && IsMember(a) && MemberEnabled(s, a)
    ensures Sound(m, MemberApply(s, a))
  {
    if a.Reap? {
      ReapSound(m, s, a.p);
    } else {
      NewThreadsSound(m, a.mem, a.regs);
      JoinKeeps(s, a);
      JoinedSound(m, s, MemberApply(s, a), a.p);
    }
  }

  lemma NewThreadsSound(m: Assumption, mem: int, regs: int)
    ensures ThreadsSound(m, T.Init(mem, regs)) && ThreadsSound(m, T.InitForked(mem, regs))
  {
    SI.InitInv(mem, regs);
  }

  lemma JoinKeeps(s: State, a: Action)
    requires IsMember(a) && !a.Reap? && MemberEnabled(s, a)
    ensures var s' := MemberApply(s, a);
            && s'.disk == s.disk && s'.c == s.c && !Round(s.c) && a.p in s'.procs
            && (s'.procs[a.p].ts == T.Init(a.mem, a.regs) || s'.procs[a.p].ts == T.InitForked(a.mem, a.regs))
            && forall q | q in s'.procs && q != a.p :: q in s.procs && s'.procs[q] == s.procs[q]
  {}

  lemma JoinedSound(m: Assumption, s: State, s': State, p: Pid)
    requires Sound(m, s) && !Round(s.c) && s'.disk == s.disk && s'.c == s.c
    requires p in s'.procs && ThreadsSound(m, s'.procs[p].ts)
    requires forall q | q in s'.procs && q != p :: q in s.procs && s'.procs[q] == s.procs[q]
    ensures Sound(m, s')
  {}

  lemma ReapSound(m: Assumption, s: State, p: Pid)
    requires Sound(m, s) && MemberEnabled(s, Reap(p))
    ensures Sound(m, MemberApply(s, Reap(p)))
  {}

  /** No thread of any client moves, and no image is new. */
  predicate OnlyRecords(s: State, s': State) {
    && s'.procs.Keys == s.procs.Keys
    && (forall p | p in s.procs :: s'.procs[p].ts == s.procs[p].ts)
    && (forall e, p | e in s'.disk && p in s'.disk[e].images ::
          e in s.disk && p in s.disk[e].images && s'.disk[e].images[p] == s.disk[e].images[p])
    && (Round(s'.c) && s'.epoch in s'.disk && s'.disk[s'.epoch].images != map[] ==> Round(s.c) && s'.epoch == s.epoch)
  }

  lemma OnlyRecordsSound(m: Assumption, s: State, s': State)
    requires Sound(m, s) && OnlyRecords(s, s')
    ensures Sound(m, s')
  {
    forall p | p in s'.procs
      ensures ImageIsCurrent(s', p)
    {
      assert ImageIsCurrent(s, p);
    }
  }

  lemma TurnRecords(s: State, a: Action)
    requires IsTurn(a) && TurnEnabled(s, a)
    ensures OnlyRecords(s, TurnApply(s, a))
  {
    if a.SendRequest? || a.CollectReady? || a.CollectDone? { MessageRecords(s, a); }
  }

  lemma MessageRecords(s: State, a: Action)
    requires (a.SendRequest? || a.CollectReady? || a.CollectDone?) && TurnEnabled(s, a)
    ensures OnlyRecords(s, TurnApply(s, a))
  {}

  lemma MoveRecords(s: State, a: Action)
    requires IsMove(a) && MoveEnabled(s, a)
    ensures OnlyRecords(s, MoveApply(s, a))
  {}

  lemma DiskRecords(s: State, a: Action)
    requires IsDisk(a) && DiskEnabled(s, a)
    ensures OnlyRecords(s, DiskApply(s, a))
  {
    if IsUnlink(a) { UnlinkRecords(s, a); }
  }

  lemma UnlinkRecords(s: State, a: Action)
    requires IsUnlink(a) && DiskEnabled(s, a)
    ensures OnlyRecords(s, DiskApply(s, a))
  {}

  lemma TurnSound(m: Assumption, s: State, a: Action)
    requires Sound(m, s) && IsTurn(a) && TurnEnabled(s, a)
    ensures Sound(m, TurnApply(s, a))
  {
    TurnRecords(s, a);
    OnlyRecordsSound(m, s, TurnApply(s, a));
  }

  lemma MoveSound(m: Assumption, s: State, a: Action)
    requires Sound(m, s) && IsMove(a) && MoveEnabled(s, a)
    ensures Sound(m, MoveApply(s, a))
  {
    MoveRecords(s, a);
    OnlyRecordsSound(m, s, MoveApply(s, a));
  }

  lemma DiskSound(m: Assumption, s: State, a: Action)
    requires Sound(m, s) && IsDisk(a) && DiskEnabled(s, a)
    ensures Sound(m, DiskApply(s, a))
  {
    DiskRecords(s, a);
    OnlyRecordsSound(m, s, DiskApply(s, a));
  }

  lemma RestartSound(m: Assumption, s: State, e: nat)
    requires ImagesSound(s) && CrashEnabled(s, e)
    ensures Sound(m, CrashApply(s, e))
  {
    RestartedClients(m, s, e);
    assert !Round(CrashApply(s, e).c) && CrashApply(s, e).disk == s.disk;
  }

  lemma RestartedClients(m: Assumption, s: State, e: nat)
    requires ImagesSound(s) && CrashEnabled(s, e)
    ensures ClientsSound(m, CrashApply(s, e))
  {
    var d := s.disk[e];
    forall p | p in d.manifest.pids
      ensures ThreadsSound(m, T.RestartOf(d.images[p].ts))
    {
      assert ImageSound(d.images[p]);
      RestartedThreads(m, d.images[p].ts);
    }
  }

  lemma RestartedThreads(m: Assumption, ts: T.State)
    requires SI.Inv(ts) && ts.k.Frozen? && ST.Held(ts)
    ensures ThreadsSound(m, T.RestartOf(ts))
  {
    SI.RestartInv(ts);
  }

  lemma StepSound(m: Assumption, s: State, a: Action)
    requires Inv(s) && Sound(m, s) && Assumed(m, s) && Enabled(s, a)
    ensures Sound(m, Apply(s, a))
  {
    if IsClient(a) { ClientSound(m, s, a); }
    else if IsMember(a) { MemberSound(m, s, a); }
    else if IsTurn(a) { TurnSound(m, s, a); }
    else if IsMove(a) { MoveSound(m, s, a); }
    else if IsDisk(a) { DiskSound(m, s, a); }
    else { RestartSound(m, s, a.e); }
  }

  lemma StepKeepsInv(m: Assumption, s: State, a: Action)
    requires Inv(s) && Sound(m, s) && Assumed(m, s) && Enabled(s, a) && ExecInTime(s, a)
    ensures Inv(Apply(s, a))
  {
    if a.Fork? { ForkerIsNotFrozen(m, s, a); }
    StepInv(s, a);
  }

  // ----- completions -----

  function Completed(s: State): set<Pid> { set p | p in s.pstate && s.pstate[p].PComplete? }

  /** The coordinator counts the completions it has received. */
  predicate CountOK(s: State) { s.c.Collect? ==> s.c.total == |Completed(s)| }

  lemma TurnCounts(s: State, a: Action)
    requires CountOK(s) && IsTurn(a) && TurnEnabled(s, a)
    requires a.CollectDone? ==> s.pstate[a.p].PInProgress?
    ensures CountOK(TurnApply(s, a))
  {
    if a.CollectDone? { CompletionCounts(s, a.p); }
  }

  lemma CompletionCounts(s: State, p: Pid)
    requires CountOK(s) && TurnEnabled(s, CollectDone(p)) && s.pstate[p].PInProgress?
    ensures CountOK(TurnApply(s, CollectDone(p)))
  {
    var s' := TurnApply(s, CollectDone(p));
    assert Completed(s') == Completed(s) + (if s'.pstate != s.pstate then {p} else {});
  }

  lemma TurnStepCounts(s: State, a: Action)
    requires CountOK(s) && ClientsOK(s) && IsTurn(a) && TurnEnabled(s, a)
    ensures CountOK(TurnApply(s, a))
  {
    assert ClientOK(s, a.p);
    TurnIsExpected(s, a);
    TurnCounts(s, a);
  }

  lemma MoveCounts(s: State, a: Action)
    requires CountOK(s) && IsMove(a) && MoveEnabled(s, a) && (s.c == SendStart({}) ==> Completed(s) == {})
    ensures CountOK(MoveApply(s, a))
  {
    assert Completed(MoveApply(s, a)) == Completed(s);
  }

  lemma NobodyHasCompleted(s: State)
    requires KeysOK(s) && ClientsOK(s) && s.c == SendStart({})
    ensures Completed(s) == {}
  {
    forall p | p in s.pstate
      ensures !s.pstate[p].PComplete?
    {
      assert ClientOK(s, p);
    }
  }

  lemma ClientCounts(s: State, a: Action)
    requires CountOK(s) && IsClient(a) && ClientEnabled(s, a)
    ensures CountOK(ClientApply(s, a))
  {
    assert a.Register? || Completed(ClientApply(s, a)) == Completed(s);
  }

  lemma MemberCounts(s: State, a: Action)
    requires IsMember(a) && MemberEnabled(s, a)
    ensures CountOK(MemberApply(s, a))
  {}

  lemma DiskCounts(s: State, a: Action)
    requires IsDisk(a) && DiskEnabled(s, a)
    ensures CountOK(DiskApply(s, a))
  {}

  lemma StepCounts(s: State, a: Action)
    requires CountOK(s) && ClientsOK(s) && KeysOK(s) && Enabled(s, a)
    ensures CountOK(Apply(s, a))
  {
    if IsClient(a) { ClientCounts(s, a); }
    else if IsMember(a) { MemberCounts(s, a); }
    else if IsTurn(a) { TurnStepCounts(s, a); }
    else if IsMove(a) { MoveStepCounts(s, a); }
    else if IsDisk(a) { DiskCounts(s, a); }
  }

  lemma MoveStepCounts(s: State, a: Action)
    requires CountOK(s) && ClientsOK(s) && KeysOK(s) && IsMove(a) && MoveEnabled(s, a)
    ensures CountOK(MoveApply(s, a))
  {
    if s.c == SendStart({}) { NobodyHasCompleted(s); }
    MoveCounts(s, a);
  }

  ghost predicate Good(m: Assumption, s: State) { Inv(s) && Sound(m, s) && CountOK(s) }

  lemma NextGood(m: Assumption, s: State, s': State)
    requires Good(m, s) && Assumed(m, s) && Next(s, s')
    ensures Good(m, s')
  {
    var a :| Acts(s, a, s') && ExecInTime(s, a);
    ActGood(m, s, a);
  }

  lemma ActGood(m: Assumption, s: State, a: Action)
    requires Good(m, s) && Assumed(m, s) && Enabled(s, a) && ExecInTime(s, a)
    ensures Good(m, Apply(s, a))
  {
    StepSound(m, s, a);
    StepKeepsInv(m, s, a);
    StepCounts(s, a);
  }

  lemma StepIsNext(run: Run, i: nat)
    requires i + 1 < |run|
    ensures Assumed(AssumptionOf(run), run[i]) && Next(run[i], run[i + 1])
  {
    assert StepAt(AssumptionOf(run), run, i);
  }

  ghost predicate GoodAt(run: Run, i: nat) { i < |run| && Good(AssumptionOf(run), run[i]) }

  ghost predicate GoodThrough(run: Run, n: nat) { forall i: nat :: i <= n ==> GoodAt(run, i) }

  lemma InitGood(m: Assumption, s: State)
    requires s == Init()
    ensures Good(m, s)
  {}

  lemma FirstGood(run: Run)
    ensures GoodThrough(run, 0)
  {
    InitGood(AssumptionOf(run), run[0]);
    assert GoodAt(run, 0);
  }

  lemma StepGood(run: Run, i: nat)
    requires i + 1 < |run| && GoodThrough(run, i)
    ensures GoodThrough(run, i + 1)
  {
    assert GoodAt(run, i);
    StepIsNext(run, i);
    NextGood(AssumptionOf(run), run[i], run[i + 1]);
    assert GoodAt(run, i + 1);
  }

  lemma {:induction false} AllGood(run: Run, i: nat)
    requires i < |run|
    ensures GoodThrough(run, i)
  {
    if i == 0 {
      FirstGood(run);
    } else {
      AllGood(run, i - 1);
      StepGood(run, i - 1);
    }
  }

  /** Every state of every run satisfies both invariants. */
  lemma RunGood(run: Run, i: nat)
    requires i < |run|
    ensures Good(AssumptionOf(run), run[i])
  {
    AllGood(run, i);
    assert GoodAt(run, i);
  }

  // ----- lockstep -----

  /** The state has no surprise in store for anybody who reads a message. */
  predicate NoSurprise(s: State, a: Action) {
    && (IsReceive(a) && Enabled(s, a) ==> Expected(s.procs[a.p].ts.k, s.procs[a.p].toClient[0]))
    && (a.CollectReady? && Enabled(s, a) ==> s.procs[a.p].toCoord[0].CkptReady?)
    && (a.CollectDone? && Enabled(s, a) ==>
          s.pstate[a.p].PInProgress? && (s.procs[a.p].toCoord != [] ==> s.procs[a.p].toCoord[0].CkptDone?))
  }

  lemma GoodNoSurprise(s: State, a: Action)
    requires ClientsOK(s)
    ensures NoSurprise(s, a)
  {
    if IsReceive(a) && ClientEnabled(s, a) { ReceiveIsExpected(s, a); }
    else if IsTurn(a) && TurnEnabled(s, a) { TurnNoSurprise(s, a); }
  }

  lemma TurnNoSurprise(s: State, a: Action)
    requires ClientsOK(s) && IsTurn(a) && TurnEnabled(s, a)
    ensures NoSurprise(s, a)
  {
    assert ClientOK(s, a.p);
    TurnIsExpected(s, a);
  }

  lemma GoodInStep(s: State, p: Pid)
    requires KeysOK(s) && ClientsOK(s) && p in s.pstate
    ensures p in s.procs && InStep(s.pstate[p], s.procs[p], s.numPeers)
  {
    assert ClientOK(s, p);
  }

  /**
    In every run the coordinator's record of each process, the phase of its checkpoint
    thread and the messages in flight match: nobody reads a header he does not expect,
    and no assertion about a process state fails.
   */
  lemma Lockstep(run: Run, i: nat, a: Action)
    requires i < |run|
    ensures NoSurprise(run[i], a)
    ensures forall p | p in run[i].pstate ::
              p in run[i].procs && InStep(run[i].pstate[p], run[i].procs[p], run[i].numPeers)
  {
    RunGood(run, i);
    GoodNoSurprise(run[i], a);
    forall p | p in run[i].pstate
      ensures p in run[i].procs && InStep(run[i].pstate[p], run[i].procs[p], run[i].numPeers)
    {
      GoodInStep(run[i], p);
    }
  }

  // ----- when the coordinator gives up -----

  predicate Dead(s: State, p: Pid) { p in s.procs && p in s.pstate && !s.procs[p].alive }

  /** A listed process has died without completing its checkpoint. */
  predicate Uncompleted(s: State, p: Pid) { Dead(s, p) && s.pstate[p].PInProgress? }

  /**
    The coordinator meets a dead process: it fails to send to it, it counts too few
    processes before a loop, or too few completions after one.
   */
  predicate MeetsTheDead(s: State, a: Action) {
    || ((a.StartOne? || a.ResumeOne? || a.ReleaseOne? || a.NoticeDeath?) && Dead(s, a.p))
    || (a.AllCollected? && exists p | p in s.pstate :: Uncompleted(s, p))
  }

  /**
    The coordinator gives up exactly in the steps in which it meets a dead process. In
    particular it never does while all processes live, and no file it needs is missing.
   */
  lemma GivesUpIff(run: Run, i: nat, a: Action)
    requires i < |run| && Enabled(run[i], a) && run[i].up
    ensures !Apply(run[i], a).up <==> MeetsTheDead(run[i], a)
  {
    if IsClient(a) { ClientStaysUp(run[i], a); }
    else if IsTurn(a) { RunTurn(run, i, a); }
    else if IsMove(a) { RunMove(run, i, a); }
    else if IsDisk(a) { RunDisk(run, i, a); }
  }

  lemma ClientStaysUp(s: State, a: Action)
    requires IsClient(a) && ClientEnabled(s, a)
    ensures ClientApply(s, a).up == s.up && !MeetsTheDead(s, a)
  {}

  lemma RunTurn(run: Run, i: nat, a: Action)
    requires i < |run| && IsTurn(a) && TurnEnabled(run[i], a)
    ensures !TurnApply(run[i], a).up <==> MeetsTheDead(run[i], a)
  {
    RunGood(run, i);
    TurnGivesUpIff(run[i], a);
  }

  lemma RunMove(run: Run, i: nat, a: Action)
    requires i < |run| && IsMove(a) && MoveEnabled(run[i], a)
    ensures !MoveApply(run[i], a).up <==> MeetsTheDead(run[i], a)
  {
    RunGood(run, i);
    MoveGivesUpIff(run[i], a);
  }

  lemma RunDisk(run: Run, i: nat, a: Action)
    requires i < |run| && IsDisk(a) && DiskEnabled(run[i], a)
    ensures DiskApply(run[i], a).up
  {
    RunGood(run, i);
    DiskStep(run[i], a);
  }

  lemma TurnGivesUpIff(s: State, a: Action)
    requires ClientsOK(s) && IsTurn(a) && TurnEnabled(s, a)
    ensures !TurnApply(s, a).up <==> MeetsTheDead(s, a)
  {
    assert ClientOK(s, a.p);
    TurnIsExpected(s, a);
  }

  lemma MoveGivesUpIff(s: State, a: Action)
    requires KeysOK(s) && StageOK(s) && ClientsOK(s) && CountOK(s) && IsMove(a) && MoveEnabled(s, a)
    ensures !MoveApply(s, a).up <==> MeetsTheDead(s, a)
  {
    if a.AllCollected? { CollectedIff(s); }
    MoveMeets(s, a);
  }

  lemma MoveMeets(s: State, a: Action)
    requires IsMove(a) && MoveEnabled(s, a)
    requires a.AllCollected? ==> (s.c.total != s.numPeers <==> exists p | p in s.pstate :: Uncompleted(s, p))
    ensures !MoveApply(s, a).up <==> MeetsTheDead(s, a)
  {}

  /** Too few completions were received exactly if somebody died before completing. */
  lemma CollectedIff(s: State)
    requires KeysOK(s) && StageOK(s) && ClientsOK(s) && CountOK(s) && s.c.Collect? && s.c.todo == {}
    ensures s.c.total != s.numPeers <==> exists p | p in s.pstate :: Uncompleted(s, p)
  {
    if p :| p in s.pstate && Uncompleted(s, p) {
      assert ClientOK(s, p);
    } else {
      forall p | p in s.pstate
        ensures s.pstate[p].PComplete?
      {
        assert ClientOK(s, p) && !Uncompleted(s, p);
      }
      assert Completed(s) == s.pstate.Keys;
    }
  }

  ghost predicate SomebodyDied(s: State) { exists p :: p in s.procs && !s.procs[p].alive }

  /** So a coordinator that has given up has lost a process, which is still on its list. */
  lemma {:induction false} GaveUpAfterADeath(run: Run, i: nat)
    requires i < |run| && !run[i].up
    ensures SomebodyDied(run[i])
  {
    if i > 0 {
      StepIsNext(run, i - 1);
      if !run[i - 1].up { GaveUpAfterADeath(run, i - 1); }
      GaveUpNow(run, i - 1, run[i - 1], run[i]);
    }
  }

  lemma GaveUpNow(run: Run, i: nat, s: State, s': State)
    requires i < |run| && s == run[i] && Next(s, s') && !s'.up && (!s.up ==> SomebodyDied(s))
    ensures SomebodyDied(s')
  {
    var a :| Acts(s, a, s') && ExecInTime(s, a);
    if s.up {
      GivesUpIff(run, i, a);
      GivenUp(s, a);
    } else {
      DownStays(s, a);
    }
  }

  lemma GivenUp(s: State, a: Action)
    requires Enabled(s, a) && MeetsTheDead(s, a) && !Apply(s, a).up
    ensures SomebodyDied(Apply(s, a))
  {
    assert Apply(s, a).procs == s.procs;
    var p := TheDead(s, a);
    assert p in Apply(s, a).procs;
  }

  lemma TheDead(s: State, a: Action) returns (p: Pid)
    requires MeetsTheDead(s, a)
    ensures Dead(s, p)
  {
    if a.AllCollected? { p :| p in s.pstate && Uncompleted(s, p); } else { p := a.p; }
  }

  lemma DownStays(s: State, a: Action)
    requires SomebodyDied(s) && !s.up && Enabled(s, a) && !Apply(s, a).up
    ensures SomebodyDied(Apply(s, a))
  {
    var p :| p in s.procs && !s.procs[p].alive;
    DownActsAreClients(s, a);
    DeadStays(s, a, p);
    assert p in Apply(s, a).procs && !Apply(s, a).procs[p].alive;
  }

  lemma DownActsAreClients(s: State, a: Action)
    requires !s.up && Enabled(s, a) && !Apply(s, a).up
    ensures IsClient(a)
  {}

  lemma DeadStays(s: State, a: Action, p: Pid)
    requires IsClient(a) && ClientEnabled(s, a) && p in s.procs && !s.procs[p].alive
    ensures p in ClientApply(s, a).procs && !ClientApply(s, a).procs[p].alive
  {
    OtherClientSame(s, a, p);
  }

  lemma OtherClientSame(s: State, a: Action, p: Pid)
    requires IsClient(a) && ClientEnabled(s, a) && p in s.procs && p != a.p
    ensures p in ClientApply(s, a).procs && ClientApply(s, a).procs[p] == s.procs[p]
  {
    if a.WriteImage? || a.Register? { OtherThanWriter(s, a, p); }
  }

  lemma OtherThanWriter(s: State, a: Action, p: Pid)
    requires (a.WriteImage? || a.Register?) && ClientEnabled(s, a) && p in s.procs && p != a.p
    ensures p in ClientApply(s, a).procs && ClientApply(s, a).procs[p] == s.procs[p]
  {}

  /** XND_CKPT_START is sent only when every process has answered XND_CKPT_READY. */
  lemma StartFollowsEveryReady(run: Run, i: nat)
    requires i < |run| && run[i].c.SendStart?
    ensures forall p | p in run[i].procs ::
              p in run[i].pstate && (run[i].pstate[p].PReady? || run[i].pstate[p].PInProgress?)
  {
    RunGood(run, i);
    ReadyBeforeStart(run[i]);
  }

  lemma ReadyBeforeStart(s: State)
    requires KeysOK(s) && ClientsOK(s) && s.c.SendStart?
    ensures forall p | p in s.procs :: p in s.pstate && (s.pstate[p].PReady? || s.pstate[p].PInProgress?)
  {
    assert forall p | p in s.procs :: ClientOK(s, p);
  }

  /** No restarted process leaves the restart barrier before every peer has registered. */
  lemma RestartBarrier(run: Run, i: nat, p: Pid)
    requires i < |run| && p in run[i].procs
    requires run[i].c.Gather? || run[i].pstate.Keys != run[i].procs.Keys
    ensures run[i].procs[p].ts.k.RestartConnect? && run[i].procs[p].toClient == []
  {
    RunGood(run, i);
    assert ClientOK(run[i], p);
  }

  // ----- epochs -----

  /**
    A client that is about to write its image has the coordinator's epoch, and the
    directory of that epoch exists and holds no file of that name.
   */
  lemma ImageGoesToTheRightEpoch(run: Run, i: nat, p: Pid)
    requires i < |run| && p in run[i].procs && run[i].procs[p].ts.k.Frozen?
    ensures run[i].procs[p].epoch == run[i].epoch
    ensures run[i].epoch in run[i].disk && p !in run[i].disk[run[i].epoch].images
  {
    RunGood(run, i);
    ImageHasItsPlace(run[i], p);
  }

  /** A client that has read all its messages is at the epoch of an idle coordinator. */
  predicate Agree(s: State) {
    s.c.Idle? ==> forall p | p in s.procs && s.procs[p].toClient == [] :: s.procs[p].epoch == s.epoch
  }

  /**
    Resuming and restarting leave the same epoch on both sides, over any sequence of
    checkpoints, forks, deaths and restarts.
   */
  lemma EpochsAgree(run: Run, i: nat)
    requires i < |run|
    ensures Agree(run[i])
  {
    RunGood(run, i);
    forall p | p in run[i].procs
      ensures ClientOK(run[i], p)
    {}
  }

  ghost predicate AnyNext(s: State, s': State) { exists a :: Acts(s, a, s') }

  /** Runs in which a process may also exec later. */
  ghost predicate AnyStepAt(m: Assumption, run: seq<State>, i: nat)
    requires i + 1 < |run|
  {
    Assumed(m, run[i]) && AnyNext(run[i], run[i + 1])
  }

  ghost predicate IsAnyRun(m: Assumption, run: seq<State>) {
    run != [] && run[0] == Init() && forall i: nat | i + 1 < |run| :: AnyStepAt(m, run, i)
  }

  /** A process executes a new image after the first checkpoint. */
  ghost predicate LateExec(s: State, s': State) { s.epoch > 0 && exists a: Action :: a.Exec? && Acts(s, a, s') }

  ghost predicate LateExecAt(run: seq<State>, i: nat)
    requires i + 1 < |run|
  {
    LateExec(run[i], run[i + 1])
  }

  /** The epochs agree throughout a run if and only if no process execs after the first checkpoint. */
  lemma EpochsAgreeIff(m: Assumption, run: seq<State>)
    requires IsAnyRun(m, run)
    ensures (forall i: nat | i < |run| :: Agree(run[i])) <==> !exists i: nat | i + 1 < |run| :: LateExecAt(run, i)
  {
    if i: nat :| i + 1 < |run| && LateExecAt(run, i) {
      LateExecDisagrees(run[i], run[i + 1]);
    } else {
      forall i: nat | i + 1 < |run|
        ensures StepAt(m, run, i)
      {
        assert AnyStepAt(m, run, i) && !LateExecAt(run, i);
        InTime(run[i], run[i + 1]);
      }
      assert IsRunUnder(m, run);
      forall i: nat | i < |run|
        ensures Agree(run[i])
      {
        EpochsAgree(run, i);
      }
    }
  }

  lemma LateExecDisagrees(s: State, s': State)
    requires LateExec(s, s')
    ensures !Agree(s')
  {
    var a: Action :| a.Exec? && Acts(s, a, s');
    assert s'.procs[a.p].epoch == 0;
  }

  lemma InTime(s: State, s': State)
    requires AnyNext(s, s') && !LateExec(s, s')
    ensures Next(s, s')
  {
    var a :| Acts(s, a, s');
    assert ExecInTime(s, a);
  }
}
