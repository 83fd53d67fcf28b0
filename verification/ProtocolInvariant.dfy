/**
  The inductive invariant of CheckpointProtocol: phases, channels, epochs and directories.
 */
module ProtocolInvariant {
  import opened Wrappers
  import opened CheckpointProtocol
  import T = ThreadSuspension
  import SI = SuspensionInvariant

  /** The checkpoint thread is on its way to the next request without needing a message. */
  predicate Quiet(k: T.KPc) {
    k.Idle? || k.Resuming? || k.RestartBegin? || k.Restoring? || k == T.Fill(true) || k.RestartFrozen?
  }

  /** Between XND_CKPT_START and XND_CKPT_DONE, image not written. */
  predicate Working(k: T.KPc) {
    k.Begin? || k.ResetArrived? || SI.ScanPhase(k) || SI.WaitPhase(k) || k.Again? || k == T.Fill(false) ||
    k.Frozen? || k.Aborted?
  }

  /** The coordinator's record of a process, its phase and the messages in flight agree. */
  predicate InStep(ps: ProcState, c: Client, n: nat) {
    match ps {
      case PRunning =>
        && c.toCoord == []
        && (|| (Quiet(c.ts.k) && c.toClient == [])
            || (c.ts.k.AwaitResume? && c.toClient == [ResumeAfterCkpt])
            || (c.ts.k.RestartConnect? && c.toClient == [ResumeAfterRestart]))
      case PRecvRequest =>
        || (c.toCoord == [] && Quiet(c.ts.k) && c.toClient == [CkptRequest])
        || (c.toCoord == [] && c.ts.k.AwaitResume? && c.toClient == [ResumeAfterCkpt, CkptRequest])
        || (c.toCoord == [] && c.ts.k.RestartConnect? && c.toClient == [ResumeAfterRestart, CkptRequest])
        || (c.toCoord == [] && c.ts.k.Pending? && c.toClient == [])
        || (c.toCoord == [CkptReady] && c.ts.k.AwaitStart? && c.toClient == [])
      case PReady => c.ts.k.AwaitStart? && c.toClient == [] && c.toCoord == []
      case PInProgress =>
        || (c.ts.k.AwaitStart? && c.toClient == [CkptStart(n)] && c.toCoord == [])
        || ((Working(c.ts.k) || c.ts.k.ImageWritten?) && c.toClient == [] && c.toCoord == [])
        || (c.ts.k.AwaitResume? && c.toClient == [] && c.toCoord == [CkptDone])
      case PComplete => c.ts.k.AwaitResume? && c.toClient == [] && c.toCoord == []
      case PRestarting => c.ts.k.RestartConnect? && c.toClient == [] && c.toCoord == []
    }
  }

  /**
    Which states the coordinator has for a process at each of its own steps. While it
    collects completions only a dead process can have failed to complete, and then the
    total is too small.
   */
  predicate Allowed(c: CPc, p: Pid, ps: ProcState, alive: bool, peers: nat) {
    match c {
      case Idle => ps.PRunning? || ps.PReady?
      case Suspend => ps.PRunning? || ps.PRecvRequest? || ps.PReady?
      case MakeDir => ps.PReady?
      case SendStart(todo) => if p in todo then ps.PReady? else ps.PInProgress?
      case Collect(todo, total) =>
        if p in todo then ps.PInProgress?
        else ps.PComplete? || (ps.PInProgress? && !alive && total + |todo| < peers)
      case CreateManifest => ps.PComplete?
      case ScanImages => ps.PComplete?
      case SendResume(todo) => if p in todo then ps.PComplete? else ps.PRunning?
      case Unlink(_, success) => if success then ps.PRunning? else ps.PReady?
      case NextEpoch => ps.PRunning?
      case Gather(_) => ps.PRestarting?
      case ReleaseRestart(todo) => if p in todo then ps.PRestarting? else ps.PRunning?
    }
  }

  predicate Round(c: CPc) { c.SendStart? || c.Collect? || c.CreateManifest? || c.ScanImages? }

  predicate Post(c: CPc) { c.SendResume? || (c.Unlink? && c.success) || c.NextEpoch? }

  /** The epoch a client will have once it has read the messages sent to it. */
  function EpochAhead(c: Client): nat {
    c.epoch + (if ResumeAfterCkpt in c.toClient then 1 else 0)
  }

  predicate Resumed(c: CPc, p: Pid) { Post(c) && !(c.SendResume? && p in c.todo) }

  /** What the coordinator's variables mean for one registered client. */
  predicate RegisteredOK(k: CPc, epoch: nat, numPeers: nat, peers: nat, p: Pid, ps: ProcState, c: Client) {
    && InStep(ps, c, numPeers)
    && Allowed(k, p, ps, c.alive, peers)
    && (k.Idle? && epoch == 0 ==> ps.PRunning?)
    && EpochAhead(c) == epoch + (if Resumed(k, p) then 1 else 0)
    && (ps.PComplete? || (ps.PInProgress? && !c.ts.k.AwaitStart?) ==> c.numPeers == numPeers)
    && (k.Gather? ==> c.epoch == k.from + 1 && c.numPeers == peers)
  }

  /** A restarted process that has not connected yet. */
  predicate UnregisteredOK(k: CPc, peers: nat, c: Client) {
    && k.Gather? && c.ts.k.RestartConnect? && c.toClient == [] && c.toCoord == []
    && c.epoch == k.from && c.numPeers == peers
  }

  predicate ClientOK(s: State, p: Pid)
    requires p in s.procs
  {
    if p in s.pstate then
      RegisteredOK(s.c, s.epoch, s.numPeers, |s.procs.Keys|, p, s.pstate[p], s.procs[p])
    else UnregisteredOK(s.c, |s.procs.Keys|, s.procs[p])
  }

  predicate HasWritten(ps: ProcState, k: T.KPc) {
    ps.PComplete? || (ps.PInProgress? && (k.ImageWritten? || k.AwaitResume?))
  }

  /** During a round the directory holds the images of the clients that have written. */
  predicate ImageOK(s: State, p: Pid)
    requires p in s.procs
  {
    Round(s.c) && p in s.pstate && s.epoch in s.disk ==>
      var images := s.disk[s.epoch].images;
      && (p in images <==> HasWritten(s.pstate[p], s.procs[p].ts.k))
      && (p in images ==> images[p].numPeers == s.numPeers)
  }

  predicate DiskOK(s: State) {
    forall e, p | e in s.disk && p in s.disk[e].images :: s.disk[e].images[p].epoch == e
  }

  predicate KeysOK(s: State) {
    if s.c.Gather? then s.pstate.Keys <= s.procs.Keys && s.procs != map[] else s.pstate.Keys == s.procs.Keys
  }

  predicate HasComplete(s: State, e: int) { e >= 0 && e in s.disk && Complete(s.disk[e]) }

  /** A manifest has been written; it names nobody only if no process was left. */
  predicate HasManifest(s: State, e: int) {
    HasComplete(s, e) || (e >= 0 && e in s.disk && s.disk[e].manifest == Names({}) && s.procs == map[])
  }

  predicate StageOK(s: State) {
    && (Round(s.c) ==>
          && s.epoch in s.disk && s.numPeers == |s.pstate.Keys|
          && s.disk[s.epoch].images.Keys <= s.procs.Keys
          && s.disk[s.epoch].manifest == (if s.c.ScanImages? then EmptyManifest else NoManifest))
    && (s.c.SendStart? || s.c.Collect? || s.c.SendResume? || s.c.ReleaseRestart? ==> s.c.todo <= s.procs.Keys)
    && (s.c.Collect? ==> s.c.total + |s.c.todo| <= |s.pstate.Keys|)
    && (s.c.Unlink? ==> s.c.e + (if s.c.success then 1 else 0) == s.epoch && s.epoch > 0)
    && (if s.c.Gather? then
          && HasComplete(s, s.c.from)
          && (s.pstate != map[] ==> s.epoch == s.c.from + 1 && s.numPeers == |s.procs.Keys|)
        else if Post(s.c) then HasManifest(s, s.epoch)
        else s.epoch > 0 ==> HasManifest(s, s.epoch - 1))
    && (s.epoch == 0 && !s.c.Gather? ==> s.disk.Keys == if Round(s.c) || Post(s.c) then {0} else {})
  }

  predicate Inv(s: State) { KeysOK(s) && StageOK(s) && DiskOK(s) && ClientsOK(s) && ImagesOK(s) }

  lemma InitInv()
    ensures Inv(Init())
  {}

  // ----- clients -----

  predicate ClientsOK(s: State) { forall p | p in s.procs :: ClientOK(s, p) }

  predicate ImagesOK(s: State) { forall p | p in s.procs :: ImageOK(s, p) }

  /** A step of client `p` leaves every other client and the stage as they were. */
  lemma ClientFrame(s: State, p: Pid, c': Client)
    requires Inv(s) && p in s.procs
    requires ClientOK(SetClient(s, p, c'), p) && ImageOK(SetClient(s, p, c'), p)
    ensures Inv(SetClient(s, p, c'))
  {
    var s' := SetClient(s, p, c');
    SetClientKeys(s, p, c');
    ClientFrameClients(s, p, c');
    ClientFrameImages(s, p, c');
  }

  lemma SetClientKeys(s: State, p: Pid, c': Client)
    requires KeysOK(s) && StageOK(s) && DiskOK(s) && p in s.procs
    ensures var s' := SetClient(s, p, c');
            s'.procs.Keys == s.procs.Keys && KeysOK(s') && StageOK(s') && DiskOK(s')
  {
    assert SetClient(s, p, c').procs.Keys == s.procs.Keys;
  }

  lemma ClientFrameClients(s: State, p: Pid, c': Client)
    requires ClientsOK(s) && p in s.procs && ClientOK(SetClient(s, p, c'), p)
    ensures ClientsOK(SetClient(s, p, c'))
  {
    var s' := SetClient(s, p, c');
    assert s'.procs.Keys == s.procs.Keys;
    forall q | q in s'.procs
      ensures ClientOK(s', q)
    {
      if q != p { SameClient(s, s', q); }
    }
  }

  lemma SameClient(s: State, s': State, q: Pid)
    requires q in s.procs && q in s'.procs && s'.procs[q] == s.procs[q] && ClientOK(s, q)
    requires s'.pstate == s.pstate && s'.c == s.c && s'.epoch == s.epoch && s'.numPeers == s.numPeers
    requires s'.procs.Keys == s.procs.Keys
    ensures ClientOK(s', q)
  {}

  lemma ClientFrameImages(s: State, p: Pid, c': Client)
    requires ImagesOK(s) && p in s.procs && ImageOK(SetClient(s, p, c'), p)
    ensures ImagesOK(SetClient(s, p, c'))
  {
    var s' := SetClient(s, p, c');
    forall q | q in s'.procs
      ensures ImageOK(s', q)
    {
      if q != p { assert ImageOK(s, q); }
    }
  }

  predicate InnerMove(k: T.KPc, k': T.KPc) {
    if Quiet(k) then Quiet(k') else if Working(k) then Working(k') else k' == k
  }

  lemma InnerK(ts: T.State, b: T.Action)
    requires IsInner(b) && T.Enabled(ts, b)
    ensures InnerMove(ts.k, T.Apply(ts, b).k)
  {
    if b.Ckpt? { CkptK(ts, b.t); }
  }

  lemma CkptK(ts: T.State, t: T.Tid)
    requires T.CkptEnabled(ts, t)
    ensures InnerMove(ts.k, T.CkptApply(ts, t).k)
  {
    if ts.k.Look? || (ts.k.Pass? && ts.k.todo != {}) { ScanK(ts, t); }
    else if ts.k.WaitLook? || (ts.k.WaitPass? && ts.k.todo != {}) { WaitK(ts, t); }
  }

  lemma ScanK(ts: T.State, t: T.Tid)
    requires T.CkptEnabled(ts, t) && (ts.k.Look? || (ts.k.Pass? && ts.k.todo != {}))
    ensures SI.ScanPhase(T.ScanStep(ts, t).k)
  {}

  lemma WaitK(ts: T.State, t: T.Tid)
    requires T.CkptEnabled(ts, t) && (ts.k.WaitLook? || (ts.k.WaitPass? && ts.k.todo != {}))
    ensures SI.WaitPhase(T.WaitStep(ts, t).k) || T.WaitStep(ts, t).k.Aborted?
  {}

  /** The client after a step of its own threads, or after its end. */
  predicate MovedOn(c: Client, c': Client) {
    && c.alive && InnerMove(c.ts.k, c'.ts.k)
    && c' == c.(ts := c'.ts, alive := c'.alive)
  }

  lemma InnerOK(k: CPc, epoch: nat, numPeers: nat, peers: nat, p: Pid, ps: ProcState, c: Client, c': Client)
    requires RegisteredOK(k, epoch, numPeers, peers, p, ps, c) && MovedOn(c, c')
    ensures RegisteredOK(k, epoch, numPeers, peers, p, ps, c')
    ensures HasWritten(ps, c'.ts.k) == HasWritten(ps, c.ts.k)
  {}

  lemma InnerStep(s: State, p: Pid, c': Client)
    requires Inv(s) && p in s.procs && MovedOn(s.procs[p], c')
    ensures Inv(SetClient(s, p, c'))
  {
    InnerImage(s, p, c');
    ClientFrame(s, p, c');
  }

  lemma InnerImage(s: State, p: Pid, c': Client)
    requires p in s.procs && ClientOK(s, p) && ImageOK(s, p) && MovedOn(s.procs[p], c')
    ensures var s' := SetClient(s, p, c'); ClientOK(s', p) && ImageOK(s', p)
  {
    var s' := SetClient(s, p, c');
    assert s'.procs.Keys == s.procs.Keys;
    if p in s.pstate {
      InnerOK(s.c, s.epoch, s.numPeers, |s.procs.Keys|, p, s.pstate[p], s.procs[p], c');
    }
  }

  /** A client that waits for a message finds the one it expects. */
  predicate Expected(k: T.KPc, m: Msg) {
    || (k.Idle? && m.CkptRequest?) || (k.AwaitStart? && m.CkptStart?)
    || (k.AwaitResume? && m.ResumeAfterCkpt?) || (k.RestartConnect? && m.ResumeAfterRestart?)
  }

  /** Reading the expected message. */
  function Received(c: Client): Client
    requires c.toClient != [] && Expected(c.ts.k, c.toClient[0])
  {
    var c' := c.(toClient := c.toClient[1..]);
    match c.ts.k {
      case Idle => Sync(c', T.Request)
      case AwaitStart => Sync(c', T.Start).(numPeers := c.toClient[0].numPeers)
      case AwaitResume => Sync(c', T.Resume).(epoch := c.epoch + 1)
      case RestartConnect => Sync(c', T.RestartResume)
    }
  }

  lemma ReceiveOK(k: CPc, epoch: nat, numPeers: nat, peers: nat, p: Pid, ps: ProcState, c: Client)
    requires RegisteredOK(k, epoch, numPeers, peers, p, ps, c)
    requires Waits(c)
    ensures Expected(c.ts.k, c.toClient[0])
    ensures RegisteredOK(k, epoch, numPeers, peers, p, ps, Received(c))
    ensures HasWritten(ps, Received(c).ts.k) == HasWritten(ps, c.ts.k)
  {}

  predicate IsReceive(a: Action) { a.RecvRequest? || a.RecvStart? || a.RecvResume? || a.RecvRestartResume? }

  /** No client ever reads a message it does not expect. */
  lemma ReceiveIsExpected(s: State, a: Action)
    requires ClientsOK(s) && IsReceive(a) && ClientEnabled(s, a)
    ensures a.p in s.pstate && Waits(s.procs[a.p]) && Expected(s.procs[a.p].ts.k, s.procs[a.p].toClient[0])
  {
    assert ClientOK(s, a.p);
    AsExpected(s, a.p);
  }

  /** The client has come to a point where it reads a message, and one is there. */
  predicate Waits(c: Client) {
    c.toClient != [] && (c.ts.k.Idle? || c.ts.k.AwaitStart? || c.ts.k.AwaitResume? || c.ts.k.RestartConnect?)
  }

  lemma AsExpected(s: State, p: Pid)
    requires p in s.procs && ClientOK(s, p) && Waits(s.procs[p])
    ensures p in s.pstate && Expected(s.procs[p].ts.k, s.procs[p].toClient[0])
  {
    ReceiveOK(s.c, s.epoch, s.numPeers, |s.procs.Keys|, p, s.pstate[p], s.procs[p]);
  }

  lemma ReceiveApply(s: State, a: Action)
    requires IsReceive(a) && ClientEnabled(s, a) && Waits(s.procs[a.p])
    requires Expected(s.procs[a.p].ts.k, s.procs[a.p].toClient[0])
    ensures ClientApply(s, a) == SetClient(s, a.p, Received(s.procs[a.p]))
  {}

  lemma ReceiveClient(s: State, p: Pid)
    requires p in s.procs && ClientOK(s, p) && ImageOK(s, p)
    requires Waits(s.procs[p])
    ensures p in s.pstate && Expected(s.procs[p].ts.k, s.procs[p].toClient[0])
    ensures var s' := SetClient(s, p, Received(s.procs[p])); ClientOK(s', p) && ImageOK(s', p)
  {
    ReceiveOK(s.c, s.epoch, s.numPeers, |s.procs.Keys|, p, s.pstate[p], s.procs[p]);
    assert SetClient(s, p, Received(s.procs[p])).procs.Keys == s.procs.Keys;
  }

  lemma ReceiveStep(s: State, a: Action)
    requires Inv(s) && IsReceive(a) && ClientEnabled(s, a)
    ensures Inv(ClientApply(s, a))
  {
    ReceiveIsExpected(s, a);
    ReceiveApply(s, a);
    ReceiveClient(s, a.p);
    ClientFrame(s, a.p, Received(s.procs[a.p]));
  }

  function Sent(c: Client, a: T.Action, m: Msg): Client
    requires T.IsSync(a) && T.SyncEnabled(c.ts, a)
  {
    Sync(c, a).(toCoord := c.toCoord + [m])
  }

  lemma SendOK(k: CPc, epoch: nat, numPeers: nat, peers: nat, p: Pid, ps: ProcState, c: Client)
    requires RegisteredOK(k, epoch, numPeers, peers, p, ps, c)
    ensures c.ts.k.Pending? ==>
              RegisteredOK(k, epoch, numPeers, peers, p, ps, Sent(c, T.Ready, CkptReady)) &&
              HasWritten(ps, c.ts.k) == HasWritten(ps, T.AwaitStart)
    ensures c.ts.k.ImageWritten? ==>
              RegisteredOK(k, epoch, numPeers, peers, p, ps, Sent(c, T.SendDone, CkptDone)) &&
              HasWritten(ps, c.ts.k) == HasWritten(ps, T.AwaitResume)
  {}

  lemma SendStep(s: State, a: Action)
    requires Inv(s) && (a.Ready? || a.Done?) && ClientEnabled(s, a)
    ensures Inv(ClientApply(s, a))
  {
    var c' := SendApply(s, a);
    SendClient(s, a.p, c');
    ClientFrame(s, a.p, c');
  }

  /** The client after it has sent what it sends next. */
  predicate IsSent(c: Client, c': Client) {
    || (c.ts.k.Pending? && c' == Sent(c, T.Ready, CkptReady))
    || (c.ts.k.ImageWritten? && c' == Sent(c, T.SendDone, CkptDone))
  }

  lemma SendApply(s: State, a: Action) returns (c': Client)
    requires (a.Ready? || a.Done?) && ClientEnabled(s, a)
    ensures IsSent(s.procs[a.p], c')
    ensures ClientApply(s, a) == SetClient(s, a.p, c')
  {
    var c := s.procs[a.p];
    c' := if a.Ready? then Sent(c, T.Ready, CkptReady) else Sent(c, T.SendDone, CkptDone);
  }

  lemma SendClient(s: State, p: Pid, c': Client)
    requires p in s.procs && ClientOK(s, p) && ImageOK(s, p)
    requires IsSent(s.procs[p], c')
    ensures ClientOK(SetClient(s, p, c'), p) && ImageOK(SetClient(s, p, c'), p)
  {
    assert SetClient(s, p, c').procs.Keys == s.procs.Keys;
    SendOK(s.c, s.epoch, s.numPeers, |s.procs.Keys|, p, s.pstate[p], s.procs[p]);
  }

  /** The client's directory exists and holds no file of its own yet. */
  lemma ImageHasItsPlace(s: State, p: Pid)
    requires Inv(s) && p in s.procs && s.procs[p].ts.k.Frozen?
    ensures p in s.pstate && s.pstate[p].PInProgress? && Round(s.c)
    ensures s.procs[p].epoch == s.epoch && s.epoch in s.disk && p !in s.disk[s.epoch].images
    ensures s.procs[p].numPeers == s.numPeers
  {
    assert ClientOK(s, p) && ImageOK(s, p);
  }

  lemma WriteImageStep(s: State, a: Action)
    requires Inv(s) && a.WriteImage? && ClientEnabled(s, a)
    ensures Inv(ClientApply(s, a))
  {
    ImageHasItsPlace(s, a.p);
    WriteImageStage(s, a);
    WriteImageClients(s, a);
  }

  lemma WriteImageClients(s: State, a: Action)
    requires ClientsOK(s) && ImagesOK(s) && a.WriteImage? && ClientEnabled(s, a)
    requires a.p in s.pstate && s.pstate[a.p].PInProgress? && Round(s.c)
    requires s.procs[a.p].epoch == s.epoch && s.epoch in s.disk && a.p !in s.disk[s.epoch].images
    requires s.procs[a.p].numPeers == s.numPeers
    ensures ClientsOK(ClientApply(s, a)) && ImagesOK(ClientApply(s, a))
  {
    var s' := ClientApply(s, a);
    assert s'.procs.Keys == s.procs.Keys;
    forall q | q in s'.procs
      ensures ClientOK(s', q) && ImageOK(s', q)
    {
      assert ClientOK(s, q) && ImageOK(s, q) && ClientOK(s, a.p);
      WriteImageClient(s, a, q);
    }
  }

  lemma WriteImageStage(s: State, a: Action)
    requires KeysOK(s) && StageOK(s) && DiskOK(s) && a.WriteImage? && ClientEnabled(s, a)
    requires Round(s.c) && s.procs[a.p].epoch == s.epoch && s.epoch in s.disk && a.p !in s.disk[s.epoch].images
    ensures KeysOK(ClientApply(s, a)) && StageOK(ClientApply(s, a)) && DiskOK(ClientApply(s, a))
  {
    assert ClientApply(s, a).procs.Keys == s.procs.Keys;
  }

  lemma WriteImageClient(s: State, a: Action, q: Pid)
    requires a.WriteImage? && ClientEnabled(s, a) && q in s.procs
    requires ClientOK(s, q) && ImageOK(s, q) && ClientOK(s, a.p)
    requires a.p in s.pstate && s.pstate[a.p].PInProgress? && Round(s.c)
    requires s.procs[a.p].epoch == s.epoch && s.epoch in s.disk && a.p !in s.disk[s.epoch].images
    requires s.procs[a.p].numPeers == s.numPeers
    ensures q in ClientApply(s, a).procs && ClientOK(ClientApply(s, a), q) && ImageOK(ClientApply(s, a), q)
  {
    assert ClientApply(s, a).procs.Keys == s.procs.Keys;
  }

  lemma RegisterClient(s: State, a: Action, q: Pid)
    requires a.Register? && ClientEnabled(s, a) && q in s.procs && ClientOK(s, q) && ClientOK(s, a.p)
    requires s.pstate != map[] ==> s.epoch == s.c.from + 1 && s.numPeers == |s.procs.Keys|
    ensures q in ClientApply(s, a).procs && ClientOK(ClientApply(s, a), q)
  {
    assert ClientApply(s, a).procs.Keys == s.procs.Keys;
    if s.pstate == map[] { assert q !in s.pstate; }
  }

  lemma RegisterStep(s: State, a: Action)
    requires Inv(s) && a.Register? && ClientEnabled(s, a)
    ensures Inv(ClientApply(s, a))
  {
    assert ClientOK(s, a.p);
    RegisterStage(s, a);
    RegisterClients(s, a);
  }

  lemma RegisterClients(s: State, a: Action)
    requires ClientsOK(s) && a.Register? && ClientEnabled(s, a)
    requires s.pstate != map[] ==> s.epoch == s.c.from + 1 && s.numPeers == |s.procs.Keys|
    ensures ClientsOK(ClientApply(s, a)) && ImagesOK(ClientApply(s, a))
  {
    var s' := ClientApply(s, a);
    assert s'.procs.Keys == s.procs.Keys;
    forall q | q in s'.procs
      ensures ClientOK(s', q) && ImageOK(s', q)
    {
      assert ClientOK(s, q) && ClientOK(s, a.p);
      RegisterClient(s, a, q);
    }
  }

  lemma RegisterStage(s: State, a: Action)
    requires KeysOK(s) && StageOK(s) && DiskOK(s) && a.Register? && ClientEnabled(s, a) && ClientOK(s, a.p)
    ensures KeysOK(ClientApply(s, a)) && StageOK(ClientApply(s, a)) && DiskOK(ClientApply(s, a))
  {
    assert ClientApply(s, a).procs.Keys == s.procs.Keys;
    if s.pstate != map[] { assert |s.pstate| != 0; }
  }

  /** Nothing that ClientOK says about `q` depends on what changed. */
  lemma ClientView(s: State, s': State, q: Pid)
    requires q in s.procs && q in s'.procs && s'.procs[q] == s.procs[q] && ClientOK(s, q)
    requires q in s.pstate && q in s'.pstate && s'.pstate[q] == s.pstate[q]
    requires s'.epoch == s.epoch && (s'.numPeers == s.numPeers || s.pstate[q].PRunning? || s.pstate[q].PReady?)
    requires Allowed(s'.c, q, s.pstate[q], s.procs[q].alive, |s'.procs.Keys|)
    requires Resumed(s'.c, q) == Resumed(s.c, q) && !s'.c.Gather?
    requires s'.c.Idle? && s.epoch == 0 ==> s.pstate[q].PRunning?
    ensures ClientOK(s', q)
  {}

  lemma ClientStep(s: State, a: Action)
    requires Inv(s) && IsClient(a) && ClientEnabled(s, a)
    ensures Inv(ClientApply(s, a))
  {
    if a.Inner? {
      InnerK(s.procs[a.p].ts, a.a);
      InnerStep(s, a.p, InnerApply(s.procs[a.p], a.a));
    } else if a.Die? {
      InnerStep(s, a.p, s.procs[a.p].(alive := false));
    } else if IsReceive(a) { ReceiveStep(s, a); }
    else if a.Ready? || a.Done? { SendStep(s, a); }
    else { ClientDiskStep(s, a); }
  }

  lemma ClientDiskStep(s: State, a: Action)
    requires Inv(s) && (a.WriteImage? || a.Register?) && ClientEnabled(s, a)
    ensures Inv(ClientApply(s, a))
  {
    if a.WriteImage? { WriteImageStep(s, a); } else { RegisterStep(s, a); }
  }

  // ----- who takes part -----

  lemma MemberStep(s: State, a: Action)
    requires Inv(s) && IsMember(a) && MemberEnabled(s, a)
    requires a.Fork? ==> !s.procs[a.parent].ts.k.AwaitResume?
    requires a.Exec? ==> s.epoch == 0
    ensures Inv(MemberApply(s, a))
  {
    if a.Exec? { ExecStep(s, a); }
    else if a.Reap? { ReapStep(s, a.p); }
    else { JoinStep(s, a); }
  }

  lemma JoinStep(s: State, a: Action)
    requires Inv(s) && (a.Launch? || a.Fork?) && MemberEnabled(s, a)
    requires a.Fork? ==> !s.procs[a.parent].ts.k.AwaitResume?
    ensures Inv(MemberApply(s, a))
  {
    JoinStage(s, a);
    JoinClients(s, a);
  }

  lemma JoinStage(s: State, a: Action)
    requires KeysOK(s) && StageOK(s) && DiskOK(s) && (a.Launch? || a.Fork?) && MemberEnabled(s, a)
    ensures var s' := MemberApply(s, a); KeysOK(s') && StageOK(s') && DiskOK(s') && ImagesOK(s')
  {
    JoinFrame(s, a);
    JoinedStage(s, MemberApply(s, a), a.p);
  }

  lemma JoinFrame(s: State, a: Action)
    requires (a.Launch? || a.Fork?) && MemberEnabled(s, a)
    ensures var s' := MemberApply(s, a);
            && s' == s.(procs := s'.procs, pstate := s'.pstate)
            && s'.procs.Keys == s.procs.Keys + {a.p} && s'.pstate.Keys == s.pstate.Keys + {a.p}
    ensures a.Launch? ==> s.epoch == 0
    ensures a.Fork? ==> s.procs != map[]
  {}

  lemma JoinedStage(s: State, s': State, p: Pid)
    requires KeysOK(s) && StageOK(s) && DiskOK(s) && s.c.Idle? && (s.epoch == 0 || s.procs != map[])
    requires s' == s.(procs := s'.procs, pstate := s'.pstate)
    requires s'.procs.Keys == s.procs.Keys + {p} && s'.pstate.Keys == s.pstate.Keys + {p}
    ensures KeysOK(s') && StageOK(s') && DiskOK(s') && ImagesOK(s')
  {}

  lemma JoinClients(s: State, a: Action)
    requires KeysOK(s) && ClientsOK(s) && (a.Launch? || a.Fork?) && MemberEnabled(s, a)
    requires a.Fork? ==> !s.procs[a.parent].ts.k.AwaitResume?
    ensures ClientsOK(MemberApply(s, a))
  {
    var s' := MemberApply(s, a);
    forall q | q in s'.procs
      ensures ClientOK(s', q)
    {
      if q == a.p {
        if a.Fork? { assert ClientOK(s, a.parent); }
        JoinClient(s, a);
      } else {
        assert ClientOK(s, q) && q in s.pstate;
        ClientView(s, s', q);
      }
    }
  }

  lemma JoinClient(s: State, a: Action)
    requires (a.Launch? || a.Fork?) && MemberEnabled(s, a) && KeysOK(s)
    requires a.Fork? ==> ClientOK(s, a.parent) && !s.procs[a.parent].ts.k.AwaitResume?
    ensures ClientOK(MemberApply(s, a), a.p)
  {}

  /** Before the first checkpoint a process that has executed a new image is like a new one. */
  lemma ExecStep(s: State, a: Action)
    requires Inv(s) && a.Exec? && MemberEnabled(s, a) && s.epoch == 0
    ensures Inv(MemberApply(s, a))
  {
    var c' := Client(T.Init(a.mem, a.regs), 0, 0, [], [], true);
    assert ClientOK(s, a.p);
    assert SetClient(s, a.p, c').procs.Keys == s.procs.Keys;
    ClientFrame(s, a.p, c');
  }

  lemma ReapStep(s: State, p: Pid)
    requires Inv(s) && MemberEnabled(s, Reap(p))
    ensures Inv(MemberApply(s, Reap(p)))
  {
    ReapStage(s, p);
    ReapClients(s, p);
  }

  lemma ReapStage(s: State, p: Pid)
    requires KeysOK(s) && StageOK(s) && DiskOK(s) && MemberEnabled(s, Reap(p))
    ensures var s' := MemberApply(s, Reap(p)); KeysOK(s') && StageOK(s') && DiskOK(s') && ImagesOK(s')
  {
    var s' := MemberApply(s, Reap(p));
    assert s'.procs.Keys == s.procs.Keys - {p} && s'.pstate.Keys == s.pstate.Keys - {p};
  }

  lemma ReapClients(s: State, p: Pid)
    requires KeysOK(s) && ClientsOK(s) && MemberEnabled(s, Reap(p))
    ensures ClientsOK(MemberApply(s, Reap(p)))
  {
    forall q | q in MemberApply(s, Reap(p)).procs
      ensures ClientOK(MemberApply(s, Reap(p)), q)
    {
      assert ClientOK(s, q) && q in s.pstate;
      ClientView(s, MemberApply(s, Reap(p)), q);
    }
  }

  // ----- the coordinator, one process at a time -----

  /** The coordinator finds out in this turn that the process is dead. */
  predicate FailedTurn(s: State, a: Action)
    requires IsTurn(a) && TurnEnabled(s, a)
  {
    (a.StartOne? || a.ResumeOne? || a.ReleaseOne?) && !s.procs[a.p].alive
  }

  /**
    No assertion about a process state fails, and what is received is what was expected.
    A turn makes the coordinator give up exactly if it fails because of a dead process.
   */
  lemma TurnIsExpected(s: State, a: Action)
    requires IsTurn(a) && TurnEnabled(s, a) && ClientOK(s, a.p)
    ensures a.CollectReady? ==> s.procs[a.p].toCoord[0].CkptReady?
    ensures a.CollectDone? ==>
              s.pstate[a.p].PInProgress? && (s.procs[a.p].toCoord != [] ==> s.procs[a.p].toCoord[0].CkptDone?)
    ensures a.StartOne? ==> s.pstate[a.p].PReady?
    ensures a.ResumeOne? ==> s.pstate[a.p].PComplete?
    ensures a.ReleaseOne? ==> s.pstate[a.p].PRestarting?
    ensures TurnApply(s, a).up <==> !FailedTurn(s, a)
    ensures FailedTurn(s, a) ==> TurnApply(s, a) == GiveUp(s)
  {}

  lemma GiveUpInv(s: State)
    requires Inv(s)
    ensures Inv(GiveUp(s))
  {
    var s' := GiveUp(s);
    forall p | p in s'.procs
      ensures ClientOK(s', p) && ImageOK(s', p)
    {
      assert ClientOK(s, p) && ImageOK(s, p);
    }
  }

  lemma RequestTurn(s: State, a: Action)
    requires a.SendRequest? && TurnEnabled(s, a) && ClientOK(s, a.p)
    ensures ClientOK(TurnApply(s, a), a.p)
  {
    assert TurnApply(s, a).procs.Keys == s.procs.Keys;
  }

  lemma CollectTurn(s: State, a: Action)
    requires (a.CollectReady? || a.CollectDone?) && TurnEnabled(s, a) && ClientOK(s, a.p) && CollectsAtMost(s)
    ensures ClientOK(TurnApply(s, a), a.p)
  {
    TurnIsExpected(s, a);
    assert TurnApply(s, a).procs.Keys == s.procs.Keys;
    assert TurnApply(s, a).procs[a.p].toCoord == [];
  }

  /** No more completions are counted than there are processes. */
  predicate CollectsAtMost(s: State) {
    s.pstate.Keys == s.procs.Keys && (s.c.Collect? ==> s.c.total + |s.c.todo| <= |s.pstate.Keys|)
  }

  lemma ReleasedTurn(s: State, a: Action)
    requires (a.StartOne? || a.ResumeOne? || a.ReleaseOne?) && TurnEnabled(s, a) && ClientOK(s, a.p)
    requires !FailedTurn(s, a)
    ensures ClientOK(TurnApply(s, a), a.p)
  {
    if a.StartOne? { StartTurn(s, a); }
    else if a.ResumeOne? { ResumeTurn(s, a); }
    else { ReleaseTurn(s, a); }
  }

  lemma StartTurn(s: State, a: Action)
    requires a.StartOne? && TurnEnabled(s, a) && ClientOK(s, a.p) && !FailedTurn(s, a)
    ensures ClientOK(TurnApply(s, a), a.p)
  {
    assert TurnApply(s, a).procs.Keys == s.procs.Keys;
    assert TurnApply(s, a).procs[a.p].toClient == [CkptStart(s.numPeers)];
  }

  lemma ResumeTurn(s: State, a: Action)
    requires a.ResumeOne? && TurnEnabled(s, a) && ClientOK(s, a.p) && !FailedTurn(s, a)
    ensures ClientOK(TurnApply(s, a), a.p)
  {
    assert TurnApply(s, a).procs.Keys == s.procs.Keys;
    assert TurnApply(s, a).procs[a.p].toClient == [ResumeAfterCkpt];
  }

  lemma ReleaseTurn(s: State, a: Action)
    requires a.ReleaseOne? && TurnEnabled(s, a) && ClientOK(s, a.p) && !FailedTurn(s, a)
    ensures ClientOK(TurnApply(s, a), a.p)
  {
    assert TurnApply(s, a).procs.Keys == s.procs.Keys;
    assert TurnApply(s, a).procs[a.p].toClient == [ResumeAfterRestart];
  }

  lemma TurnClient(s: State, a: Action)
    requires IsTurn(a) && TurnEnabled(s, a) && ClientOK(s, a.p) && CollectsAtMost(s) && !FailedTurn(s, a)
    ensures ClientOK(TurnApply(s, a), a.p)
  {
    if a.SendRequest? { RequestTurn(s, a); }
    else if a.CollectReady? || a.CollectDone? { CollectTurn(s, a); }
    else { ReleasedTurn(s, a); }
  }

  /** What a turn leaves, and where the coordinator is after it. */
  predicate Turned(s: State, s': State, p: Pid) {
    && s'.procs.Keys == s.procs.Keys && s'.pstate.Keys == s.pstate.Keys
    && (forall q | q in s.procs && q != p :: s'.procs[q] == s.procs[q])
    && (forall q | q in s.pstate && q != p :: s'.pstate[q] == s.pstate[q])
    && s' == s.(procs := s'.procs, pstate := s'.pstate, c := s'.c)
    && (|| (s'.c == s.c && s.c.Suspend?)
        || (s.c.SendStart? && s'.c == SendStart(s.c.todo - {p}))
        || (s.c.SendResume? && s'.c == SendResume(s.c.todo - {p}))
        || (s.c.ReleaseRestart? && s'.c == ReleaseRestart(s.c.todo - {p}))
        || (s.c.Collect? && p in s.c.todo && s'.c.Collect? && s'.c.todo == s.c.todo - {p} &&
            s.c.total <= s'.c.total <= s.c.total + 1))
  }

  lemma TurnFrame(s: State, a: Action)
    requires IsTurn(a) && TurnEnabled(s, a) && ClientOK(s, a.p) && !FailedTurn(s, a)
    ensures Turned(s, TurnApply(s, a), a.p)
  {
    TurnIsExpected(s, a);
    if a.SendRequest? || a.CollectReady? || a.CollectDone? { CollectFrame(s, a); } else { ReleaseFrame(s, a); }
  }

  lemma CollectFrame(s: State, a: Action)
    requires (a.SendRequest? || a.CollectReady? || a.CollectDone?) && TurnEnabled(s, a)
    requires a.CollectDone? ==> s.pstate[a.p].PInProgress?
    ensures Turned(s, TurnApply(s, a), a.p)
  {}

  lemma ReleaseFrame(s: State, a: Action)
    requires (a.StartOne? || a.ResumeOne? || a.ReleaseOne?) && TurnEnabled(s, a) && TurnApply(s, a).up
    ensures Turned(s, TurnApply(s, a), a.p)
  {}

  lemma TurnOther(s: State, s': State, p: Pid, q: Pid)
    requires CollectsAtMost(s) || !s.c.Collect?
    requires KeysOK(s) && Turned(s, s', p) && q in s.procs && q != p && ClientOK(s, q)
    ensures q in s'.procs && ClientOK(s', q)
  {
    ClientView(s, s', q);
  }

  lemma TurnedStage(s: State, s': State, p: Pid)
    requires KeysOK(s) && StageOK(s) && DiskOK(s) && Turned(s, s', p)
    ensures KeysOK(s') && StageOK(s') && DiskOK(s')
  {}

  lemma TurnedClients(s: State, s': State, p: Pid)
    requires KeysOK(s) && CollectsAtMost(s) && ClientsOK(s) && Turned(s, s', p) && p in s'.procs && ClientOK(s', p)
    ensures ClientsOK(s')
  {
    forall q | q in s'.procs
      ensures ClientOK(s', q)
    {
      if q != p {
        assert ClientOK(s, q);
        TurnOther(s, s', p, q);
      }
    }
  }

  /** Whether a client has written its image does not change in its turn. */
  lemma TurnImage(s: State, a: Action)
    requires IsTurn(a) && TurnEnabled(s, a) && ClientOK(s, a.p) && ImageOK(s, a.p) && !FailedTurn(s, a)
    ensures a.p in TurnApply(s, a).procs && ImageOK(TurnApply(s, a), a.p)
  {
    TurnIsExpected(s, a);
  }

  lemma TurnedImages(s: State, s': State, p: Pid)
    requires ImagesOK(s) && Turned(s, s', p) && p in s'.procs && ImageOK(s', p)
    ensures ImagesOK(s')
  {
    forall q | q in s'.procs
      ensures ImageOK(s', q)
    {
      if q != p { assert ImageOK(s, q); }
    }
  }

  lemma TurnStep(s: State, a: Action)
    requires Inv(s) && IsTurn(a) && TurnEnabled(s, a)
    ensures Inv(TurnApply(s, a))
  {
    assert ClientOK(s, a.p) && ImageOK(s, a.p);
    if FailedTurn(s, a) {
      TurnIsExpected(s, a);
      GiveUpInv(s);
    } else {
      TurnFrame(s, a);
      TurnIsOutside(s, a);
      TurnClient(s, a);
      TurnImage(s, a);
      AfterTurn(s, TurnApply(s, a), a.p);
    }
  }

  lemma TurnIsOutside(s: State, a: Action)
    requires KeysOK(s) && StageOK(s) && IsTurn(a) && TurnEnabled(s, a)
    ensures CollectsAtMost(s)
  {}

  lemma AfterTurn(s: State, s': State, p: Pid)
    requires Inv(s) && CollectsAtMost(s) && Turned(s, s', p) && p in s'.procs && ClientOK(s', p) && ImageOK(s', p)
    ensures Inv(s')
  {
    TurnedStage(s, s', p);
    TurnedClients(s, s', p);
    TurnedImages(s, s', p);
  }

  // ----- the coordinator, between two loops -----

  /** The coordinator finds out between two loops that a process is dead. */
  predicate FailedMove(s: State, a: Action)
    requires IsMove(a) && MoveEnabled(s, a)
  {
    a.NoticeDeath? || (a.AllCollected? && s.c.total != s.numPeers)
  }

  /** Where the coordinator is next. */
  predicate Moves(s: State, c': CPc) {
    || (s.c.Idle? && c'.Suspend?)
    || (s.c.Suspend? && c'.MakeDir? && forall p | p in s.pstate :: s.pstate[p].PReady?)
    || (s.c == SendStart({}) && c' == Collect(s.pstate.Keys, 0))
    || (s.c.Collect? && s.c.todo == {} && s.c.total == s.numPeers && c'.CreateManifest?)
    || (s.c == SendResume({}) && c' == if s.epoch != 0 then Unlink(s.epoch - 1, true) else NextEpoch)
    || (s.c.Gather? && c' == ReleaseRestart(s.pstate.Keys) && s.pstate != map[] && s.pstate.Keys == s.procs.Keys)
    || (s.c == ReleaseRestart({}) && c'.Idle?)
  }

  lemma MoveIs(s: State, a: Action)
    requires KeysOK(s) && StageOK(s) && IsMove(a) && MoveEnabled(s, a)
    ensures var s' := MoveApply(s, a);
            if FailedMove(s, a) then s' == GiveUp(s) else s' == s.(c := s'.c) && Moves(s, s'.c)
  {
    if a.AllRegistered? { SameSet(s.pstate.Keys, s.procs.Keys); }
  }

  lemma MoveClient(s: State, c': CPc, q: Pid)
    requires KeysOK(s) && StageOK(s) && Moves(s, c') && q in s.procs && ClientOK(s, q)
    ensures ClientOK(s.(c := c'), q)
  {
    if !s.c.Gather? { ClientView(s, s.(c := c'), q); }
  }

  lemma MovedStage(s: State, c': CPc)
    requires KeysOK(s) && StageOK(s) && DiskOK(s) && Moves(s, c')
    ensures var s' := s.(c := c'); KeysOK(s') && StageOK(s') && DiskOK(s')
  {
    if Round(s.c) || Post(s.c) { MovedInRound(s, c'); }
  }

  lemma MovedInRound(s: State, c': CPc)
    requires KeysOK(s) && StageOK(s) && Moves(s, c') && (Round(s.c) || Post(s.c))
    ensures KeysOK(s.(c := c')) && StageOK(s.(c := c'))
  {}

  lemma MovedClients(s: State, c': CPc)
    requires KeysOK(s) && StageOK(s) && ClientsOK(s) && Moves(s, c')
    ensures ClientsOK(s.(c := c'))
  {
    forall q | q in s.procs
      ensures ClientOK(s.(c := c'), q)
    {
      assert ClientOK(s, q);
      MoveClient(s, c', q);
    }
  }

  lemma MovedImages(s: State, c': CPc)
    requires ImagesOK(s) && Moves(s, c')
    ensures ImagesOK(s.(c := c'))
  {
    forall q | q in s.procs
      ensures ImageOK(s.(c := c'), q)
    {
      assert ImageOK(s, q);
    }
  }

  lemma MoveStep(s: State, a: Action)
    requires Inv(s) && IsMove(a) && MoveEnabled(s, a)
    ensures Inv(MoveApply(s, a))
  {
    MoveIs(s, a);
    if FailedMove(s, a) { GiveUpInv(s); } else { Moved(s, MoveApply(s, a).c); }
  }

  lemma Moved(s: State, c': CPc)
    requires Inv(s) && Moves(s, c')
    ensures Inv(s.(c := c'))
  {
    MovedStage(s, c');
    MovedClients(s, c');
    MovedImages(s, c');
  }

  // ----- the coordinator and the disk -----

  /** A new directory, or none if one of that name exists. */
  predicate DirCreated(s: State, s': State) {
    if s.epoch in s.disk then s' == s.(c := Unlink(s.epoch, false))
    else
      s' == s.(disk := s.disk[s.epoch := Dir(map[], NoManifest)], numPeers := |s.pstate|, c := SendStart(s.pstate.Keys))
  }

  lemma CreatedStage(s: State, s': State)
    requires KeysOK(s) && StageOK(s) && DiskOK(s) && s.c.MakeDir? && DirCreated(s, s')
    ensures KeysOK(s') && StageOK(s') && DiskOK(s')
  {}

  predicate ManifestOpened(s: State, s': State) {
    && s.epoch in s.disk
    && s' == s.(disk := s.disk[s.epoch := s.disk[s.epoch].(manifest := EmptyManifest)], c := ScanImages)
  }

  lemma OpenIs(s: State)
    requires StageOK(s) && DiskEnabled(s, OpenManifest)
    ensures ManifestOpened(s, DiskApply(s, OpenManifest))
  {}

  lemma OpenedStage(s: State, s': State)
    requires KeysOK(s) && StageOK(s) && DiskOK(s) && s.c.CreateManifest? && ManifestOpened(s, s')
    ensures KeysOK(s') && StageOK(s') && DiskOK(s')
  {}

  /** Only the directory being unlinked changes, and only by losing files. */
  predicate OnlyUnlinks(s: State, s': State) {
    && s.c.Unlink? && s' == s.(disk := s'.disk, c := s'.c)
    && (s'.c == s.c || s'.c == if s.c.success then NextEpoch else Idle)
    && s'.disk.Keys <= s.disk.Keys
    && (forall e | e in s.disk && e != s.c.e :: e in s'.disk && s'.disk[e] == s.disk[e])
    && (s.c.e in s'.disk ==>
          && s.c.e in s.disk && s'.disk[s.c.e].images.Keys <= s.disk[s.c.e].images.Keys
          && forall p | p in s'.disk[s.c.e].images :: s'.disk[s.c.e].images[p] == s.disk[s.c.e].images[p])
  }

  lemma UnlinkIs(s: State, a: Action)
    requires IsUnlink(a) && DiskEnabled(s, a)
    ensures OnlyUnlinks(s, DiskApply(s, a))
  {}

  lemma OnlyUnlinksDisk(s: State, s': State)
    requires OnlyUnlinks(s, s') && DiskOK(s)
    ensures DiskOK(s')
  {
    forall e, p | e in s'.disk && p in s'.disk[e].images
      ensures s'.disk[e].images[p].epoch == e
    {
      assert s'.disk[e].images[p] == s.disk[e].images[p];
    }
  }

  lemma OnlyUnlinksStage(s: State, s': State)
    requires OnlyUnlinks(s, s') && KeysOK(s) && StageOK(s)
    ensures KeysOK(s') && StageOK(s')
  {
    if s.c.success {
      assert HasManifest(s, s.epoch) && s'.disk[s.epoch] == s.disk[s.epoch];
    } else {
      assert HasManifest(s, s.epoch - 1) && s'.disk[s.epoch - 1] == s.disk[s.epoch - 1];
    }
  }

  lemma AdvancedStage(s: State, s': State)
    requires KeysOK(s) && StageOK(s) && DiskOK(s) && s.c.NextEpoch? && s' == s.(epoch := s.epoch + 1, c := Idle)
    ensures KeysOK(s') && StageOK(s') && DiskOK(s')
  {}

  lemma ScanFindsItself(ids: set<Pid>)
    ensures ScannedIds(ids, ids) == ids
  {
    forall p | p in ids
      ensures p in ScannedIds(ids, ids)
    {
      assert p <= p;
    }
  }

  /** Every process has sent XND_CKPT_DONE, so its image is in the directory. */
  lemma ScanFindsAll(s: State)
    requires KeysOK(s) && StageOK(s) && ClientsOK(s) && ImagesOK(s) && s.c.ScanImages?
    ensures s.disk[s.epoch].images.Keys == s.procs.Keys == s.pstate.Keys
    ensures s.numPeers == |s.procs.Keys|
    ensures forall p | p in s.disk[s.epoch].images :: s.disk[s.epoch].images[p].numPeers == s.numPeers
  {
    forall p | p in s.procs
      ensures p in s.disk[s.epoch].images && s.disk[s.epoch].images[p].numPeers == s.numPeers
    {
      AllComplete(s, p);
    }
  }

  lemma AllComplete(s: State, p: Pid)
    requires KeysOK(s) && StageOK(s) && s.c.ScanImages? && p in s.procs && ClientOK(s, p) && ImageOK(s, p)
    ensures s.pstate[p].PComplete? && p in s.disk[s.epoch].images && s.disk[s.epoch].images[p].numPeers == s.numPeers
  {}

  lemma WriteManifestIs(s: State)
    requires s.epoch in s.disk && s.disk[s.epoch].images.Keys == s.procs.Keys == s.pstate.Keys
    requires s.numPeers == |s.procs.Keys|
    ensures ManifestFilled(s, WriteManifest(s))
  {
    ScanFindsItself(s.procs.Keys);
  }

  lemma FillIs(s: State)
    requires KeysOK(s) && StageOK(s) && ClientsOK(s) && ImagesOK(s) && DiskEnabled(s, FillManifest)
    ensures ManifestFilled(s, DiskApply(s, FillManifest))
  {
    ScanFindsAll(s);
    WriteManifestIs(s);
  }

  /** The manifest names exactly the processes of the computation. */
  predicate ManifestFilled(s: State, s': State) {
    && s.epoch in s.disk
    && s' == s.(c := SendResume(s.pstate.Keys),
                disk := s.disk[s.epoch := s.disk[s.epoch].(manifest := Names(s.procs.Keys))])
  }

  lemma FilledStage(s: State, s': State)
    requires KeysOK(s) && StageOK(s) && DiskOK(s) && s.c.ScanImages? && ManifestFilled(s, s')
    requires s.disk[s.epoch].images.Keys == s.procs.Keys
    requires forall p | p in s.disk[s.epoch].images :: s.disk[s.epoch].images[p].numPeers == |s.procs.Keys|
    ensures KeysOK(s') && StageOK(s') && DiskOK(s')
  {
    if s.procs == map[] {
      assert s'.disk[s.epoch].manifest == Names({});
    } else {
      assert Complete(s'.disk[s.epoch]);
    }
  }

  lemma FilledInv(s: State, s': State)
    requires Inv(s) && s.c.ScanImages? && ManifestFilled(s, s')
    ensures Inv(s')
  {
    ScanFindsAll(s);
    FilledStage(s, s');
    FilledClients(s, s');
  }

  lemma FilledClients(s: State, s': State)
    requires KeysOK(s) && ClientsOK(s) && s.c.ScanImages? && ManifestFilled(s, s')
    ensures ClientsOK(s') && ImagesOK(s')
  {
    forall q | q in s'.procs
      ensures ClientOK(s', q)
    {
      assert ClientOK(s, q);
      ClientView(s, s', q);
    }
  }

  lemma CreatedInv(s: State, s': State)
    requires Inv(s) && s.c.MakeDir? && DirCreated(s, s')
    ensures Inv(s')
  {
    CreatedStage(s, s');
    forall q | q in s'.procs
      ensures ClientOK(s', q) && ImageOK(s', q)
    {
      assert ClientOK(s, q) && s.pstate[q].PReady?;
      ClientView(s, s', q);
    }
  }

  lemma OpenedInv(s: State, s': State)
    requires Inv(s) && s.c.CreateManifest? && ManifestOpened(s, s')
    ensures Inv(s')
  {
    OpenedStage(s, s');
    forall q | q in s'.procs
      ensures ClientOK(s', q) && ImageOK(s', q)
    {
      assert ClientOK(s, q) && ImageOK(s, q);
      ClientView(s, s', q);
    }
  }

  lemma UnlinkedInv(s: State, s': State)
    requires Inv(s) && OnlyUnlinks(s, s')
    ensures Inv(s')
  {
    OnlyUnlinksDisk(s, s');
    OnlyUnlinksStage(s, s');
    forall q | q in s'.procs
      ensures ClientOK(s', q)
    {
      assert ClientOK(s, q);
      ClientView(s, s', q);
    }
  }

  lemma AdvancedInv(s: State, s': State)
    requires Inv(s) && s.c.NextEpoch? && s' == s.(epoch := s.epoch + 1, c := Idle)
    ensures Inv(s')
  {
    AdvancedStage(s, s');
    forall q | q in s'.procs
      ensures ClientOK(s', q)
    {
      assert ClientOK(s, q);
    }
  }

  lemma DiskStep(s: State, a: Action)
    requires Inv(s) && IsDisk(a) && DiskEnabled(s, a)
    ensures Inv(DiskApply(s, a)) && DiskApply(s, a).up
  {
    if a.CreateDir? { CreatedInv(s, DiskApply(s, a)); }
    else if a.OpenManifest? { OpenIs(s); OpenedInv(s, DiskApply(s, a)); }
    else if a.FillManifest? { FillIs(s); FilledInv(s, DiskApply(s, a)); }
    else if a.AdvanceEpoch? { AdvancedInv(s, DiskApply(s, a)); }
    else { UnlinkIs(s, a); UnlinkedInv(s, DiskApply(s, a)); }
  }

  // ----- a crash, and the restart from a complete directory -----

  lemma CrashStep(s: State, e: nat)
    requires Inv(s) && CrashEnabled(s, e)
    ensures Inv(CrashApply(s, e))
  {
    CrashStage(s, e);
    CrashClients(s, e);
  }

  lemma CrashStage(s: State, e: nat)
    requires DiskOK(s) && CrashEnabled(s, e)
    ensures var s' := CrashApply(s, e); KeysOK(s') && StageOK(s') && DiskOK(s') && ImagesOK(s')
  {
    var s' := CrashApply(s, e);
    assert s'.procs.Keys == s.disk[e].manifest.pids;
    var p :| p in s.disk[e].manifest.pids;
    assert p in s'.procs;
  }

  lemma CrashClients(s: State, e: nat)
    requires DiskOK(s) && CrashEnabled(s, e)
    ensures ClientsOK(CrashApply(s, e))
  {
    assert CrashApply(s, e).procs.Keys == s.disk[e].manifest.pids;
  }

  lemma StepInv(s: State, a: Action)
    requires Inv(s) && Enabled(s, a)
    requires a.Fork? ==> !s.procs[a.parent].ts.k.AwaitResume?
    requires a.Exec? ==> s.epoch == 0
    ensures Inv(Apply(s, a))
  {
    if IsClient(a) { ClientStep(s, a); }
    else if IsMember(a) { MemberStep(s, a); }
    else if IsTurn(a) { TurnStep(s, a); }
    else if IsMove(a) { MoveStep(s, a); }
    else if IsDisk(a) { DiskStep(s, a); }
    else { CrashStep(s, a.e); }
  }
}
