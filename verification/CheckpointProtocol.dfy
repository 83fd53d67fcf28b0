/**
  The coordinator, its clients and the checkpoint directory as one transition system
  (xnd/coordinator/xnd_coord.c, xnd/coordinator/xnd_coord_client.c, xnd/xnd_lib.c and
  xnd/ckptfile.c). Every client is a whole ThreadSuspension system; the coordinator and a
  client talk through two FIFO channels; the directory survives a crash of everything.
 */
module CheckpointProtocol {
  import T = ThreadSuspension

  type Pid = nat                                  // an xnd_pid

  datatype Msg =
    | CkptRequest | CkptReady | CkptStart(numPeers: nat) | CkptDone
    | ResumeAfterCkpt | ResumeAfterRestart

  datatype ProcState = PRunning | PRecvRequest | PReady | PInProgress | PComplete | PRestarting

  /**
    `epoch` and `numPeers` are globals of the client, so an image contains them. A process
    that has ended, by exit or by an abort, is no longer `alive`; the coordinator may still
    have it on its list and may still read what it sent.
   */
  datatype Client =
    Client(ts: T.State, epoch: nat, numPeers: nat, toClient: seq<Msg>, toCoord: seq<Msg>, alive: bool)

  datatype Image = Image(ts: T.State, epoch: nat, numPeers: nat)

  /** A manifest file does not exist, is empty, or names processes. */
  datatype Manifest = NoManifest | EmptyManifest | Names(pids: set<Pid>)

  datatype Dir = Dir(images: map<Pid, Image>, manifest: Manifest)

  /** Where the coordinator is; the loops over the process list keep what is left to do. */
  datatype CPc =
    | Idle
    | Suspend                                     // coord_suspend_processes
    | MakeDir
    | SendStart(todo: set<Pid>)                   // coord_release_barrier(PRECKPT)
    | Collect(todo: set<Pid>, total: nat)         // coord_wait_for_ckpt_completions
    | CreateManifest
    | ScanImages                                  // the scan of xnd_ckptfile_write_manifest
    | SendResume(todo: set<Pid>)                  // coord_release_barrier(POSTCKPT)
    | Unlink(e: nat, success: bool)               // xnd_ckptdir_unlink
    | NextEpoch
    | Gather(from: nat)                           // coord_do_restart, after a restart from epoch `from`
    | ReleaseRestart(todo: set<Pid>)

  datatype State = State(
    procs: map<Pid, Client>,
    pstate: map<Pid, ProcState>,                  // the process list of the coordinator
    epoch: nat, numPeers: nat,
    c: CPc,
    disk: map<nat, Dir>,
    up: bool)                                     // no coord_exit(COORD_EXIT_FAILURE), no failed assertion

  datatype Action =
    // clients; a process may end at any time
    | Inner(p: Pid, a: T.Action)
    | RecvRequest(p: Pid) | Ready(p: Pid) | RecvStart(p: Pid)
    | WriteImage(p: Pid) | Done(p: Pid) | RecvResume(p: Pid)
    | Register(p: Pid) | RecvRestartResume(p: Pid) | Die(p: Pid)
    | Launch(p: Pid, mem: int, regs: int)
    | Fork(parent: Pid, p: Pid, t: T.Tid, mem: int, regs: int)
    | Exec(p: Pid, t: T.Tid, mem: int, regs: int)
    | Reap(p: Pid)                                // XND_EXIT, a lost connection, or ESRCH
    // coordinator
    | BeginCkpt | SendRequest(p: Pid) | CollectReady(p: Pid) | AllReady
    | CreateDir | StartOne(p: Pid) | AllStarted
    | CollectDone(p: Pid) | AllCollected
    | OpenManifest | FillManifest
    | ResumeOne(p: Pid) | AllResumed
    | UnlinkImage(p: Pid) | UnlinkManifest | RemoveDir | AdvanceEpoch
    | AllRegistered | ReleaseOne(p: Pid) | AllReleased
    | NoticeDeath(p: Pid)                         // coord_collective_prepare counts too few
    // everything dies; the user restarts from a complete directory
    | CrashAndRestart(e: nat)

  /** A directory from which the whole computation can be restarted. */
  predicate Complete(d: Dir) {
    && d.manifest.Names?
    && d.manifest.pids != {}
    && d.manifest.pids <= d.images.Keys
    && forall p | p in d.manifest.pids :: d.images[p].numPeers == |d.manifest.pids|
  }

  /** Steps of a client that involve neither a channel nor the disk. */
  predicate IsInner(a: T.Action) { T.IsUser(a) || T.IsHandler(a) || a.Ckpt? }

  function SetClient(s: State, p: Pid, c: Client): State {
    s.(procs := s.procs[p := c])
  }

  predicate IsClient(a: Action) {
    a.Inner? || a.RecvRequest? || a.Ready? || a.RecvStart? || a.WriteImage? || a.Done? ||
    a.RecvResume? || a.Register? || a.RecvRestartResume? || a.Die?
  }

  predicate ClientEnabled(s: State, a: Action)
    requires IsClient(a)
  {
    && a.p in s.procs
    && var c := s.procs[a.p];
    && c.alive
    && match a {
         case Inner(_, b) => IsInner(b) && T.Enabled(c.ts, b)
         case RecvRequest(_) => c.ts.k.Idle? && c.toClient != []
         case Ready(_) => c.ts.k.Pending?
         case RecvStart(_) => c.ts.k.AwaitStart? && c.toClient != []
         case WriteImage(_) => c.ts.k.Frozen?
         case Done(_) => c.ts.k.ImageWritten?
         case RecvResume(_) => c.ts.k.AwaitResume? && c.toClient != []
         case Register(p) => c.ts.k.RestartConnect? && p !in s.pstate && s.c.Gather? && s.up
         case RecvRestartResume(p) => c.ts.k.RestartConnect? && p in s.pstate && c.toClient != []
         case Die(_) => true
       }
  }

  /** xnd_abort ends the whole process. */
  function Abort(c: Client): Client { c.(ts := c.ts.(k := T.Aborted), alive := false) }

  /** A step of the checkpoint thread that belongs to a message or to the image. */
  function Sync(c: Client, a: T.Action): Client
    requires T.IsSync(a) && T.SyncEnabled(c.ts, a)
  {
    c.(ts := T.SyncApply(c.ts, a))
  }

  /** A failed assertion of the checkpoint thread ends the process too. */
  function InnerApply(c: Client, a: T.Action): Client
    requires T.Enabled(c.ts, a)
  {
    var ts := T.Apply(c.ts, a);
    c.(ts := ts, alive := c.alive && !ts.k.Aborted?)
  }

  /** Reading the first message: any but the expected one is fatal. */
  function Receive(c: Client, expected: bool, a: T.Action): Client
    requires c.toClient != [] && T.IsSync(a) && T.SyncEnabled(c.ts, a)
  {
    var c' := c.(toClient := c.toClient[1..]);
    if expected then Sync(c', a) else Abort(c')
  }

  /** Without a directory, or with a file of that name in it, nothing is written. */
  function WriteImageApply(s: State, p: Pid): State
    requires p in s.procs && s.procs[p].ts.k.Frozen?
  {
    var c := s.procs[p];
    var s' := SetClient(s, p, Sync(c, T.WriteImage));
    if c.epoch in s.disk && p !in s.disk[c.epoch].images then
      var d := s.disk[c.epoch];
      s'.(disk := s.disk[c.epoch := d.(images := d.images[p := Image(c.ts, c.epoch, c.numPeers)])])
    else s'
  }

  /** epoch++, then the handshake; the first process to register sets up the coordinator. */
  function RegisterApply(s: State, p: Pid): State
    requires p in s.procs
  {
    var c := s.procs[p];
    var s' := SetClient(s, p, c.(epoch := c.epoch + 1)).(pstate := s.pstate[p := PRestarting]);
    if |s.pstate| == 0 then s'.(epoch := c.epoch + 1, numPeers := c.numPeers) else s'
  }

  function ClientApply(s: State, a: Action): State
    requires IsClient(a) && ClientEnabled(s, a)
  {
    var c := s.procs[a.p];
    match a {
      case Inner(p, b) => SetClient(s, p, InnerApply(c, b))
      case RecvRequest(p) => SetClient(s, p, Receive(c, c.toClient[0].CkptRequest?, T.Request))
      case Ready(p) => SetClient(s, p, Sync(c, T.Ready).(toCoord := c.toCoord + [CkptReady]))
      case RecvStart(p) =>
        var m := c.toClient[0];
        var c' := Receive(c, m.CkptStart?, T.Start);
        SetClient(s, p, if m.CkptStart? then c'.(numPeers := m.numPeers) else c')
      case WriteImage(p) => WriteImageApply(s, p)
      case Done(p) => SetClient(s, p, Sync(c, T.SendDone).(toCoord := c.toCoord + [CkptDone]))
      case RecvResume(p) =>
        var m := c.toClient[0];
        var c' := Receive(c, m.ResumeAfterCkpt?, T.Resume);
        SetClient(s, p, if m.ResumeAfterCkpt? then c'.(epoch := c.epoch + 1) else c')
      case Register(p) => RegisterApply(s, p)
      case RecvRestartResume(p) => SetClient(s, p, Receive(c, c.toClient[0].ResumeAfterRestart?, T.RestartResume))
      case Die(p) => SetClient(s, p, c.(alive := false))
    }
  }

  // ----- who takes part -----

  predicate IsMember(a: Action) { a.Launch? || a.Fork? || a.Exec? || a.Reap? }

  /**
    A process joins, or reconnects after exec, only while the coordinator accepts
    connections. A dead one is removed from the list there, and while the others are
    being suspended.
   */
  predicate MemberEnabled(s: State, a: Action)
    requires IsMember(a)
  {
    && s.up
    && match a {
         case Launch(p, _, _) => s.c.Idle? && p !in s.procs && p !in s.pstate && s.epoch == 0
         case Fork(parent, p, t, _, _) =>
           // the forking thread is inside the fork hook
           s.c.Idle? && p !in s.procs && p !in s.pstate && HasThread(s, parent, t) &&
           s.procs[parent].ts.threads[t].pc.Wrap?
         case Exec(p, t, _, _) =>
           s.c.Idle? && p in s.pstate && HasThread(s, p, t) && s.procs[p].ts.threads[t].h.NoHandler?
         case Reap(p) => (s.c.Idle? || s.c.Suspend?) && p in s.procs && p in s.pstate && !s.procs[p].alive
       }
  }

  predicate HasThread(s: State, p: Pid, t: T.Tid) {
    p in s.procs && s.procs[p].alive && t in s.procs[p].ts.threads && s.procs[p].ts.threads[t].Live()
  }

  /** The record of a process that reconnects after exec keeps its state, and no epoch is sent back. */
  function MemberApply(s: State, a: Action): State
    requires IsMember(a) && MemberEnabled(s, a)
  {
    match a {
      case Launch(p, mem, regs) => Joined(s, p, Client(T.Init(mem, regs), 0, 0, [], [], true))
      case Fork(parent, p, _, mem, regs) =>
        var c := s.procs[parent];
        Joined(s, p, Client(T.InitForked(mem, regs), c.epoch, c.numPeers, [], [], true))
      case Exec(p, _, mem, regs) => SetClient(s, p, Client(T.Init(mem, regs), 0, 0, [], [], true))
      case Reap(p) => s.(procs := s.procs - {p}, pstate := s.pstate - {p})
    }
  }

  function Joined(s: State, p: Pid, c: Client): State {
    SetClient(s, p, c).(pstate := s.pstate[p := PRunning])
  }

  // ----- the coordinator, one process at a time -----

  predicate IsTurn(a: Action) {
    a.SendRequest? || a.CollectReady? || a.StartOne? || a.CollectDone? || a.ResumeOne? || a.ReleaseOne?
  }

  predicate InTodo(s: State, p: Pid, todo: set<Pid>) { p in todo && p in s.procs && p in s.pstate }

  predicate TurnEnabled(s: State, a: Action)
    requires IsTurn(a)
  {
    && s.up && a.p in s.pstate && a.p in s.procs
    && match a {
         case SendRequest(p) => s.c.Suspend? && s.pstate[p].PRunning? && s.procs[p].alive
         case CollectReady(p) => s.c.Suspend? && s.pstate[p].PRecvRequest? && s.procs[p].toCoord != []
         case StartOne(p) => s.c.SendStart? && p in s.c.todo
         case CollectDone(p) =>
           s.c.Collect? && p in s.c.todo && (s.pstate[p].PInProgress? && s.procs[p].alive ==> s.procs[p].toCoord != [])
         case ResumeOne(p) => s.c.SendResume? && p in s.c.todo
         case ReleaseOne(p) => s.c.ReleaseRestart? && p in s.c.todo
       }
  }

  /** coord_exit, or a failed assertion. */
  function GiveUp(s: State): State { s.(up := false) }

  /** One turn of coord_release_barrier: assert the state, send, advance the state. */
  function Release(s: State, p: Pid, expected: ProcState, next: ProcState, m: Msg, c': CPc): State
    requires p in s.procs && p in s.pstate
  {
    if s.pstate[p] != expected || !s.procs[p].alive then GiveUp(s)
    else SetClient(s, p, s.procs[p].(toClient := s.procs[p].toClient + [m])).(
           pstate := s.pstate[p := next], c := c')
  }

  /** The first message of a client is taken from its channel. */
  function Taken(s: State, p: Pid): State
    requires p in s.procs && s.procs[p].toCoord != []
  {
    SetClient(s, p, s.procs[p].(toCoord := s.procs[p].toCoord[1..]))
  }

  function TurnApply(s: State, a: Action): State
    requires IsTurn(a) && TurnEnabled(s, a)
  {
    var c := s.procs[a.p];
    match a {
      case SendRequest(p) =>
        SetClient(s, p, c.(toClient := c.toClient + [CkptRequest])).(pstate := s.pstate[p := PRecvRequest])
      case CollectReady(p) =>
        Taken(s, p).(pstate := if c.toCoord[0].CkptReady? then s.pstate[p := PReady] else s.pstate)
      case StartOne(p) => Release(s, p, PReady, PInProgress, CkptStart(s.numPeers), SendStart(s.c.todo - {p}))
      case CollectDone(p) =>
        if !s.pstate[p].PInProgress? then GiveUp(s)
        else if c.toCoord == [] then s.(c := Collect(s.c.todo - {p}, s.c.total))
        else if c.toCoord[0].CkptDone? then
          Taken(s, p).(pstate := s.pstate[p := PComplete], c := Collect(s.c.todo - {p}, s.c.total + 1))
        else Taken(s, p).(c := Collect(s.c.todo - {p}, s.c.total))
      case ResumeOne(p) => Release(s, p, PComplete, PRunning, ResumeAfterCkpt, SendResume(s.c.todo - {p}))
      case ReleaseOne(p) => Release(s, p, PRestarting, PRunning, ResumeAfterRestart, ReleaseRestart(s.c.todo - {p}))
    }
  }

  // ----- the coordinator, between two loops -----

  /** Steps that leave clients, their records, the epoch and the disk alone. */
  predicate IsMove(a: Action) {
    a.BeginCkpt? || a.AllReady? || a.AllStarted? || a.AllCollected? || a.AllResumed? ||
    a.AllRegistered? || a.AllReleased? || a.NoticeDeath?
  }

  predicate MoveEnabled(s: State, a: Action)
    requires IsMove(a)
  {
    && s.up
    && match a {
         case BeginCkpt => s.c.Idle? && s.pstate != map[]
         case AllReady => s.c.Suspend? && forall p | p in s.pstate :: s.pstate[p].PReady?
         case AllStarted => s.c.SendStart? && s.c.todo == {}
         case AllCollected => s.c.Collect? && s.c.todo == {}
         case AllResumed => s.c.SendResume? && s.c.todo == {}
         case AllRegistered => s.c.Gather? && s.pstate != map[] && |s.pstate| >= s.numPeers
         case AllReleased => s.c.ReleaseRestart? && s.c.todo == {}
         case NoticeDeath(p) =>
           // once, before the first turn of the loop
           (s.c.SendStart? || s.c.Collect? || s.c.ReleaseRestart?) && s.c.todo == s.pstate.Keys &&
           InTodo(s, p, s.c.todo) && !s.procs[p].alive
       }
  }

  function MoveApply(s: State, a: Action): State
    requires IsMove(a) && MoveEnabled(s, a)
  {
    match a {
      case BeginCkpt => s.(c := Suspend)
      case AllReady => s.(c := MakeDir)
      case AllStarted => s.(c := Collect(s.pstate.Keys, 0))
      case AllCollected => if s.c.total == s.numPeers then s.(c := CreateManifest) else GiveUp(s)
      case AllResumed => s.(c := if s.epoch != 0 then Unlink(s.epoch - 1, true) else NextEpoch)
      case AllRegistered => s.(c := ReleaseRestart(s.pstate.Keys))
      case AllReleased => s.(c := Idle)
      case NoticeDeath(_) => GiveUp(s)
    }
  }

  // ----- the coordinator and the disk -----

  predicate IsUnlink(a: Action) { a.UnlinkImage? || a.UnlinkManifest? || a.RemoveDir? }

  predicate IsDisk(a: Action) {
    a.CreateDir? || a.OpenManifest? || a.FillManifest? || IsUnlink(a) || a.AdvanceEpoch?
  }

  predicate DiskEnabled(s: State, a: Action)
    requires IsDisk(a)
  {
    && s.up
    && match a {
         case CreateDir => s.c.MakeDir?
         case OpenManifest => s.c.CreateManifest?
         case FillManifest => s.c.ScanImages?
         case UnlinkImage(p) => s.c.Unlink? && s.c.e in s.disk && p in s.disk[s.c.e].images
         case UnlinkManifest => s.c.Unlink? && s.c.e in s.disk && !s.disk[s.c.e].manifest.NoManifest?
         case RemoveDir =>
           s.c.Unlink? && (s.c.e in s.disk ==> s.disk[s.c.e].images == map[] && s.disk[s.c.e].manifest.NoManifest?)
         case AdvanceEpoch => s.c.NextEpoch?
       }
  }

  /** xnd_ckptfile_write_manifest after the file has been created. */
  function WriteManifest(s: State): State {
    if s.epoch !in s.disk then GiveUp(s)
    else
      var found := ScannedIds(s.disk[s.epoch].images.Keys, s.pstate.Keys);
      if |found| != s.numPeers then GiveUp(s)
      else s.(disk := s.disk[s.epoch := s.disk[s.epoch].(manifest := Names(found))], c := SendResume(s.pstate.Keys))
  }

  /** The ids the scan finds: it runs from the smallest to the largest listed xnd_pid. */
  function ScannedIds(files: set<Pid>, listed: set<Pid>): set<Pid> {
    set p | p in files && (exists lo | lo in listed :: lo <= p) && (exists hi | hi in listed :: p <= hi)
  }

  function DiskApply(s: State, a: Action): State
    requires IsDisk(a) && DiskEnabled(s, a)
  {
    match a {
      case CreateDir =>
        if s.epoch in s.disk then s.(c := Unlink(s.epoch, false))
        else
          s.(disk := s.disk[s.epoch := Dir(map[], NoManifest)], numPeers := |s.pstate|, c := SendStart(s.pstate.Keys))
      case OpenManifest =>
        if s.epoch in s.disk && s.disk[s.epoch].manifest.NoManifest?
        then s.(disk := s.disk[s.epoch := s.disk[s.epoch].(manifest := EmptyManifest)], c := ScanImages)
        else GiveUp(s)
      case FillManifest => WriteManifest(s)
      case UnlinkImage(p) =>
        var d := s.disk[s.c.e];
        s.(disk := s.disk[s.c.e := d.(images := d.images - {p})])
      case UnlinkManifest => s.(disk := s.disk[s.c.e := s.disk[s.c.e].(manifest := NoManifest)])
      case RemoveDir => s.(disk := s.disk - {s.c.e}, c := if s.c.success then NextEpoch else Idle)
      case AdvanceEpoch => s.(epoch := s.epoch + 1, c := Idle)
    }
  }

  // ----- a crash, and the restart from a complete directory -----

  predicate CrashEnabled(s: State, e: nat) { e in s.disk && Complete(s.disk[e]) }

  function CrashApply(s: State, e: nat): State
    requires CrashEnabled(s, e)
  {
    var d := s.disk[e];
    State(map p | p in d.manifest.pids ::
            Client(T.RestartOf(d.images[p].ts), d.images[p].epoch, d.images[p].numPeers, [], [], true),
          map[], 0, 0, Gather(e), s.disk, true)
  }

  predicate Enabled(s: State, a: Action) {
    if IsClient(a) then ClientEnabled(s, a)
    else if IsMember(a) then MemberEnabled(s, a)
    else if IsTurn(a) then TurnEnabled(s, a)
    else if IsMove(a) then MoveEnabled(s, a)
    else if IsDisk(a) then DiskEnabled(s, a)
    else CrashEnabled(s, a.e)
  }

  function Apply(s: State, a: Action): State
    requires Enabled(s, a)
  {
    if IsClient(a) then ClientApply(s, a)
    else if IsMember(a) then MemberApply(s, a)
    else if IsTurn(a) then TurnApply(s, a)
    else if IsMove(a) then MoveApply(s, a)
    else if IsDisk(a) then DiskApply(s, a)
    else CrashApply(s, a.e)
  }

  function Init(): State { State(map[], map[], 0, 0, Idle, map[], true) }
}
