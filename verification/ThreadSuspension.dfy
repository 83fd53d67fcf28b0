/**
  The suspension protocol inside one process (xnd/thread_info.c, xnd/thread_info.h and
  the create, join and cancel hooks of xnd/wrappers/pthread_wrappers.c) as a transition
  system: any number of user threads, one checkpoint thread, two locks, one two-phase
  barrier. One action is one atomic step; in particular every load of `th->state` in
  `suspend_threads` and `wait_for_exiting_threads` is an action of its own.
 */
module ThreadSuspension {

  type Tid = nat

  /** `enum thread_state` without ST_CKPT_THREAD, which no listed thread has. */
  datatype ThreadState = Embryo | Running | Signaled | SuspInProg | Suspended | Unsafe

  /** Where a thread's own code is. `wrapper_depth` is 1 in Spin and `depth` in Wrap. */
  datatype Pc =
    | Starting(creator: Tid)                 // thread_start, before thread_list_add
    | Added(creator: Tid)                    // listed, before the store of ST_RUNNING
    | User
    | Spin                                   // unsafe_enter, retrying the CAS
    | Wrap(depth: nat)                       // inside an unsafe section
    | Creating(depth: nat, child: Tid)       // waiting in the pthread_create hook
    | Exiting                                // after `exiting = 1`

  /** Where the signal handler, or thread_restart, is. `r` tells the two apart. */
  datatype Handler =
    | NoHandler
    | Saving                                 // ST_SUSPINPROG, context not saved yet
    | Saved                                  // context saved, still ST_SUSPINPROG
    | AtBarrier(r: bool)                     // thread_barrier, not counted as arrived
    | Arrived(r: bool)                       // threads_arrived incremented
    | Leaving(r: bool)                       // out of thread_barrier
    | Unborn                                 // only in an image: no kernel thread yet
    | Recreated                              // thread_restart before the store of ST_RUNNING

  /**
    `regs` stands for the thread's own continuation and `uctx` for the saved context.
    `gone` holds once the kernel thread has terminated (pthread_kill reports ESRCH).
   */
  datatype Thread = Thread(
    state: ThreadState, pc: Pc, h: Handler,
    exiting: bool, joined: bool, gone: bool, listed: bool,
    regs: int, uctx: int)
  {
    predicate Live() { !gone && !h.Unborn? }

    predicate InSuspension() { state.SuspInProg? || state.Suspended? }
  }

  datatype XndState = XRunning | XPending | XSuspInProg | XCkptInProg

  /** Program counter of the checkpoint thread. */
  datatype KPc =
    | Idle
    | Pending                                                    // XND_CKPT_REQUEST received
    | AwaitStart                                                 // XND_CKPT_READY sent
    | Begin                                                      // suspend_threads
    | ResetArrived
    | Again                                                      // label `again`
    | Pass(todo: set<Tid>, suspended: nat, rescan: bool)
    | Look(t: Tid, load: nat, todo: set<Tid>, suspended: nat, rescan: bool)
    | SetExpected(n: nat)
    | WaitAgain                                                  // wait_for_exiting_threads
    | WaitPass(todo: set<Tid>, exiting: nat, killed: nat)
    | WaitLook(t: Tid, todo: set<Tid>, exiting: nat, killed: nat)
    | Open                                                       // barrier_arrival_wait
    | Fill(r: bool)
    | Frozen
    | ImageWritten
    | AwaitResume                                                // XND_CKPT_DONE sent
    | Resuming
    | Aborted                                                    // a failed xnd_assert
    | RestartConnect                                             // xnd_postrestart_early
    | RestartBegin                                               // restore_threads
    | Restoring(todo: set<Tid>)
    | RestartFrozen

  /**
    The last four fields are history: they record which threads the last pass counted,
    which have arrived since, which fell through every test of the pass, and which
    counted threads went back to user code.
   */
  datatype State = State(
    threads: map<Tid, Thread>,
    mem: int,
    xs: XndState,
    expected: nat, arrived: nat,
    k: KPc,
    counted: set<Tid>, arrivedSet: set<Tid>, slipped: set<Tid>, deserters: set<Tid>)

  datatype Action =
    | Compute(t: Tid, regs: int, mem: int)
    | EnterSpin(t: Tid) | EnterCas(t: Tid) | EnterNested(t: Tid)
    | ExitNested(t: Tid) | ExitCas(t: Tid)
    | Create(t: Tid, child: Tid) | AddSelf(t: Tid) | Started(t: Tid) | CreateDone(t: Tid)
    | Exit(t: Tid) | Die(t: Tid) | Join(t: Tid, target: Tid)
    | Handle(t: Tid) | SaveContext(t: Tid) | MarkSuspended(t: Tid)
    | Arrive(t: Tid) | Leave(t: Tid) | Back(t: Tid) | RestartSelf(t: Tid)
    | Ckpt(t: Tid)                                               // next step of the checkpoint thread
    | Request | Ready | Start | WriteImage | SendDone | Resume | RestartResume

  predicate HoldsListLock(k: KPc) {
    k.Pass? || k.Look? || k.WaitPass? || k.WaitLook? || k.Restoring?
  }

  predicate HoldsCkptMtx(k: KPc) {
    k.Pass? || k.Look? || k.Restoring?
  }

  function Put(s: State, t: Tid, th: Thread): State {
    s.(threads := s.threads[t := th])
  }

  function Listed(s: State): set<Tid> {
    set t | t in s.threads && s.threads[t].listed
  }

  function Init(mem: int, regs: int): State {
    State(map[0 := Thread(Running, User, NoHandler, false, false, false, true, regs, regs)],
          mem, XRunning, 0, 0, Idle, {}, {}, {}, {})
  }

  /** The child of a fork: one thread, still inside the fork hook (thread_list_init). */
  function InitForked(mem: int, regs: int): State {
    State(map[0 := Thread(Unsafe, Wrap(1), NoHandler, false, false, false, true, regs, regs)],
          mem, XRunning, 0, 0, Idle, {}, {}, {}, {})
  }

  predicate UserEnabled(s: State, a: Action)
    requires a.Compute? || a.EnterSpin? || a.EnterCas? || a.EnterNested? || a.ExitNested? || a.ExitCas? ||
             a.Create? || a.AddSelf? || a.Started? || a.CreateDone? || a.Exit? || a.Die? || a.Join?
  {
    && a.t in s.threads
    && var th := s.threads[a.t];
    && th.Live() && th.h.NoHandler?
    && match a {
         case Compute(_, _, _) => true
         case EnterSpin(_) => th.pc.User?
         case EnterCas(_) => th.pc.Spin? && th.state.Running?
         case EnterNested(_) => th.pc.Wrap?
         case ExitNested(_) => th.pc.Wrap? && th.pc.depth > 1
         case ExitCas(_) => th.pc.Wrap? && th.pc.depth == 1
         case Create(_, child) => th.pc.Wrap? && child !in s.threads
         case AddSelf(_) => th.pc.Starting? && !HoldsListLock(s.k)
         case Started(t) => th.pc.Added? && !(s.k.Look? && s.k.t == t)
         case CreateDone(_) => th.pc.Creating? && th.pc.child in s.threads && !s.threads[th.pc.child].state.Embryo?
         // a signalled thread enters the handler before it can run thread_exit
         case Exit(t) => th.pc.User? && th.state.Running? && !(s.k.Look? && s.k.t == t)
         // after thread_exit, or cancelled while in user code
         case Die(_) => th.pc.Exiting? || th.pc.User?
         case Join(_, u) => th.pc.Wrap? && u in s.threads && s.threads[u].exiting && s.threads[u].gone
       }
  }

  function UserApply(s: State, a: Action): State
    requires a.Compute? || a.EnterSpin? || a.EnterCas? || a.EnterNested? || a.ExitNested? || a.ExitCas? ||
             a.Create? || a.AddSelf? || a.Started? || a.CreateDone? || a.Exit? || a.Die? || a.Join?
    requires UserEnabled(s, a)
  {
    var th := s.threads[a.t];
    match a {
      case Compute(t, regs, mem) => Put(s, t, th.(regs := regs)).(mem := mem)
      case EnterSpin(t) => Put(s, t, th.(pc := Spin))
      case EnterCas(t) => Put(s, t, th.(pc := Wrap(1), state := Unsafe))
      case EnterNested(t) => Put(s, t, th.(pc := Wrap(th.pc.depth + 1)))
      case ExitNested(t) => Put(s, t, th.(pc := Wrap(th.pc.depth - 1)))
      case ExitCas(t) => Put(s, t, th.(pc := User, state := Running))
      case Create(t, child) =>
        Put(Put(s, t, th.(pc := Creating(th.pc.depth, child))), child,
            Thread(Embryo, Starting(t), NoHandler, false, false, false, false, th.regs, th.regs))
      case AddSelf(t) => Put(s, t, th.(pc := Added(th.pc.creator), listed := true))
      case Started(t) => Put(s, t, th.(pc := User, state := Running))
      case CreateDone(t) => Put(s, t, th.(pc := Wrap(th.pc.depth)))
      case Exit(t) => Put(s, t, th.(pc := Exiting, exiting := true))
      case Die(t) => Put(s, t, th.(gone := true))
      case Join(t, u) => Put(s, u, s.threads[u].(joined := true))
    }
  }

  predicate HandlerEnabled(s: State, a: Action)
    requires a.Handle? || a.SaveContext? || a.MarkSuspended? || a.Arrive? || a.Leave? || a.Back? || a.RestartSelf?
  {
    && a.t in s.threads
    && var th := s.threads[a.t];
    && th.Live()
    && match a {
         case Handle(_) => th.h.NoHandler? && th.state.Signaled?
         case SaveContext(_) => th.h.Saving?
         case MarkSuspended(_) => th.h.Saved?
         case Arrive(_) => th.h.AtBarrier? && !s.xs.XSuspInProg? && !HoldsCkptMtx(s.k)
         case Leave(_) => th.h.Arrived? && !s.xs.XCkptInProg? && !HoldsCkptMtx(s.k)
         case Back(_) => th.h.Leaving?
         case RestartSelf(_) => th.h.Recreated?
       }
  }

  function HandlerApply(s: State, a: Action): State
    requires a.Handle? || a.SaveContext? || a.MarkSuspended? || a.Arrive? || a.Leave? || a.Back? || a.RestartSelf?
    requires HandlerEnabled(s, a)
  {
    var th := s.threads[a.t];
    match a {
      case Handle(t) => Put(s, t, th.(state := SuspInProg, h := Saving))
      case SaveContext(t) => Put(s, t, th.(uctx := th.regs, h := Saved))
      case MarkSuspended(t) => Put(s, t, th.(state := Suspended, h := AtBarrier(false)))
      case Arrive(t) =>
        Put(s, t, th.(h := Arrived(th.h.r))).(arrived := s.arrived + 1, arrivedSet := s.arrivedSet + {t})
      case Leave(t) => Put(s, t, th.(h := Leaving(th.h.r)))
      case Back(t) =>
        // thread_restart ends with setcontext; the handler ends with the last CAS
        if th.h.r then Put(s, t, th.(h := NoHandler, regs := th.uctx))
        else Put(s, t, th.(h := NoHandler, state := Running)).(
               deserters := if t in s.counted then s.deserters + {t} else s.deserters)
      case RestartSelf(t) => Put(s, t, th.(state := Running, h := AtBarrier(true)))
    }
  }

  predicate CkptEnabled(s: State, t: Tid) {
    match s.k {
      case Begin => true
      case ResetArrived => true
      case Again => true
      case Pass(todo, _, _) => todo == {} || (t in todo && t in s.threads)
      case Look(u, _, _, _, _) => u in s.threads
      case SetExpected(_) => true
      case WaitAgain => true
      case WaitPass(todo, _, _) => todo == {} || (t in todo && t in s.threads)
      case WaitLook(u, _, _, _) => u in s.threads
      case Open => true
      case Fill(_) => s.arrived >= s.expected
      case Resuming => true
      case RestartBegin => true
      case Restoring(todo) => todo == {} || (t in todo && t in s.threads)
      case RestartFrozen => true
      case _ => false
    }
  }

  /** thread_list_remove; what becomes of the descriptor is the subject of ThreadLists. */
  function Remove(s: State, t: Tid): State
    requires t in s.threads
  {
    Put(s, t, s.threads[t].(listed := false))
  }

  /** xnd/thread_info.c:671-710, one load of the state per step. */
  function ScanStep(s: State, t: Tid): State
    requires s.k.Pass? || s.k.Look?
    requires CkptEnabled(s, t)
    requires s.k.Pass? ==> s.k.todo != {}
  {
    match s.k {
      case Pass(todo, n, rescan) =>
        var th := s.threads[t];
        var rest := todo - {t};
        if th.exiting then s.(k := Pass(rest, n, rescan))
        else if th.joined then Remove(s, t).(k := Pass(rest, n, rescan))
        else if th.state.Running? then
          var sent := Put(s, t, th.(state := Signaled));
          if th.gone then Remove(sent, t).(k := Pass(rest, n, rescan))
          else sent.(k := Pass(rest, n, true))
        else s.(k := Look(t, 2, rest, n, rescan))
      case Look(u, load, todo, n, rescan) =>
        var th := s.threads[u];
        if load == 2 then
          if th.state.Signaled? then
            if th.gone then Remove(s, u).(k := Pass(todo, n, rescan)) else s.(k := Pass(todo, n, true))
          else s.(k := Look(u, 3, todo, n, rescan))
        else if load == 3 then
          if th.state.Suspended? then s.(k := Pass(todo, n + 1, rescan), counted := s.counted + {u})
          else s.(k := Look(u, 4, todo, n, rescan))
        else if load == 4 then
          if th.state.SuspInProg? then s.(k := Pass(todo, n + 1, rescan), counted := s.counted + {u})
          else s.(k := Look(u, 5, todo, n, rescan))
        else if load == 5 then
          if th.state.Unsafe? then s.(k := Pass(todo, n, true)) else s.(k := Look(u, 6, todo, n, rescan))
        else if th.state.Embryo? then s.(k := Pass(todo, n, true))
        else s.(k := Pass(todo, n, rescan), slipped := s.slipped + {u})
    }
  }

  /** xnd/thread_info.c:753-770. */
  function WaitStep(s: State, t: Tid): State
    requires s.k.WaitPass? || s.k.WaitLook?
    requires CkptEnabled(s, t)
    requires s.k.WaitPass? ==> s.k.todo != {}
  {
    match s.k {
      case WaitPass(todo, exiting, killed) =>
        var th := s.threads[t];
        var rest := todo - {t};
        if !(th.joined || th.exiting) then
          if th.state.Suspended? then s.(k := WaitPass(rest, exiting, killed))
          else s.(k := WaitLook(t, rest, exiting, killed))
        else if th.joined then Remove(s, t).(k := WaitPass(rest, exiting, killed))
        else if th.gone then Remove(s, t).(k := WaitPass(rest, exiting + 1, killed + 1))
        else s.(k := WaitPass(rest, exiting + 1, killed))
      case WaitLook(u, todo, exiting, killed) =>
        if s.threads[u].state.SuspInProg? then s.(k := WaitPass(todo, exiting, killed))
        else s.(k := Aborted)
    }
  }

  /** One turn of restore_threads. */
  function Recreate(s: State, t: Tid): State
    requires s.k.Restoring? && t in s.threads
  {
    Put(s, t, s.threads[t].(h := Recreated)).(
      expected := s.expected + 1, counted := s.counted + {t}, k := Restoring(s.k.todo - {t}))
  }

  function CkptApply(s: State, t: Tid): State
    requires CkptEnabled(s, t)
  {
    match s.k {
      case Begin => s.(xs := XSuspInProg, k := ResetArrived)
      case ResetArrived => s.(arrived := 0, arrivedSet := {}, k := Again)
      case Again => s.(k := Pass(Listed(s), 0, false), counted := {}, slipped := {}, deserters := {})
      case Pass(todo, n, rescan) =>
        if todo != {} then ScanStep(s, t)
        else if rescan then s.(k := Again)
        else s.(k := SetExpected(n))
      case Look(_, _, _, _, _) => ScanStep(s, t)
      case SetExpected(n) => s.(expected := n, k := WaitAgain)
      case WaitAgain => s.(k := WaitPass(Listed(s), 0, 0))
      case WaitPass(todo, exiting, killed) =>
        if todo != {} then WaitStep(s, t)
        else if exiting != killed then s.(k := WaitAgain)
        else s.(k := Open)
      case WaitLook(_, _, _, _) => WaitStep(s, t)
      case Open => s.(xs := XCkptInProg, k := Fill(false))
      case Fill(r) => s.(k := if r then RestartFrozen else Frozen)
      case Resuming => s.(xs := XRunning, k := Idle)
      case RestartBegin =>
        s.(arrived := 0, arrivedSet := {}, expected := 0, counted := {}, k := Restoring(Listed(s)))
      case Restoring(todo) =>
        if todo == {} then s.(xs := XCkptInProg, k := Fill(true))
        else Recreate(s, t)
      case RestartFrozen => s.(xs := XRunning, k := Idle)
    }
  }

  /** Steps that exchange a message with the coordinator or write the image. */
  predicate SyncEnabled(s: State, a: Action)
    requires a.Request? || a.Ready? || a.Start? || a.WriteImage? || a.SendDone? || a.Resume? || a.RestartResume?
  {
    match a {
      case Request => s.k.Idle?
      case Ready => s.k.Pending?
      case Start => s.k.AwaitStart?
      case WriteImage => s.k.Frozen?
      case SendDone => s.k.ImageWritten?
      case Resume => s.k.AwaitResume?
      case RestartResume => s.k.RestartConnect?
    }
  }

  function SyncApply(s: State, a: Action): State
    requires a.Request? || a.Ready? || a.Start? || a.WriteImage? || a.SendDone? || a.Resume? || a.RestartResume?
    requires SyncEnabled(s, a)
  {
    match a {
      case Request => s.(xs := XPending, k := Pending)
      case Ready => s.(k := AwaitStart)
      case Start => s.(k := Begin)
      case WriteImage => s.(k := ImageWritten)
      case SendDone => s.(k := AwaitResume)
      case Resume => s.(k := Resuming)
      case RestartResume => s.(k := RestartBegin)
    }
  }

  predicate IsUser(a: Action) {
    a.Compute? || a.EnterSpin? || a.EnterCas? || a.EnterNested? || a.ExitNested? || a.ExitCas? ||
    a.Create? || a.AddSelf? || a.Started? || a.CreateDone? || a.Exit? || a.Die? || a.Join?
  }

  predicate IsHandler(a: Action) {
    a.Handle? || a.SaveContext? || a.MarkSuspended? || a.Arrive? || a.Leave? || a.Back? || a.RestartSelf?
  }

  predicate IsSync(a: Action) { !IsUser(a) && !IsHandler(a) && !a.Ckpt? }

  predicate Enabled(s: State, a: Action) {
    if IsUser(a) then UserEnabled(s, a)
    else if IsHandler(a) then HandlerEnabled(s, a)
    else if a.Ckpt? then CkptEnabled(s, a.t)
    else SyncEnabled(s, a)
  }

  function Apply(s: State, a: Action): State
    requires Enabled(s, a)
  {
    if IsUser(a) then UserApply(s, a)
    else if IsHandler(a) then HandlerApply(s, a)
    else if a.Ckpt? then CkptApply(s, a.t)
    else SyncApply(s, a)
  }

  /**
    The process that xnd_restart_internal builds from the memory `s` held when the image
    was written: every listed descriptor is back, no user thread exists yet, and the
    checkpoint thread continues at its saved context.
   */
  function RestartOf(s: State): State {
    s.(threads := map t | t in s.threads ::
                    if s.threads[t].listed && !s.threads[t].gone
                    then s.threads[t].(h := Unborn, regs := s.threads[t].uctx)
                    else s.threads[t],
       k := RestartConnect)
  }
}
