/** Every interleaving of Start, Stop, Resume, worker exit, Shutdown and crash on one session.

    One action is one critical section of the manager's mutex, one durable write, or one channel
    operation. The manager shares nothing between sessions but the closed flag and the audit file, so
    one session with other sessions' audit appends as environment steps loses no behaviour. Read checks
    made before a reservation (the "active" test of Start, Resume's policy list) are stale by the time
    the reservation is taken; the machine leaves them out and so does not rely on them. */
module BackgroundRace {
  import opened Prelude
  import opened BackgroundDisk

  type Tid = nat

  /** What a request does once its terminal transition has been persisted or has failed. For a Stop,
      exiting says whether the worker had already begun to exit when Stop reserved the session. */
  datatype Next = ThenRelease | ThenStop(worker: Option<Tid>, exiting: bool) | ThenStopAgain

  datatype Rpc =
    | Reserved(request: Policy)
    | Launching(lpc: LaunchPc, t: Transition)
    | Admitting(policy: Policy)
    | Resuming
    | Terminating(tpc: TermPc, t: Transition, next: Next)
    | Releasing
    | Dropping                     // holds the lease's release function in a local variable
    | StopReserved(worker: Option<Tid>, exiting: bool)
    | StopAwait(w: Tid, exiting: bool, ended: Policy)
    | StopReleasing(success: bool)
    | Finished
  {
    predicate Launcher() { Reserved? || Launching? || Admitting? }

    predicate Plain() { Launcher() || Resuming? || Releasing? || (Terminating? && next.ThenRelease?) }

    predicate Stopper() {
      StopReserved? || StopAwait? || StopReleasing? || (Terminating? && !next.ThenRelease?)
    }

    /** The worker a Stop found in active. */
    function Target(): Option<Tid> {
      if StopReserved? then worker
      else if Terminating? && next.ThenStop? then next.worker
      else if StopAwait? then Some(w)
      else None
    }

    /** A Stop that is sure to leave no live worker. */
    predicate StopsNobody() {
      || (StopReserved? && worker.None?)
      || (Terminating? && next.ThenStop? && next.worker.None?)
      || (Terminating? && next.ThenStopAgain?)
      || (StopReleasing? && success)
    }

    predicate SawExiting() {
      || (StopReserved? && exiting)
      || (Terminating? && next.ThenStop? && next.exiting)
      || (StopAwait? && exiting)
    }

    /** A stop whose terminal transition has been persisted. */
    predicate Stopped() { StopAwait? || (StopReleasing? && success) || (Terminating? && next.ThenStopAgain?) }
  }

  datatype WorkerPc =
    | Watching | Awaiting | Deciding | Persisting(tpc: TermPc, t: Transition) | Leasing | Cleaning | Gone

  datatype Worker = Worker(
    pc: WorkerPc, policy: Policy, hasLease: bool, ownsTransition: bool,
    stopOwner: Option<Tid>, persists: bool, failed: bool)
  {
    predicate Live() { !pc.Cleaning? && !pc.Gone? }
  }

  /** The manager's memory for the session, with the OS lock behind the lease. */
  datatype Mem = Mem(
    closed: bool,
    transition: bool,              // transitions[session]
    leaseInMap: bool,              // transitionLease[session]
    active: Option<Tid>,           // active[session]
    stopping: Option<Tid>,         // stopping[session]
    held: bool,                    // the lock file
    acquired: nat, released: nat)

  /** Auxiliary: who made the reservation and where the release function is. No step reads them. */
  datatype Party = ByRpc(t: Tid) | ByWorker(w: Tid)
  datatype Place = InMap | OnStack(t: Tid) | WithWorker(w: Tid)

  datatype State = State(
    disk: Slice, mem: Mem, rpcs: map<Tid, Rpc>, workers: map<Tid, Worker>, handoff: map<Tid, bool>,
    owner: Option<Party>, place: Option<Place>,
    minted: map<string, Record>,   // auxiliary: the record each event id stands for
    stopped: bool)                 // auxiliary: a Stop succeeded and no Start has reserved since

  datatype Act =
    | StartReserve(t: Tid, request: Policy)
    | StartGiveUp(t: Tid)
    | StartBlock(t: Tid, outcome: Outcome, id: string, at: nat)
    | StartPersist(t: Tid, id: string)
    | LaunchWrite(t: Tid, w: Write, id: string, at: nat)
    | AdmitCancel(t: Tid, id: string, at: nat)
    | AdmitFail(t: Tid)
    | AdmitLaunch(t: Tid, worker: Tid)
    | TermWrite(t: Tid, w: Write)
    | Release(t: Tid)
    | Drop(t: Tid)
    | StopReserve(t: Tid)
    | StopRead(t: Tid, id: string, at: nat)
    | StopHandoff(t: Tid)
    | StopCollect(t: Tid, outcome: Outcome, id: string, at: nat)
    | StopRelease(t: Tid)
    | ResumeReserve(t: Tid)
    | ResumeAudit(t: Tid, w: Write)
    | ResumeAuditUnreadable(t: Tid, id: string, at: nat)
    | ResumeJournal(t: Tid)
    | ResumeLaunch(t: Tid, id: string, at: nat)
    | ResumeTerminate(t: Tid, action: Action, outcome: Outcome, id: string, at: nat)
    | ResumeSkip(t: Tid)
    | WorkerExit(v: Tid, failed: bool)
    | WorkerReceive(v: Tid)
    | WorkerDecide(v: Tid, skip: bool, action: Action, outcome: Outcome, id: string, at: nat)
    | WorkerWrite(v: Tid, w: Write)
    | WorkerLease(v: Tid)
    | WorkerCleanup(v: Tid)
    | Shutdown
    | Crash
    | OtherAppend(r: Record)

  const INIT_MEM := Mem(false, false, false, None, None, false, 0, 0)

  /** A policy made terminal, as every caller of persistTerminal does. */
  function Ending(p: Policy, action: Action, outcome: Outcome, at: nat): Policy {
    p.(enabled := false, state := StateAfter(action), outcome := outcome, updatedAt := at)
  }

  function Mint(s: State, sid: string, t: Transition): State {
    s.(minted := s.minted[t.id := RecordOf(sid, t)])
  }

  /** Request thread t goes on to persist a fresh terminal transition. */
  function Terminate(s: State, sid: string, t: Tid, tr: Transition, next: Next): State {
    Mint(s.(rpcs := s.rpcs[t := Terminating(TPut, tr, next)]), sid, tr)
  }

  predicate IsRpc(s: State, t: Tid) { t in s.rpcs }

  predicate FreshTid(s: State, t: Tid) { t !in s.rpcs && t !in s.workers && t !in s.handoff }

  predicate CanReserve(m: Mem) { !m.closed && !m.transition && !m.held }

  /** reserveTransition: the mutex section, lock file included. */
  function Reserve(m: Mem): Mem
    requires CanReserve(m)
  {
    m.(transition := true, leaseInMap := true, held := true, acquired := m.acquired + 1)
  }

  /** The mutex section of releaseTransition, and of releaseStopTransition for its own owner. */
  function Unreserve(m: Mem): Mem {
    m.(transition := false, leaseInMap := false)
  }

  /** Calling the lease's release function. */
  function DropLease(m: Mem): Mem {
    m.(held := false, released := m.released + 1)
  }

  /** launchLocked. */
  function LaunchMem(m: Mem, w: Tid): Mem {
    m.(leaseInMap := false, transition := false, active := Some(w))
  }

  ghost function DoStartReserve(sid: string, s: State, t: Tid, request: Policy): Option<State> {
    if FreshTid(s, t) && CanReserve(s.mem) then
      Some(s.(mem := Reserve(s.mem), rpcs := s.rpcs[t := Reserved(request)],
              owner := Some(ByRpc(t)), place := Some(InMap), stopped := false))
    else None
  }

  ghost function DoStartGiveUp(sid: string, s: State, t: Tid): Option<State> {
    if IsRpc(s, t) && s.rpcs[t].Reserved? then Some(s.(rpcs := s.rpcs[t := Releasing])) else None
  }

  ghost function DoStartBlock(sid: string, s: State, t: Tid, outcome: Outcome, id: string, at: nat): Option<State> {
    if IsRpc(s, t) && s.rpcs[t].Reserved? && id !in s.minted then
      Some(Terminate(s, sid, t, Transition(Ending(s.rpcs[t].request, Block, outcome, at), Block, id), ThenRelease))
    else None
  }

  ghost function DoStartPersist(sid: string, s: State, t: Tid, id: string): Option<State> {
    if IsRpc(s, t) && s.rpcs[t].Reserved? && id !in s.minted then
      var tr := Transition(s.rpcs[t].request.(enabled := true, state := Running, outcome := Started), Start, id);
      Some(Mint(s.(rpcs := s.rpcs[t := Launching(LPut, tr)]), sid, tr))
    else None
  }

  ghost function DoLaunchWrite(sid: string, s: State, t: Tid, w: Write, id: string, at: nat): Option<State> {
    if IsRpc(s, t) && s.rpcs[t].Launching? && !s.rpcs[t].lpc.Over() && id !in s.minted then
      var tr := s.rpcs[t].t;
      var (disk, pc) := LaunchStep(sid, s.disk, s.rpcs[t].lpc, tr, w);
      var s' := s.(disk := disk);
      if pc.LFail? then
        Some(Terminate(s', sid, t, Transition(Ending(tr.policy, Error, pc.outcome, at), Error, id), ThenRelease))
      else if pc.LOk? then Some(s'.(rpcs := s.rpcs[t := Admitting(tr.policy)]))
      else Some(s'.(rpcs := s.rpcs[t := Launching(pc, tr)]))
    else None
  }

  ghost function DoAdmitCancel(sid: string, s: State, t: Tid, id: string, at: nat): Option<State> {
    if IsRpc(s, t) && s.rpcs[t].Admitting? && id !in s.minted then
      Some(Terminate(s, sid, t, Transition(Ending(s.rpcs[t].policy, Stop, BackgroundDisk.Stopped, at), Stop, id),
          ThenRelease))
    else None
  }

  ghost function DoAdmitFail(sid: string, s: State, t: Tid): Option<State> {
    if IsRpc(s, t) && s.rpcs[t].Admitting? then Some(s.(rpcs := s.rpcs[t := Releasing])) else None
  }

  ghost function DoAdmitLaunch(sid: string, s: State, t: Tid, v: Tid): Option<State> {
    if IsRpc(s, t) && s.rpcs[t].Admitting? && FreshTid(s, v) && !s.mem.closed then
      var worker := Worker(Watching, s.rpcs[t].policy, s.mem.leaseInMap, false, None, true, false);
      Some(s.(mem := LaunchMem(s.mem, v), rpcs := s.rpcs[t := Finished], workers := s.workers[v := worker],
              owner := None, place := if s.mem.leaseInMap then Some(WithWorker(v)) else s.place))
    else None
  }

  ghost function DoTermWrite(sid: string, s: State, t: Tid, w: Write): Option<State> {
    if IsRpc(s, t) && s.rpcs[t].Terminating? && !s.rpcs[t].tpc.Over() then
      var rpc := s.rpcs[t];
      var (disk, pc) := TermStep(sid, s.disk, rpc.tpc, rpc.t, w);
      var rpc' := if pc.Over() && rpc.next.ThenRelease? then Releasing
                  else if pc.Over() && rpc.next.ThenStopAgain? then StopReleasing(pc.TOk?)
                  else rpc.(tpc := pc);
      Some(s.(disk := disk, rpcs := s.rpcs[t := rpc']))
    else None
  }

  ghost function DoRelease(sid: string, s: State, t: Tid): Option<State> {
    if IsRpc(s, t) && s.rpcs[t].Releasing? then
      Some(s.(mem := Unreserve(s.mem), rpcs := s.rpcs[t := if s.mem.leaseInMap then Dropping else Finished],
              owner := None, place := if s.mem.leaseInMap then Some(OnStack(t)) else s.place))
    else None
  }

  ghost function DoDrop(sid: string, s: State, t: Tid): Option<State> {
    if IsRpc(s, t) && s.rpcs[t].Dropping? then
      Some(s.(mem := DropLease(s.mem), rpcs := s.rpcs[t := Finished], place := None))
    else None
  }

  ghost function DoStopReserve(sid: string, s: State, t: Tid): Option<State> {
    if !FreshTid(s, t) || s.mem.closed || s.mem.transition then None
    else if s.mem.active.Some? then
      var v := s.mem.active.value;
      var exiting := v in s.workers && !s.workers[v].pc.Watching?;
      Some(s.(mem := s.mem.(transition := true, stopping := Some(t)),
              rpcs := s.rpcs[t := StopReserved(Some(v), exiting)], owner := Some(ByRpc(t))))
    else if s.mem.held then None
    else
      Some(s.(mem := Reserve(s.mem).(stopping := Some(t)), rpcs := s.rpcs[t := StopReserved(None, false)],
              owner := Some(ByRpc(t)), place := Some(InMap)))
  }

  ghost function DoStopRead(sid: string, s: State, t: Tid, id: string, at: nat): Option<State> {
    if IsRpc(s, t) && s.rpcs[t].StopReserved? && id !in s.minted then
      var rpc := s.rpcs[t];
      if s.disk.policy.None? then Some(s.(rpcs := s.rpcs[t := StopReleasing(false)]))
      else
        Some(Terminate(s, sid, t, Transition(Ending(s.disk.policy.value, Stop, BackgroundDisk.Stopped, at), Stop, id),
                       ThenStop(rpc.worker, rpc.exiting)))
    else None
  }

  ghost function DoStopHandoff(sid: string, s: State, t: Tid): Option<State> {
    if IsRpc(s, t) && s.rpcs[t].Terminating? && s.rpcs[t].tpc.Over() && s.rpcs[t].next.ThenStop? then
      var rpc := s.rpcs[t];
      if rpc.next.worker.None? then Some(s.(rpcs := s.rpcs[t := StopReleasing(rpc.tpc.TOk?)]))
      else
        Some(s.(handoff := s.handoff[t := rpc.tpc.TFail?],
                rpcs := s.rpcs[t := if rpc.tpc.TOk?
                    then StopAwait(rpc.next.worker.value, rpc.next.exiting, rpc.t.policy)
                                    else StopReleasing(false)]))
    else None
  }

  ghost function DoStopCollect(sid: string, s: State, t: Tid, outcome: Outcome, id: string, at: nat): Option<State> {
    if IsRpc(s, t) && s.rpcs[t].StopAwait? && s.rpcs[t].w in s.workers && s.workers[s.rpcs[t].w].pc.Gone?
       && id !in s.minted then
      var v := s.rpcs[t].w;
      if s.workers[v].failed then
        var tr := Transition(Ending(s.rpcs[t].ended, Error, outcome, at), Error, id);
        Some(Terminate(s, sid, t, tr, ThenStopAgain))
      else Some(s.(rpcs := s.rpcs[t := StopReleasing(true)]))
    else None
  }

  ghost function DoStopRelease(sid: string, s: State, t: Tid): Option<State> {
    if IsRpc(s, t) && s.rpcs[t].StopReleasing? then
      var s' := s.(stopped := s.stopped || s.rpcs[t].success);
      if s.mem.stopping == Some(t) then
        Some(s'.(mem := Unreserve(s.mem).(stopping := None), owner := None,
                 rpcs := s.rpcs[t := if s.mem.leaseInMap then Dropping else Finished],
                 place := if s.mem.leaseInMap then Some(OnStack(t)) else s.place))
      else Some(s'.(rpcs := s.rpcs[t := Finished]))
    else None
  }

  ghost function DoResumeReserve(sid: string, s: State, t: Tid): Option<State> {
    if FreshTid(s, t) && CanReserve(s.mem) then
      Some(s.(mem := Reserve(s.mem), rpcs := s.rpcs[t := Resuming], owner := Some(ByRpc(t)), place := Some(InMap)))
    else None
  }

  ghost function DoResumeAudit(sid: string, s: State, t: Tid, w: Write): Option<State> {
    if IsRpc(s, t) && s.rpcs[t].Resuming? then
      Some(s.(disk := ReconcileAuditStep(sid, s.disk, w), rpcs := s.rpcs[t := Releasing]))
    else None
  }

  ghost function DoResumeAuditUnreadable(sid: string, s: State, t: Tid, id: string, at: nat): Option<State> {
    if IsRpc(s, t) && s.rpcs[t].Resuming? && s.disk.Enabled() && id !in s.minted then
      Some(Terminate(s, sid, t, Transition(Ending(s.disk.policy.value, Error, AuditAppendFailed, at), Error, id),
          ThenRelease))
    else None
  }

  ghost function DoResumeJournal(sid: string, s: State, t: Tid): Option<State> {
    if IsRpc(s, t) && s.rpcs[t].Resuming? && s.disk.journal.Some? then
      Some(s.(rpcs := s.rpcs[t := Terminating(TState, Closed(s.disk.journal.value), ThenRelease)]))
    else None
  }

  ghost function DoResumeLaunch(sid: string, s: State, t: Tid, id: string, at: nat): Option<State> {
    if IsRpc(s, t) && s.rpcs[t].Resuming? && s.disk.Enabled() && id !in s.minted then
      var tr := Transition(s.disk.policy.value.(state := Running, outcome := Resumed, startedAt := at,
          updatedAt := at), Resume, id);
      Some(Mint(s.(rpcs := s.rpcs[t := Launching(LPut, tr)]), sid, tr))
    else None
  }

  ghost function DoResumeTerminate(sid: string, s: State, t: Tid, action: Action, outcome: Outcome, id: string,
                                   at: nat): Option<State> {
    if IsRpc(s, t) && s.rpcs[t].Resuming? && s.disk.Enabled() && action.Terminal() && id !in s.minted then
      Some(Terminate(s, sid, t, Transition(Ending(s.disk.policy.value, action, outcome, at), action, id), ThenRelease))
    else None
  }

  ghost function DoResumeSkip(sid: string, s: State, t: Tid): Option<State> {
    if IsRpc(s, t) && s.rpcs[t].Resuming? then Some(s.(rpcs := s.rpcs[t := Releasing])) else None
  }

  ghost function DoWorkerExit(sid: string, s: State, v: Tid, failed: bool): Option<State> {
    if v in s.workers && s.workers[v].pc.Watching? then
      var owns := s.mem.stopping.None? && !s.mem.transition;
      var worker := s.workers[v].(pc := if s.mem.stopping.Some? then Awaiting else Deciding,
                                  stopOwner := s.mem.stopping, ownsTransition := owns, failed := failed);
      Some(s.(workers := s.workers[v := worker],
              mem := if owns then s.mem.(transition := true) else s.mem,
              owner := if owns then Some(ByWorker(v)) else s.owner))
    else None
  }

  ghost function DoWorkerReceive(sid: string, s: State, v: Tid): Option<State> {
    if v in s.workers && s.workers[v].pc.Awaiting? && s.workers[v].stopOwner.Some?
       && s.workers[v].stopOwner.value in s.handoff then
      var persists := s.handoff[s.workers[v].stopOwner.value];
      Some(s.(workers := s.workers[v := s.workers[v].(pc := if persists then Deciding else Leasing,
          persists := persists)]))
    else None
  }

  ghost function DoWorkerDecide(sid: string, s: State, v: Tid, skip: bool, action: Action, outcome: Outcome,
                                id: string, at: nat): Option<State> {
    // skip: the error is only a cancellation caused by Stop or Shutdown.
    if v in s.workers && s.workers[v].pc.Deciding? && action.Terminal() && id !in s.minted then
      if skip then Some(s.(workers := s.workers[v := s.workers[v].(pc := Leasing)]))
      else
        var tr := Transition(Ending(s.workers[v].policy, action, outcome, at), action, id);
        Some(Mint(s.(workers := s.workers[v := s.workers[v].(pc := Persisting(TPut, tr))]), sid, tr))
    else None
  }

  ghost function DoWorkerWrite(sid: string, s: State, v: Tid, w: Write): Option<State> {
    if v in s.workers && s.workers[v].pc.Persisting? && !s.workers[v].pc.tpc.Over() then
      var (disk, pc) := TermStep(sid, s.disk, s.workers[v].pc.tpc, s.workers[v].pc.t, w);
      Some(s.(disk := disk,
              workers := s.workers[v := s.workers[v].(pc := if pc.Over() then Leasing
                  else Persisting(pc, s.workers[v].pc.t))]))
    else None
  }

  ghost function DoWorkerLease(sid: string, s: State, v: Tid): Option<State> {
    if v in s.workers && s.workers[v].pc.Leasing? then
      var worker := s.workers[v];
      var worker' := worker.(pc := Cleaning, hasLease := false);
      if !worker.hasLease then Some(s.(workers := s.workers[v := worker']))
      else if worker.stopOwner.Some? && !worker.persists then
        Some(s.(workers := s.workers[v := worker'], mem := s.mem.(leaseInMap := true), place := Some(InMap)))
      else Some(s.(workers := s.workers[v := worker'], mem := DropLease(s.mem), place := None))
    else None
  }

  ghost function DoWorkerCleanup(sid: string, s: State, v: Tid): Option<State> {
    if v in s.workers && s.workers[v].pc.Cleaning? then
      var worker := s.workers[v];
      Some(s.(workers := s.workers[v := worker.(pc := Gone, ownsTransition := false)],
              mem := s.mem.(active := if s.mem.active == Some(v) then None else s.mem.active,
                            transition := if worker.ownsTransition then false else s.mem.transition),
              owner := if worker.ownsTransition then None else s.owner))
    else None
  }

  ghost function DoShutdown(sid: string, s: State): Option<State> {
    Some(s.(mem := s.mem.(closed := true)))
  }

  ghost function DoCrash(sid: string, s: State): Option<State> {
    // A new manager on the same disk; the OS frees the lock with the old process.
    Some(State(s.disk, INIT_MEM, map[], map[], map[], None, None, s.minted, s.stopped))
  }

  ghost function DoOtherAppend(sid: string, s: State, r: Record): Option<State> {
    if r.session != sid && r.id !in s.minted then
      Some(s.(disk := s.disk.(audit := s.disk.audit + [r]), minted := s.minted[r.id := r]))
    else None
  }

  ghost function Step(sid: string, s: State, a: Act): Option<State> {
    match a
    case StartReserve(t, request) => DoStartReserve(sid, s, t, request)
    case StartGiveUp(t) => DoStartGiveUp(sid, s, t)
    case StartBlock(t, outcome, id, at) => DoStartBlock(sid, s, t, outcome, id, at)
    case StartPersist(t, id) => DoStartPersist(sid, s, t, id)
    case LaunchWrite(t, w, id, at) => DoLaunchWrite(sid, s, t, w, id, at)
    case AdmitCancel(t, id, at) => DoAdmitCancel(sid, s, t, id, at)
    case AdmitFail(t) => DoAdmitFail(sid, s, t)
    case AdmitLaunch(t, v) => DoAdmitLaunch(sid, s, t, v)
    case TermWrite(t, w) => DoTermWrite(sid, s, t, w)
    case Release(t) => DoRelease(sid, s, t)
    case Drop(t) => DoDrop(sid, s, t)
    case StopReserve(t) => DoStopReserve(sid, s, t)
    case StopRead(t, id, at) => DoStopRead(sid, s, t, id, at)
    case StopHandoff(t) => DoStopHandoff(sid, s, t)
    case StopCollect(t, outcome, id, at) => DoStopCollect(sid, s, t, outcome, id, at)
    case StopRelease(t) => DoStopRelease(sid, s, t)
    case ResumeReserve(t) => DoResumeReserve(sid, s, t)
    case ResumeAudit(t, w) => DoResumeAudit(sid, s, t, w)
    case ResumeAuditUnreadable(t, id, at) => DoResumeAuditUnreadable(sid, s, t, id, at)
    case ResumeJournal(t) => DoResumeJournal(sid, s, t)
    case ResumeLaunch(t, id, at) => DoResumeLaunch(sid, s, t, id, at)
    case ResumeTerminate(t, action, outcome, id, at) => DoResumeTerminate(sid, s, t, action, outcome, id, at)
    case ResumeSkip(t) => DoResumeSkip(sid, s, t)
    case WorkerExit(v, failed) => DoWorkerExit(sid, s, v, failed)
    case WorkerReceive(v) => DoWorkerReceive(sid, s, v)
    case WorkerDecide(v, skip, action, outcome, id, at) => DoWorkerDecide(sid, s, v, skip, action, outcome, id, at)
    case WorkerWrite(v, w) => DoWorkerWrite(sid, s, v, w)
    case WorkerLease(v) => DoWorkerLease(sid, s, v)
    case WorkerCleanup(v) => DoWorkerCleanup(sid, s, v)
    case Shutdown => DoShutdown(sid, s)
    case Crash => DoCrash(sid, s)
    case OtherAppend(r) => DoOtherAppend(sid, s, r)
  }

  /** Step by action, for proofs that hide it. */
  lemma StepIs(sid: string, s: State, a: Act)
    ensures match a
      case StartReserve(t, request) => Step(sid, s, a) == DoStartReserve(sid, s, t, request)
      case StartGiveUp(t) => Step(sid, s, a) == DoStartGiveUp(sid, s, t)
      case StartBlock(t, outcome, id, at) => Step(sid, s, a) == DoStartBlock(sid, s, t, outcome, id, at)
      case StartPersist(t, id) => Step(sid, s, a) == DoStartPersist(sid, s, t, id)
      case LaunchWrite(t, w, id, at) => Step(sid, s, a) == DoLaunchWrite(sid, s, t, w, id, at)
      case AdmitCancel(t, id, at) => Step(sid, s, a) == DoAdmitCancel(sid, s, t, id, at)
      case AdmitFail(t) => Step(sid, s, a) == DoAdmitFail(sid, s, t)
      case AdmitLaunch(t, v) => Step(sid, s, a) == DoAdmitLaunch(sid, s, t, v)
      case TermWrite(t, w) => Step(sid, s, a) == DoTermWrite(sid, s, t, w)
      case Release(t) => Step(sid, s, a) == DoRelease(sid, s, t)
      case Drop(t) => Step(sid, s, a) == DoDrop(sid, s, t)
      case StopReserve(t) => Step(sid, s, a) == DoStopReserve(sid, s, t)
      case StopRead(t, id, at) => Step(sid, s, a) == DoStopRead(sid, s, t, id, at)
      case StopHandoff(t) => Step(sid, s, a) == DoStopHandoff(sid, s, t)
      case StopCollect(t, outcome, id, at) => Step(sid, s, a) == DoStopCollect(sid, s, t, outcome, id, at)
      case StopRelease(t) => Step(sid, s, a) == DoStopRelease(sid, s, t)
      case ResumeReserve(t) => Step(sid, s, a) == DoResumeReserve(sid, s, t)
      case ResumeAudit(t, w) => Step(sid, s, a) == DoResumeAudit(sid, s, t, w)
      case ResumeAuditUnreadable(t, id, at) => Step(sid, s, a) == DoResumeAuditUnreadable(sid, s, t, id, at)
      case ResumeJournal(t) => Step(sid, s, a) == DoResumeJournal(sid, s, t)
      case ResumeLaunch(t, id, at) => Step(sid, s, a) == DoResumeLaunch(sid, s, t, id, at)
      case ResumeTerminate(t, action, outcome, id, at) =>
        Step(sid, s, a) == DoResumeTerminate(sid, s, t, action, outcome, id, at)
      case ResumeSkip(t) => Step(sid, s, a) == DoResumeSkip(sid, s, t)
      case WorkerExit(v, failed) => Step(sid, s, a) == DoWorkerExit(sid, s, v, failed)
      case WorkerReceive(v) => Step(sid, s, a) == DoWorkerReceive(sid, s, v)
      case WorkerDecide(v, skip, action, outcome, id, at) =>
        Step(sid, s, a) == DoWorkerDecide(sid, s, v, skip, action, outcome, id, at)
      case WorkerWrite(v, w) => Step(sid, s, a) == DoWorkerWrite(sid, s, v, w)
      case WorkerLease(v) => Step(sid, s, a) == DoWorkerLease(sid, s, v)
      case WorkerCleanup(v) => Step(sid, s, a) == DoWorkerCleanup(sid, s, v)
      case Shutdown => Step(sid, s, a) == DoShutdown(sid, s)
      case Crash => Step(sid, s, a) == DoCrash(sid, s)
      case OtherAppend(r) => Step(sid, s, a) == DoOtherAppend(sid, s, r)
  {}

  /** A run: the state after a sequence of actions, if every one of them was enabled. */
  ghost function Run(sid: string, s: State, acts: seq<Act>): Option<State>
    decreases acts
  {
    if acts == [] then Some(s)
    else
      var s' := Step(sid, s, acts[0]);
      if s'.None? then None else Run(sid, s'.value, acts[1..])
  }

  /** Before any Start: no policy and no journal entry; other sessions may have audit records. */
  ghost predicate Initial(sid: string, s: State) {
    && s.disk.policy.None? && s.disk.journal.None? && UniqueIds(s.disk.audit)
    && (forall r <- s.disk.audit :: r.session != sid && r.id in s.minted && s.minted[r.id] == r)
    && s.mem == INIT_MEM && s.rpcs == map[] && s.workers == map[] && s.handoff == map[]
    && s.owner.None? && s.place.None? && !s.stopped
  }
}
