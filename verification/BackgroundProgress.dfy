/** Requests and exiting workers of one session never wait for each other in a circle. */
module BackgroundProgress {
  import opened Prelude
  import opened BackgroundDisk
  import opened BackgroundRace
  import opened BackgroundLocks
  import BackgroundTheorems

  /** What an unfinished request does next; id is a new event id, and v a new worker. */
  function RequestTurn(s: State, t: Tid, id: string, v: Tid): Act
    requires t in s.rpcs && !s.rpcs[t].Finished?
  {
    match s.rpcs[t]
    case Reserved(_) => StartPersist(t, id)
    case Launching(_, _) => LaunchWrite(t, Confirmed, id, 0)
    case Admitting(_) => if s.mem.closed then AdmitFail(t) else AdmitLaunch(t, v)
    case Resuming => ResumeSkip(t)
    case Terminating(pc, _, _) => if pc.Over() then StopHandoff(t) else TermWrite(t, Confirmed)
    case Releasing => Release(t)
    case Dropping => Drop(t)
    case StopReserved(_, _) => StopRead(t, id, 0)
    case StopAwait(_, _, _) => StopCollect(t, WorkerError, id, 0)
    case StopReleasing(_) => StopRelease(t)
  }

  function WorkerTurn(s: State, v: Tid, id: string): Act
    requires v in s.workers && !s.workers[v].pc.Gone?
  {
    match s.workers[v].pc
    case Watching => WorkerExit(v, false)
    case Awaiting => WorkerReceive(v)
    case Deciding => WorkerDecide(v, false, Action.Stop, Completed, id, 0)
    case Persisting(_, _) => WorkerWrite(v, Confirmed)
    case Leasing => WorkerLease(v)
    case Cleaning => WorkerCleanup(v)
  }

  ghost predicate RequestMoves(sid: string, s: State, t: Tid, id: string, v: Tid) {
    t in s.rpcs && !s.rpcs[t].Finished? && Step(sid, s, RequestTurn(s, t, id, v)).Some?
  }

  ghost predicate WorkerMoves(sid: string, s: State, v: Tid, id: string) {
    v in s.workers && !s.workers[v].pc.Gone? && Step(sid, s, WorkerTurn(s, v, id)).Some?
  }

  /** A request only ever waits as a Stop, for its worker to be gone. */
  lemma RequestMovesOrWaits(sid: string, s: State, t: Tid, id: string, spare: Tid)
    requires LockInv(s) && t in s.rpcs && id !in s.minted && FreshTid(s, spare)
    ensures s.rpcs[t].Finished? || RequestMoves(sid, s, t, id, spare)
      || (s.rpcs[t].StopAwait? && s.rpcs[t].w in s.workers && !s.workers[s.rpcs[t].w].pc.Gone?)
  {
    RpcAt(s, t);
    hide LockInv, TermStep, LaunchStep;
  }

  /** A worker only ever waits for the word of its Stop. */
  lemma WorkerMovesOrWaits(sid: string, s: State, v: Tid, id: string)
    requires LockInv(s) && v in s.workers && id !in s.minted
    ensures s.workers[v].pc.Gone? || WorkerMoves(sid, s, v, id)
      || (s.workers[v].pc.Awaiting? && s.workers[v].stopOwner.Some? && s.workers[v].stopOwner.value !in s.handoff)
  {
    WorkerAt(s, v);
    hide LockInv, TermStep;
  }

  /** The worker that a Stop waits for moves, and the Stop whose word a worker waits for moves. */
  lemma WaitsForAMover(sid: string, s: State, t: Tid, v: Tid, id: string, spare: Tid)
    requires LockInv(s) && t in s.rpcs && v in s.workers && id !in s.minted && FreshTid(s, spare)
    ensures s.rpcs[t].StopAwait? && s.rpcs[t].w == v && !s.workers[v].pc.Gone? ==> WorkerMoves(sid, s, v, id)
    ensures s.workers[v].pc.Awaiting? && s.workers[v].stopOwner == Some(t) && t !in s.handoff
        ==> RequestMoves(sid, s, t, id, spare)
  {
    RpcAt(s, t);
    WorkerAt(s, v);
    RequestMovesOrWaits(sid, s, t, id, spare);
    WorkerMovesOrWaits(sid, s, v, id);
    hide LockInv, RequestMoves, WorkerMoves;
  }

  /** Launch admission is free for the request that wants it: no worker of the session is recording its end and no
      other request is being admitted. */
  lemma AdmissionIsFree(sid: string, s: State, t: Tid)
    requires BackgroundTheorems.Reachable(sid, s) && t in s.rpcs && s.rpcs[t].Admitting?
    ensures forall v <- s.workers :: !s.workers[v].pc.Deciding? && !s.workers[v].pc.Persisting?
    ensures forall u <- s.rpcs :: s.rpcs[u].Admitting? ==> u == t
  {
    BackgroundTheorems.ReachableInv(sid, s);
    hide LockInv;
    RpcAt(s, t);
    forall v <- s.workers ensures !s.workers[v].pc.Deciding? && !s.workers[v].pc.Persisting? { WorkerAt(s, v); }
    forall u <- s.rpcs ensures s.rpcs[u].Admitting? ==> u == t { RpcAt(s, u); }
  }

  /** In every reachable state each unfinished request and each worker that is not gone can move, or it waits for
      one that can: a Stop for its worker, a worker for the word of its Stop. So no circle of waiting arises. A request
      that was admitted launches, unless the manager has closed. */
  lemma EveryThreadMovesOrAwaitsAMover(sid: string, s: State, id: string, spare: Tid)
    requires BackgroundTheorems.Reachable(sid, s) && id !in s.minted && FreshTid(s, spare)
    ensures forall t <- s.rpcs | !s.rpcs[t].Finished? ::
      RequestMoves(sid, s, t, id, spare) || (s.rpcs[t].StopAwait? && WorkerMoves(sid, s, s.rpcs[t].w, id))
    ensures forall v <- s.workers | !s.workers[v].pc.Gone? ::
      WorkerMoves(sid, s, v, id)
      || (s.workers[v].pc.Awaiting? && s.workers[v].stopOwner.Some?
          && RequestMoves(sid, s, s.workers[v].stopOwner.value, id, spare))
  {
    BackgroundTheorems.ReachableInv(sid, s);
    hide RequestMoves, WorkerMoves, LockInv;
    forall t <- s.rpcs | !s.rpcs[t].Finished?
      ensures RequestMoves(sid, s, t, id, spare) || (s.rpcs[t].StopAwait? && WorkerMoves(sid, s, s.rpcs[t].w, id))
    {
      RequestMovesOrWaits(sid, s, t, id, spare);
      if s.rpcs[t].StopAwait? && s.rpcs[t].w in s.workers { WaitsForAMover(sid, s, t, s.rpcs[t].w, id, spare); }
    }
    forall v <- s.workers | !s.workers[v].pc.Gone?
      ensures WorkerMoves(sid, s, v, id)
        || (s.workers[v].pc.Awaiting? && s.workers[v].stopOwner.Some?
            && RequestMoves(sid, s, s.workers[v].stopOwner.value, id, spare))
    {
      WorkerMovesOrWaits(sid, s, v, id);
      if !WorkerMoves(sid, s, v, id) {
        BackgroundTheorems.HandoffIsNeverLost(sid, s, v);
        WaitsForAMover(sid, s, s.workers[v].stopOwner.value, v, id, spare);
      }
    }
  }
}
