/** The reservation, the stop handoff and the session lease under every interleaving. */
module BackgroundLocks {
  import opened Prelude
  import opened BackgroundDisk
  import opened BackgroundRace

  predicate HeldByWorker(s: State) { s.place.Some? && s.place.value.WithWorker? }

  ghost predicate RpcInv(s: State, t: Tid, r: Rpc) {
    && (r.Plain() || r.Stopper() <==> s.owner == Some(ByRpc(t)))
    && (r.Stopper() <==> s.mem.stopping == Some(t))
    && (r.Dropping? <==> s.place == Some(OnStack(t)))
    && (r.Plain() ==> s.mem.leaseInMap)
    && (r.StopsNobody() ==> !HeldByWorker(s))
    && (r.StopReserved? || (r.Terminating? && r.next.ThenStop?) ==> t !in s.handoff)
    && (r.StopAwait? ==> t in s.handoff && !s.handoff[t])
    && (r == StopReleasing(false) && HeldByWorker(s) ==> t in s.handoff && s.handoff[t])
    && (r.Launching? ==> !r.lpc.Over() && (r.lpc in {LAudit, LClear} ==> s.disk.policy.Some?))
    && (r.Terminating? && !r.next.ThenStop? ==> !r.tpc.Over())
    && (r.Terminating? && r.tpc !in {TPut, TState, TAudit(false), TFail} ==> s.disk.policy.Some?)
    && (r.Admitting? ==> s.disk.policy.Some?)
    && (r.Target().Some? ==> StopInv(s, t, r, r.Target().value))
  }

  /** What a Stop knows about the worker it found in active. */
  ghost predicate StopInv(s: State, t: Tid, r: Rpc, v: Tid) {
    && v in s.workers
    && (HeldByWorker(s) ==> s.place.value.w == v)
    && var worker := s.workers[v];
    if r.SawExiting() then
      && !worker.pc.Watching? && worker.stopOwner != Some(t) && worker.persists
      && (worker.pc.Awaiting? ==> worker.stopOwner.Some? && worker.stopOwner.value in s.handoff
                                  && s.handoff[worker.stopOwner.value])
    else worker.pc.Watching? || worker.stopOwner == Some(t)
  }

  ghost predicate WorkerInv(s: State, v: Tid, worker: Worker) {
    && (worker.ownsTransition <==> s.owner == Some(ByWorker(v)))
    && (worker.hasLease <==> s.place == Some(WithWorker(v)))
    && (worker.Live() <==> worker.hasLease)
    && (worker.Live() ==> s.mem.active == Some(v))
    && (worker.ownsTransition ==> !worker.pc.Watching? && !worker.pc.Awaiting? && !worker.pc.Gone?)
    && (worker.pc.Watching? ==> worker.stopOwner.None?)
    && (worker.pc.Watching? || worker.pc.Awaiting? || worker.pc.Deciding? || worker.pc.Persisting? ==> worker.persists)
    && (worker.pc.Persisting? ==> !worker.pc.tpc.Over())
    && (worker.stopOwner.None? ==> worker.persists && !worker.pc.Awaiting?)
    && s.disk.policy.Some?
    && (worker.stopOwner.Some? ==>
          var o := worker.stopOwner.value;
          && (!worker.pc.Awaiting? ==> o in s.handoff && worker.persists == s.handoff[o])
          && (worker.pc.Awaiting? && o !in s.handoff ==>
                o in s.rpcs && s.rpcs[o].Target() == Some(v) && !s.rpcs[o].StopAwait? && !s.rpcs[o].SawExiting())
          && (!worker.pc.Gone? && o in s.handoff && !s.handoff[o] ==>
                o in s.rpcs && s.rpcs[o].StopAwait? && s.rpcs[o].w == v && !s.rpcs[o].exiting))
  }

  ghost predicate MemInv(s: State) {
    && (s.mem.transition <==> s.owner.Some?)
    && (s.mem.held <==> s.place.Some?)
    && (s.mem.leaseInMap <==> s.place == Some(InMap))
    && s.mem.acquired == s.mem.released + (if s.mem.held then 1 else 0)
    && (s.owner.Some? && s.owner.value.ByRpc? ==> s.owner.value.t in s.rpcs)
    && (s.owner.Some? && s.owner.value.ByWorker? ==> s.owner.value.w in s.workers)
    && (s.mem.stopping.Some? ==> s.mem.stopping.value in s.rpcs)
    && (s.place.Some? && s.place.value.OnStack? ==> s.place.value.t in s.rpcs)
    && (s.place.Some? && s.place.value.WithWorker? ==> s.place.value.w in s.workers)
    && (s.mem.leaseInMap ==> s.owner.Some? && s.owner.value.ByRpc?)
    && (s.mem.active.Some? ==> s.mem.active.value in s.workers && !s.workers[s.mem.active.value].pc.Gone?)
    && s.rpcs.Keys !! s.workers.Keys
  }

  ghost predicate LockInv(s: State) {
    && MemInv(s)
    && (forall t <- s.rpcs :: RpcInv(s, t, s.rpcs[t]))
    && (forall v <- s.workers :: WorkerInv(s, v, s.workers[v]))
  }

  lemma RpcAt(s: State, t: Tid)
    requires LockInv(s)
    ensures t in s.rpcs ==> RpcInv(s, t, s.rpcs[t])
  {
  }

  lemma WorkerAt(s: State, v: Tid)
    requires LockInv(s)
    ensures v in s.workers ==> WorkerInv(s, v, s.workers[v])
  {
  }

  /** With no reservation, an active worker that is already exiting owns its persistence. */
  lemma ActiveWorkerAt(s: State)
    requires LockInv(s) && s.mem.active.Some? && !s.mem.transition
    ensures var v := s.mem.active.value;
            && v in s.workers && WorkerInv(s, v, s.workers[v])
            && s.workers[v].persists
            && (s.workers[v].pc.Awaiting?
                ==> s.workers[v].stopOwner.value in s.handoff && s.handoff[s.workers[v].stopOwner.value])
            && (s.workers[v].stopOwner.Some? && s.workers[v].stopOwner.value !in s.handoff
                ==> s.workers[v].stopOwner.value in s.rpcs)
  {
    var v := s.mem.active.value;
    WorkerAt(s, v);
    if s.workers[v].stopOwner.Some? { RpcAt(s, s.workers[v].stopOwner.value); }
  }

  lemma TermStepFacts(sid: string, d: Slice, pc: TermPc, t: Transition, w: Write)
    requires !pc.Over()
    requires pc !in {TPut, TState, TAudit(false), TFail} ==> d.policy.Some?
    ensures var (d', pc') := TermStep(sid, d, pc, t, w);
            && (d.policy.Some? ==> d'.policy.Some?)
            && (pc' !in {TPut, TState, TAudit(false), TFail} ==> d'.policy.Some?)
  {
  }

  lemma LaunchStepFacts(sid: string, d: Slice, pc: LaunchPc, t: Transition, w: Write)
    requires !pc.Over() && (pc in {LAudit, LClear} ==> d.policy.Some?)
    ensures var (d', pc') := LaunchStep(sid, d, pc, t, w);
            && (d.policy.Some? ==> d'.policy.Some?)
            && (pc' in {LAudit, LClear, LOk} ==> d'.policy.Some?)
  {
  }

  lemma PlainMoveRpc(s: State, s': State, t: Tid, r: Rpc, u: Tid)
    requires LockInv(s) && t in s.rpcs && s.rpcs[t].Plain() && r.Plain()
    requires s'.mem == s.mem && s'.workers == s.workers && s'.handoff == s.handoff
    requires s'.owner == s.owner && s'.place == s.place && s'.rpcs == s.rpcs[t := r]
    requires s.disk.policy.Some? ==> s'.disk.policy.Some?
    requires r.Launching? ==> !r.lpc.Over() && (r.lpc in {LAudit, LClear} ==> s'.disk.policy.Some?)
    requires r.Terminating?
        ==> !r.tpc.Over() && (r.tpc !in {TPut, TState, TAudit(false), TFail} ==> s'.disk.policy.Some?)
    requires r.Admitting? ==> s'.disk.policy.Some?
    requires u in s'.rpcs
    ensures RpcInv(s', u, s'.rpcs[u])
  {
    RpcAt(s, u);
    RpcAt(s, t);
    hide LockInv;
  }

  lemma PlainMoveWorker(s: State, s': State, t: Tid, r: Rpc, v: Tid)
    requires LockInv(s) && t in s.rpcs && s.rpcs[t].Plain() && r.Plain()
    requires s'.mem == s.mem && s'.workers == s.workers && s'.handoff == s.handoff
    requires s'.owner == s.owner && s'.place == s.place && s'.rpcs == s.rpcs[t := r]
    requires s.disk.policy.Some? ==> s'.disk.policy.Some?
    requires r.Launching? ==> !r.lpc.Over() && (r.lpc in {LAudit, LClear} ==> s'.disk.policy.Some?)
    requires r.Terminating?
        ==> !r.tpc.Over() && (r.tpc !in {TPut, TState, TAudit(false), TFail} ==> s'.disk.policy.Some?)
    requires r.Admitting? ==> s'.disk.policy.Some?
    requires v in s'.workers
    ensures WorkerInv(s', v, s'.workers[v])
  {
    RpcAt(s, t);
    WorkerAt(s, v);
    hide LockInv;
  }

  /** Steps that move one request between points where it holds the reservation and the lease. */
  lemma PlainMove(s: State, s': State, t: Tid, r: Rpc)
    requires LockInv(s) && t in s.rpcs && s.rpcs[t].Plain() && r.Plain()
    requires s'.mem == s.mem && s'.workers == s.workers && s'.handoff == s.handoff
    requires s'.owner == s.owner && s'.place == s.place && s'.rpcs == s.rpcs[t := r]
    requires s.disk.policy.Some? ==> s'.disk.policy.Some?
    requires r.Launching? ==> !r.lpc.Over() && (r.lpc in {LAudit, LClear} ==> s'.disk.policy.Some?)
    requires r.Terminating?
        ==> !r.tpc.Over() && (r.tpc !in {TPut, TState, TAudit(false), TFail} ==> s'.disk.policy.Some?)
    requires r.Admitting? ==> s'.disk.policy.Some?
    ensures LockInv(s')
  {
    hide RpcInv, WorkerInv;
    forall u <- s'.rpcs ensures RpcInv(s', u, s'.rpcs[u]) { PlainMoveRpc(s, s', t, r, u); }
    forall v <- s'.workers ensures WorkerInv(s', v, s'.workers[v]) { PlainMoveWorker(s, s', t, r, v); }
  }

  lemma StopMoveRpc(s: State, s': State, t: Tid, r: Rpc, u: Tid)
    requires LockInv(s) && t in s.rpcs && s.rpcs[t].Stopper() && r.Stopper()
    requires s'.mem == s.mem && s'.workers == s.workers && s'.handoff == s.handoff
    requires s'.owner == s.owner && s'.place == s.place && s'.rpcs == s.rpcs[t := r]
    requires s'.disk == s.disk
    requires RpcInv(s', t, r)
    requires || (r.Target() == s.rpcs[t].Target() && r.SawExiting() == s.rpcs[t].SawExiting()
                 && (r.StopAwait? <==> s.rpcs[t].StopAwait?))
             || forall v <- s.workers :: s.workers[v].stopOwner == Some(t) ==> s.workers[v].pc.Gone?
    requires u in s'.rpcs
    ensures RpcInv(s', u, s'.rpcs[u])
  {
    RpcAt(s, u);
    RpcAt(s, t);
    hide LockInv;
  }

  lemma StopMoveWorker(s: State, s': State, t: Tid, r: Rpc, v: Tid)
    requires LockInv(s) && t in s.rpcs && s.rpcs[t].Stopper() && r.Stopper()
    requires s'.mem == s.mem && s'.workers == s.workers && s'.handoff == s.handoff
    requires s'.owner == s.owner && s'.place == s.place && s'.rpcs == s.rpcs[t := r]
    requires s'.disk == s.disk
    requires RpcInv(s', t, r)
    requires || (r.Target() == s.rpcs[t].Target() && r.SawExiting() == s.rpcs[t].SawExiting()
                 && (r.StopAwait? <==> s.rpcs[t].StopAwait?))
             || forall v <- s.workers :: s.workers[v].stopOwner == Some(t) ==> s.workers[v].pc.Gone?
    requires v in s'.workers
    ensures WorkerInv(s', v, s'.workers[v])
  {
    RpcAt(s, t);
    WorkerAt(s, v);
    hide LockInv;
  }

  /** Steps that move one Stop while it keeps the reservation. */
  lemma StopMove(s: State, s': State, t: Tid, r: Rpc)
    requires LockInv(s) && t in s.rpcs && s.rpcs[t].Stopper() && r.Stopper()
    requires s'.mem == s.mem && s'.workers == s.workers && s'.handoff == s.handoff
    requires s'.owner == s.owner && s'.place == s.place && s'.rpcs == s.rpcs[t := r]
    requires s'.disk == s.disk
    requires RpcInv(s', t, r)
    requires || (r.Target() == s.rpcs[t].Target() && r.SawExiting() == s.rpcs[t].SawExiting()
                 && (r.StopAwait? <==> s.rpcs[t].StopAwait?))
             || forall v <- s.workers :: s.workers[v].stopOwner == Some(t) ==> s.workers[v].pc.Gone?
    ensures LockInv(s')
  {
    hide RpcInv, WorkerInv;
    forall u <- s'.rpcs ensures RpcInv(s', u, s'.rpcs[u]) { StopMoveRpc(s, s', t, r, u); }
    forall v <- s'.workers ensures WorkerInv(s', v, s'.workers[v]) { StopMoveWorker(s, s', t, r, v); }
  }

  /** reserveStopTransition when a worker is active: no lease is taken. */
  lemma StopActiveMove(s: State, s': State, t: Tid, v: Tid)
    requires LockInv(s) && FreshTid(s, t) && !s.mem.transition && s.mem.active == Some(v) && v in s.workers
    requires s' == s.(mem := s.mem.(transition := true, stopping := Some(t)), owner := Some(ByRpc(t)),
                      rpcs := s.rpcs[t := StopReserved(Some(v), !s.workers[v].pc.Watching?)])
    ensures LockInv(s')
  {
    ActiveWorkerAt(s);
    forall u <- s'.rpcs ensures RpcInv(s', u, s'.rpcs[u]) {
      if u != t { RpcAt(s, u); }
      else if HeldByWorker(s) { WorkerAt(s, s.place.value.w); }
    }
    forall x <- s'.workers ensures WorkerInv(s', x, s'.workers[x]) {
      WorkerAt(s, x);
    }
  }

  lemma StopIdleMove(s: State, s': State, t: Tid)
    requires LockInv(s) && FreshTid(s, t) && CanReserve(s.mem) && s.mem.active.None?
    requires s' == s.(mem := Reserve(s.mem).(stopping := Some(t)), rpcs := s.rpcs[t := StopReserved(None, false)],
                      owner := Some(ByRpc(t)), place := Some(InMap))
    ensures LockInv(s')
  {
    forall u <- s'.rpcs ensures RpcInv(s', u, s'.rpcs[u]) {
      if u != t { RpcAt(s, u); }
    }
    forall x <- s'.workers ensures WorkerInv(s', x, s'.workers[x]) {
      WorkerAt(s, x);
    }
  }

  /** Steps that move one live worker that owns its persistence. */
  lemma WorkerMove(s: State, s': State, v: Tid, worker: Worker)
    requires LockInv(s) && v in s.workers && (s.workers[v].pc.Deciding? || s.workers[v].pc.Persisting?)
    requires s'.mem == s.mem && s'.rpcs == s.rpcs && s'.handoff == s.handoff
    requires s'.owner == s.owner && s'.place == s.place && s'.workers == s.workers[v := worker]
    requires s'.disk.policy.Some?
    requires worker == s.workers[v].(pc := worker.pc)
    requires worker.pc.Leasing? || (worker.pc.Persisting? && !worker.pc.tpc.Over())
    ensures LockInv(s')
  {
  }

  /** reserveTransition, by Start or Resume. */
  lemma ReserveMove(s: State, s': State, t: Tid, r: Rpc)
    requires LockInv(s) && FreshTid(s, t) && CanReserve(s.mem) && (r.Reserved? || r.Resuming?)
    requires s'.mem == Reserve(s.mem) && s'.rpcs == s.rpcs[t := r] && s'.owner == Some(ByRpc(t))
        && s'.place == Some(InMap)
    requires s'.disk == s.disk && s'.workers == s.workers && s'.handoff == s.handoff
    ensures LockInv(s')
  {
    forall u <- s'.rpcs ensures RpcInv(s', u, s'.rpcs[u]) {
      if u != t { RpcAt(s, u); }
    }
    forall v <- s'.workers ensures WorkerInv(s', v, s'.workers[v]) {
      WorkerAt(s, v);
    }
  }

  lemma StartReserveKeepsLocks(sid: string, s: State, t: Tid, request: Policy)
    requires LockInv(s) && DoStartReserve(sid, s, t, request).Some?
    ensures LockInv(DoStartReserve(sid, s, t, request).value)
  {
    hide LockInv;
    var s' := DoStartReserve(sid, s, t, request).value;
    ReserveMove(s, s', t, s'.rpcs[t]);
  }

  lemma StartGiveUpKeepsLocks(sid: string, s: State, t: Tid)
    requires LockInv(s) && DoStartGiveUp(sid, s, t).Some?
    ensures LockInv(DoStartGiveUp(sid, s, t).value)
  {
    hide LockInv;
    var s' := DoStartGiveUp(sid, s, t).value;
    RpcAt(s, t);
    PlainMove(s, s', t, s'.rpcs[t]);
  }

  lemma StartBlockKeepsLocks(sid: string, s: State, t: Tid, outcome: Outcome, id: string, at: nat)
    requires LockInv(s) && DoStartBlock(sid, s, t, outcome, id, at).Some?
    ensures LockInv(DoStartBlock(sid, s, t, outcome, id, at).value)
  {
    hide LockInv;
    var s' := DoStartBlock(sid, s, t, outcome, id, at).value;
    RpcAt(s, t);
    PlainMove(s, s', t, s'.rpcs[t]);
  }

  lemma StartPersistKeepsLocks(sid: string, s: State, t: Tid, id: string)
    requires LockInv(s) && DoStartPersist(sid, s, t, id).Some?
    ensures LockInv(DoStartPersist(sid, s, t, id).value)
  {
    hide LockInv;
    var s' := DoStartPersist(sid, s, t, id).value;
    RpcAt(s, t);
    PlainMove(s, s', t, s'.rpcs[t]);
  }

  lemma LaunchWriteKeepsLocks(sid: string, s: State, t: Tid, w: Write, id: string, at: nat)
    requires LockInv(s) && DoLaunchWrite(sid, s, t, w, id, at).Some?
    ensures LockInv(DoLaunchWrite(sid, s, t, w, id, at).value)
  {
    hide LockInv;
    hide LaunchStep;
    var s' := DoLaunchWrite(sid, s, t, w, id, at).value;
    RpcAt(s, t);
    LaunchStepFacts(sid, s.disk, s.rpcs[t].lpc, s.rpcs[t].t, w);
    PlainMove(s, s', t, s'.rpcs[t]);
  }

  lemma AdmitCancelKeepsLocks(sid: string, s: State, t: Tid, id: string, at: nat)
    requires LockInv(s) && DoAdmitCancel(sid, s, t, id, at).Some?
    ensures LockInv(DoAdmitCancel(sid, s, t, id, at).value)
  {
    hide LockInv;
    var s' := DoAdmitCancel(sid, s, t, id, at).value;
    RpcAt(s, t);
    PlainMove(s, s', t, s'.rpcs[t]);
  }

  lemma AdmitFailKeepsLocks(sid: string, s: State, t: Tid)
    requires LockInv(s) && DoAdmitFail(sid, s, t).Some?
    ensures LockInv(DoAdmitFail(sid, s, t).value)
  {
    hide LockInv;
    var s' := DoAdmitFail(sid, s, t).value;
    RpcAt(s, t);
    PlainMove(s, s', t, s'.rpcs[t]);
  }

  lemma AdmitLaunchKeepsLocks(sid: string, s: State, t: Tid, v: Tid)
    requires LockInv(s) && DoAdmitLaunch(sid, s, t, v).Some?
    ensures LockInv(DoAdmitLaunch(sid, s, t, v).value)
  {
    var s' := DoAdmitLaunch(sid, s, t, v).value;
    RpcAt(s, t);
    forall u <- s'.rpcs ensures RpcInv(s', u, s'.rpcs[u]) {
      RpcAt(s, u);
    }
    forall x <- s'.workers ensures WorkerInv(s', x, s'.workers[x]) {
      if x != v { WorkerAt(s, x); }
    }
  }

  lemma TermWriteKeepsRpc(sid: string, s: State, t: Tid, w: Write, u: Tid)
    requires LockInv(s) && DoTermWrite(sid, s, t, w).Some? && u in DoTermWrite(sid, s, t, w).value.rpcs
    ensures RpcInv(DoTermWrite(sid, s, t, w).value, u, DoTermWrite(sid, s, t, w).value.rpcs[u])
  {
    hide TermStep;
    RpcAt(s, t);
    TermStepFacts(sid, s.disk, s.rpcs[t].tpc, s.rpcs[t].t, w);
    RpcAt(s, u);
    hide LockInv;
  }

  lemma TermWriteKeepsWorker(sid: string, s: State, t: Tid, w: Write, x: Tid)
    requires LockInv(s) && DoTermWrite(sid, s, t, w).Some? && x in DoTermWrite(sid, s, t, w).value.workers
    ensures WorkerInv(DoTermWrite(sid, s, t, w).value, x, DoTermWrite(sid, s, t, w).value.workers[x])
  {
    hide TermStep;
    RpcAt(s, t);
    TermStepFacts(sid, s.disk, s.rpcs[t].tpc, s.rpcs[t].t, w);
    WorkerAt(s, x);
    hide LockInv;
  }

  lemma TermWriteKeepsLocks(sid: string, s: State, t: Tid, w: Write)
    requires LockInv(s) && DoTermWrite(sid, s, t, w).Some?
    ensures LockInv(DoTermWrite(sid, s, t, w).value)
  {
    hide TermStep;
    hide RpcInv, WorkerInv;
    var s' := DoTermWrite(sid, s, t, w).value;
    forall u <- s'.rpcs ensures RpcInv(s', u, s'.rpcs[u]) { TermWriteKeepsRpc(sid, s, t, w, u); }
    forall x <- s'.workers ensures WorkerInv(s', x, s'.workers[x]) { TermWriteKeepsWorker(sid, s, t, w, x); }
  }

  lemma ReleaseKeepsLocks(sid: string, s: State, t: Tid)
    requires LockInv(s) && DoRelease(sid, s, t).Some?
    ensures LockInv(DoRelease(sid, s, t).value)
  {
    var s' := DoRelease(sid, s, t).value;
    RpcAt(s, t);
    forall u <- s'.rpcs ensures RpcInv(s', u, s'.rpcs[u]) {
      RpcAt(s, u);
    }
    forall v <- s'.workers ensures WorkerInv(s', v, s'.workers[v]) {
      WorkerAt(s, v);
    }
  }

  lemma DropKeepsLocks(sid: string, s: State, t: Tid)
    requires LockInv(s) && DoDrop(sid, s, t).Some?
    ensures LockInv(DoDrop(sid, s, t).value)
  {
    var s' := DoDrop(sid, s, t).value;
    RpcAt(s, t);
    forall u <- s'.rpcs ensures RpcInv(s', u, s'.rpcs[u]) {
      RpcAt(s, u);
    }
    forall v <- s'.workers ensures WorkerInv(s', v, s'.workers[v]) {
      WorkerAt(s, v);
    }
  }

  lemma StopReserveKeepsLocks(sid: string, s: State, t: Tid)
    requires LockInv(s) && DoStopReserve(sid, s, t).Some?
    ensures LockInv(DoStopReserve(sid, s, t).value)
  {
    hide LockInv;
    var s' := DoStopReserve(sid, s, t).value;
    if s.mem.active.Some? {
      ActiveWorkerAt(s);
      StopActiveMove(s, s', t, s.mem.active.value);
    } else {
      StopIdleMove(s, s', t);
    }
  }

  lemma StopReadKeepsLocks(sid: string, s: State, t: Tid, id: string, at: nat)
    requires LockInv(s) && DoStopRead(sid, s, t, id, at).Some?
    ensures LockInv(DoStopRead(sid, s, t, id, at).value)
  {
    hide LockInv;
    var s' := DoStopRead(sid, s, t, id, at).value;
    RpcAt(s, t);
    if s.disk.policy.None? {
      forall v <- s.workers ensures false { WorkerAt(s, v); }
    }
    StopMove(s, s', t, s'.rpcs[t]);
  }

  lemma StopHandoffRpc(sid: string, s: State, t: Tid, u: Tid)
    requires LockInv(s) && DoStopHandoff(sid, s, t).Some? && u in DoStopHandoff(sid, s, t).value.rpcs
    ensures RpcInv(DoStopHandoff(sid, s, t).value, u, DoStopHandoff(sid, s, t).value.rpcs[u])
  {
    RpcAt(s, t);
    RpcAt(s, u);
    hide LockInv;
  }

  lemma StopHandoffWorker(sid: string, s: State, t: Tid, v: Tid)
    requires LockInv(s) && DoStopHandoff(sid, s, t).Some? && v in s.workers
    ensures WorkerInv(DoStopHandoff(sid, s, t).value, v, s.workers[v])
  {
    RpcAt(s, t);
    WorkerAt(s, v);
    hide LockInv;
  }

  lemma StopHandoffKeepsLocks(sid: string, s: State, t: Tid)
    requires LockInv(s) && DoStopHandoff(sid, s, t).Some?
    ensures LockInv(DoStopHandoff(sid, s, t).value)
  {
    RpcAt(s, t);
    hide RpcInv, WorkerInv;
    var s' := DoStopHandoff(sid, s, t).value;
    forall u <- s'.rpcs ensures RpcInv(s', u, s'.rpcs[u]) { StopHandoffRpc(sid, s, t, u); }
    forall v <- s'.workers ensures WorkerInv(s', v, s'.workers[v]) { StopHandoffWorker(sid, s, t, v); }
  }

  lemma StopCollectKeepsLocks(sid: string, s: State, t: Tid, outcome: Outcome, id: string, at: nat)
    requires LockInv(s) && DoStopCollect(sid, s, t, outcome, id, at).Some?
    ensures LockInv(DoStopCollect(sid, s, t, outcome, id, at).value)
  {
    hide LockInv;
    var s' := DoStopCollect(sid, s, t, outcome, id, at).value;
    RpcAt(s, t);
    WorkerAt(s, s.rpcs[t].w);
    forall v <- s.workers ensures s.workers[v].stopOwner == Some(t) ==> s.workers[v].pc.Gone? { WorkerAt(s, v); }
    StopMove(s, s', t, s'.rpcs[t]);
  }

  lemma StopReleaseKeepsLocks(sid: string, s: State, t: Tid)
    requires LockInv(s) && DoStopRelease(sid, s, t).Some?
    ensures LockInv(DoStopRelease(sid, s, t).value)
  {
    var s' := DoStopRelease(sid, s, t).value;
    RpcAt(s, t);
    forall u <- s'.rpcs ensures RpcInv(s', u, s'.rpcs[u]) {
      RpcAt(s, u);
    }
    forall v <- s'.workers ensures WorkerInv(s', v, s'.workers[v]) {
      WorkerAt(s, v);
    }
  }

  lemma ResumeReserveKeepsLocks(sid: string, s: State, t: Tid)
    requires LockInv(s) && DoResumeReserve(sid, s, t).Some?
    ensures LockInv(DoResumeReserve(sid, s, t).value)
  {
    hide LockInv;
    var s' := DoResumeReserve(sid, s, t).value;
    ReserveMove(s, s', t, s'.rpcs[t]);
  }

  lemma ResumeAuditKeepsLocks(sid: string, s: State, t: Tid, w: Write)
    requires LockInv(s) && DoResumeAudit(sid, s, t, w).Some?
    ensures LockInv(DoResumeAudit(sid, s, t, w).value)
  {
    hide LockInv;
    var s' := DoResumeAudit(sid, s, t, w).value;
    RpcAt(s, t);
    PlainMove(s, s', t, s'.rpcs[t]);
  }

  lemma ResumeAuditUnreadableKeepsLocks(sid: string, s: State, t: Tid, id: string, at: nat)
    requires LockInv(s) && DoResumeAuditUnreadable(sid, s, t, id, at).Some?
    ensures LockInv(DoResumeAuditUnreadable(sid, s, t, id, at).value)
  {
    hide LockInv;
    var s' := DoResumeAuditUnreadable(sid, s, t, id, at).value;
    RpcAt(s, t);
    PlainMove(s, s', t, s'.rpcs[t]);
  }

  lemma ResumeJournalKeepsLocks(sid: string, s: State, t: Tid)
    requires LockInv(s) && DoResumeJournal(sid, s, t).Some?
    ensures LockInv(DoResumeJournal(sid, s, t).value)
  {
    hide LockInv;
    var s' := DoResumeJournal(sid, s, t).value;
    RpcAt(s, t);
    PlainMove(s, s', t, s'.rpcs[t]);
  }

  lemma ResumeLaunchKeepsLocks(sid: string, s: State, t: Tid, id: string, at: nat)
    requires LockInv(s) && DoResumeLaunch(sid, s, t, id, at).Some?
    ensures LockInv(DoResumeLaunch(sid, s, t, id, at).value)
  {
    hide LockInv;
    var s' := DoResumeLaunch(sid, s, t, id, at).value;
    RpcAt(s, t);
    PlainMove(s, s', t, s'.rpcs[t]);
  }

  lemma ResumeTerminateKeepsLocks(sid: string, s: State, t: Tid, action: Action, outcome: Outcome, id: string, at: nat)
    requires LockInv(s) && DoResumeTerminate(sid, s, t, action, outcome, id, at).Some?
    ensures LockInv(DoResumeTerminate(sid, s, t, action, outcome, id, at).value)
  {
    hide LockInv;
    var s' := DoResumeTerminate(sid, s, t, action, outcome, id, at).value;
    RpcAt(s, t);
    PlainMove(s, s', t, s'.rpcs[t]);
  }

  lemma ResumeSkipKeepsLocks(sid: string, s: State, t: Tid)
    requires LockInv(s) && DoResumeSkip(sid, s, t).Some?
    ensures LockInv(DoResumeSkip(sid, s, t).value)
  {
    hide LockInv;
    var s' := DoResumeSkip(sid, s, t).value;
    RpcAt(s, t);
    PlainMove(s, s', t, s'.rpcs[t]);
  }

  lemma WorkerExitKeepsLocks(sid: string, s: State, v: Tid, failed: bool)
    requires LockInv(s) && DoWorkerExit(sid, s, v, failed).Some?
    ensures LockInv(DoWorkerExit(sid, s, v, failed).value)
  {
    var s' := DoWorkerExit(sid, s, v, failed).value;
    WorkerAt(s, v);
    if s.mem.stopping.Some? { RpcAt(s, s.mem.stopping.value); }
    forall u <- s'.rpcs ensures RpcInv(s', u, s'.rpcs[u]) {
      RpcAt(s, u);
    }
    forall x <- s'.workers ensures WorkerInv(s', x, s'.workers[x]) {
      WorkerAt(s, x);
    }
  }

  lemma WorkerReceiveKeepsLocks(sid: string, s: State, v: Tid)
    requires LockInv(s) && DoWorkerReceive(sid, s, v).Some?
    ensures LockInv(DoWorkerReceive(sid, s, v).value)
  {
    var s' := DoWorkerReceive(sid, s, v).value;
    WorkerAt(s, v);
    forall u <- s'.rpcs ensures RpcInv(s', u, s'.rpcs[u]) {
      RpcAt(s, u);
    }
    forall x <- s'.workers ensures WorkerInv(s', x, s'.workers[x]) {
      WorkerAt(s, x);
    }
  }

  lemma WorkerDecideKeepsLocks(sid: string, s: State, v: Tid, skip: bool, action: Action, outcome: Outcome,
                               id: string, at: nat)
    requires LockInv(s) && DoWorkerDecide(sid, s, v, skip, action, outcome, id, at).Some?
    ensures LockInv(DoWorkerDecide(sid, s, v, skip, action, outcome, id, at).value)
  {
    hide LockInv;
    var s' := DoWorkerDecide(sid, s, v, skip, action, outcome, id, at).value;
    WorkerAt(s, v);
    WorkerMove(s, s', v, s'.workers[v]);
  }

  lemma WorkerWriteKeepsLocks(sid: string, s: State, v: Tid, w: Write)
    requires LockInv(s) && DoWorkerWrite(sid, s, v, w).Some?
    ensures LockInv(DoWorkerWrite(sid, s, v, w).value)
  {
    hide LockInv;
    var s' := DoWorkerWrite(sid, s, v, w).value;
    WorkerAt(s, v);
    WorkerMove(s, s', v, s'.workers[v]);
  }

  lemma WorkerLeaseKeepsRpc(sid: string, s: State, v: Tid, u: Tid)
    requires LockInv(s) && DoWorkerLease(sid, s, v).Some? && u in DoWorkerLease(sid, s, v).value.rpcs
    ensures RpcInv(DoWorkerLease(sid, s, v).value, u, DoWorkerLease(sid, s, v).value.rpcs[u])
  {
    WorkerAt(s, v);
    RpcAt(s, u);
    hide LockInv;
  }

  lemma WorkerLeaseKeepsWorker(sid: string, s: State, v: Tid, x: Tid)
    requires LockInv(s) && DoWorkerLease(sid, s, v).Some? && x in DoWorkerLease(sid, s, v).value.workers
    ensures WorkerInv(DoWorkerLease(sid, s, v).value, x, DoWorkerLease(sid, s, v).value.workers[x])
  {
    WorkerAt(s, v);
    WorkerAt(s, x);
    hide LockInv;
  }

  lemma WorkerLeaseKeepsLocks(sid: string, s: State, v: Tid)
    requires LockInv(s) && DoWorkerLease(sid, s, v).Some?
    ensures LockInv(DoWorkerLease(sid, s, v).value)
  {
    WorkerAt(s, v);
    hide RpcInv, WorkerInv;
    var s' := DoWorkerLease(sid, s, v).value;
    forall u <- s'.rpcs ensures RpcInv(s', u, s'.rpcs[u]) { WorkerLeaseKeepsRpc(sid, s, v, u); }
    forall x <- s'.workers ensures WorkerInv(s', x, s'.workers[x]) { WorkerLeaseKeepsWorker(sid, s, v, x); }
  }

  lemma WorkerCleanupKeepsRpc(sid: string, s: State, v: Tid, u: Tid)
    requires LockInv(s) && DoWorkerCleanup(sid, s, v).Some? && u in DoWorkerCleanup(sid, s, v).value.rpcs
    ensures RpcInv(DoWorkerCleanup(sid, s, v).value, u, DoWorkerCleanup(sid, s, v).value.rpcs[u])
  {
    WorkerAt(s, v);
    RpcAt(s, u);
    hide LockInv;
  }

  lemma WorkerCleanupKeepsWorker(sid: string, s: State, v: Tid, x: Tid)
    requires LockInv(s) && DoWorkerCleanup(sid, s, v).Some? && x in DoWorkerCleanup(sid, s, v).value.workers
    ensures WorkerInv(DoWorkerCleanup(sid, s, v).value, x, DoWorkerCleanup(sid, s, v).value.workers[x])
  {
    WorkerAt(s, v);
    WorkerAt(s, x);
    hide LockInv;
  }

  lemma WorkerCleanupKeepsLocks(sid: string, s: State, v: Tid)
    requires LockInv(s) && DoWorkerCleanup(sid, s, v).Some?
    ensures LockInv(DoWorkerCleanup(sid, s, v).value)
  {
    WorkerAt(s, v);
    hide RpcInv, WorkerInv;
    var s' := DoWorkerCleanup(sid, s, v).value;
    forall u <- s'.rpcs ensures RpcInv(s', u, s'.rpcs[u]) { WorkerCleanupKeepsRpc(sid, s, v, u); }
    forall x <- s'.workers ensures WorkerInv(s', x, s'.workers[x]) { WorkerCleanupKeepsWorker(sid, s, v, x); }
  }

  lemma ShutdownKeepsLocks(sid: string, s: State)
    requires LockInv(s) && DoShutdown(sid, s).Some?
    ensures LockInv(DoShutdown(sid, s).value)
  {
    var s' := DoShutdown(sid, s).value;
    forall u <- s'.rpcs ensures RpcInv(s', u, s'.rpcs[u]) {
      RpcAt(s, u);
    }
    forall v <- s'.workers ensures WorkerInv(s', v, s'.workers[v]) {
      WorkerAt(s, v);
    }
  }

  lemma CrashKeepsLocks(sid: string, s: State)
    requires LockInv(s) && DoCrash(sid, s).Some?
    ensures LockInv(DoCrash(sid, s).value)
  {
  }

  lemma OtherAppendKeepsLocks(sid: string, s: State, r: Record)
    requires LockInv(s) && DoOtherAppend(sid, s, r).Some?
    ensures LockInv(DoOtherAppend(sid, s, r).value)
  {
    var s' := DoOtherAppend(sid, s, r).value;
    forall u <- s'.rpcs ensures RpcInv(s', u, s'.rpcs[u]) {
      RpcAt(s, u);
    }
    forall v <- s'.workers ensures WorkerInv(s', v, s'.workers[v]) {
      WorkerAt(s, v);
    }
  }

  lemma StepKeepsLocks(sid: string, s: State, a: Act)
    requires LockInv(s) && Step(sid, s, a).Some?
    ensures LockInv(Step(sid, s, a).value)
  {
    hide *;
    StepIs(sid, s, a);
    match a
    case StartReserve(t, request) => StartReserveKeepsLocks(sid, s, t, request);
    case StartGiveUp(t) => StartGiveUpKeepsLocks(sid, s, t);
    case StartBlock(t, outcome, id, at) => StartBlockKeepsLocks(sid, s, t, outcome, id, at);
    case StartPersist(t, id) => StartPersistKeepsLocks(sid, s, t, id);
    case LaunchWrite(t, w, id, at) => LaunchWriteKeepsLocks(sid, s, t, w, id, at);
    case AdmitCancel(t, id, at) => AdmitCancelKeepsLocks(sid, s, t, id, at);
    case AdmitFail(t) => AdmitFailKeepsLocks(sid, s, t);
    case AdmitLaunch(t, v) => AdmitLaunchKeepsLocks(sid, s, t, v);
    case TermWrite(t, w) => TermWriteKeepsLocks(sid, s, t, w);
    case Release(t) => ReleaseKeepsLocks(sid, s, t);
    case Drop(t) => DropKeepsLocks(sid, s, t);
    case StopReserve(t) => StopReserveKeepsLocks(sid, s, t);
    case StopRead(t, id, at) => StopReadKeepsLocks(sid, s, t, id, at);
    case StopHandoff(t) => StopHandoffKeepsLocks(sid, s, t);
    case StopCollect(t, outcome, id, at) => StopCollectKeepsLocks(sid, s, t, outcome, id, at);
    case StopRelease(t) => StopReleaseKeepsLocks(sid, s, t);
    case ResumeReserve(t) => ResumeReserveKeepsLocks(sid, s, t);
    case ResumeAudit(t, w) => ResumeAuditKeepsLocks(sid, s, t, w);
    case ResumeAuditUnreadable(t, id, at) => ResumeAuditUnreadableKeepsLocks(sid, s, t, id, at);
    case ResumeJournal(t) => ResumeJournalKeepsLocks(sid, s, t);
    case ResumeLaunch(t, id, at) => ResumeLaunchKeepsLocks(sid, s, t, id, at);
    case ResumeTerminate(t, action, outcome, id, at) => ResumeTerminateKeepsLocks(sid, s, t, action, outcome, id, at);
    case ResumeSkip(t) => ResumeSkipKeepsLocks(sid, s, t);
    case WorkerExit(v, failed) => WorkerExitKeepsLocks(sid, s, v, failed);
    case WorkerReceive(v) => WorkerReceiveKeepsLocks(sid, s, v);
    case WorkerDecide(v, skip, action, outcome, id, at) => WorkerDecideKeepsLocks(sid, s, v, skip, action, outcome,
        id, at);
    case WorkerWrite(v, w) => WorkerWriteKeepsLocks(sid, s, v, w);
    case WorkerLease(v) => WorkerLeaseKeepsLocks(sid, s, v);
    case WorkerCleanup(v) => WorkerCleanupKeepsLocks(sid, s, v);
    case Shutdown => ShutdownKeepsLocks(sid, s);
    case Crash => CrashKeepsLocks(sid, s);
    case OtherAppend(r) => OtherAppendKeepsLocks(sid, s, r);
  }
}
