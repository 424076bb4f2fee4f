/** The promises of the background drain manager, over all runs of the interleaving machine. */
module BackgroundTheorems {
  import opened Prelude
  import opened BackgroundDisk
  import opened BackgroundRace
  import opened BackgroundLocks
  import opened BackgroundSafety

  ghost predicate Reachable(sid: string, s: State) {
    exists s0, acts :: Initial(sid, s0) && Run(sid, s0, acts) == Some(s)
  }

  ghost predicate Inv(sid: string, s: State) { LockInv(s) && SafeInv(sid, s) }

  lemma {:induction false} RunKeepsInv(sid: string, s: State, acts: seq<Act>)
    requires Inv(sid, s) && Run(sid, s, acts).Some?
    ensures Inv(sid, Run(sid, s, acts).value)
    decreases acts
  {
    hide LockInv;
    hide SafeInv;
    hide Step;
    if acts != [] {
      StepKeepsLocks(sid, s, acts[0]);
      StepIsSafe(sid, s, acts[0]);
      RunKeepsInv(sid, Step(sid, s, acts[0]).value, acts[1..]);
    }
  }

  lemma InitialInv(sid: string, s: State)
    requires Initial(sid, s)
    ensures Inv(sid, s)
  {
    LastForIsIn(s.disk.audit, sid);
  }

  lemma ReachableInv(sid: string, s: State)
    requires Reachable(sid, s)
    ensures Inv(sid, s)
  {
    hide LockInv;
    hide SafeInv;
    hide Step;
    hide Initial;
    var s0, acts :| Initial(sid, s0) && Run(sid, s0, acts) == Some(s);
    InitialInv(sid, s0);
    RunKeepsInv(sid, s0, acts);
  }

  lemma {:induction false} RunAppend(sid: string, s: State, xs: seq<Act>, ys: seq<Act>)
    requires Run(sid, s, xs).Some?
    ensures Run(sid, s, xs + ys) == Run(sid, Run(sid, s, xs).value, ys)
    decreases xs
  {
    hide Step;
    if xs == [] {
      assert xs + ys == ys;
    } else {
      assert (xs + ys)[1..] == xs[1..] + ys;
      RunAppend(sid, Step(sid, s, xs[0]).value, xs[1..], ys);
    }
  }

  // ----- the lease -----

  /** Somebody can call the lease's release function. */
  ghost predicate CanRelease(s: State, p: Place) {
    match p
    case InMap => s.mem.leaseInMap
    case OnStack(t) => t in s.rpcs && s.rpcs[t].Dropping?
    case WithWorker(v) => v in s.workers && s.workers[v].hasLease
  }

  ghost predicate AllDone(s: State) {
    (forall t <- s.rpcs :: s.rpcs[t].Finished?) && (forall v <- s.workers :: s.workers[v].pc.Gone?)
  }

  /** The session lease has at most one holder, is never released twice and never lost: the lock is
      held exactly while one place can release it, releases lag acquisitions by that one at most, and
      once every request and worker has ended nothing is held or reserved. */
  lemma LeaseHasOneHolder(sid: string, s: State)
    requires Reachable(sid, s)
    ensures forall p, q :: CanRelease(s, p) && CanRelease(s, q) ==> p == q
    ensures s.mem.held <==> exists p :: CanRelease(s, p)
    ensures s.mem.acquired == s.mem.released + (if s.mem.held then 1 else 0)
    ensures AllDone(s) ==> !s.mem.held && !s.mem.transition && s.mem.acquired == s.mem.released
  {
    hide SafeInv;
    ReachableInv(sid, s);
    forall p | CanRelease(s, p) ensures s.place == Some(p) {
      match p
      case InMap =>
      case OnStack(t) => RpcAt(s, t);
      case WithWorker(v) => WorkerAt(s, v);
    }
    if s.place.Some? {
      PlaceReleases(s);
    }
    if AllDone(s) && s.owner.Some? {
      match s.owner.value
      case ByRpc(t) => RpcAt(s, t);
      case ByWorker(v) => WorkerAt(s, v);
    }
  }

  lemma PlaceReleases(s: State)
    requires LockInv(s) && s.place.Some?
    ensures CanRelease(s, s.place.value)
  {
    match s.place.value
    case InMap =>
    case OnStack(t) => RpcAt(s, t);
    case WithWorker(v) => WorkerAt(s, v);
  }

  /** At most one worker of the session is live, and it is the one in active. */
  lemma OneLiveWorker(sid: string, s: State, v: Tid)
    requires Reachable(sid, s) && v in s.workers && s.workers[v].Live()
    ensures s.mem.held && s.mem.active == Some(v)
    ensures forall w <- s.workers :: s.workers[w].Live() ==> w == v
  {
    hide SafeInv;
    ReachableInv(sid, s);
    forall w <- s.workers ensures s.workers[w].Live() ==> w == v { WorkerAt(s, w); WorkerAt(s, v); }
  }

  // ----- Stop against a finishing worker -----

  predicate PastHandoff(worker: Worker) { !worker.pc.Watching? && !worker.pc.Awaiting? }

  /** After a Stop has persisted, the worker it waits for persists exactly if that worker had already
      begun to exit when the Stop reserved the session (an earlier Stop had failed and handed it the
      persistence). A worker still watching at that moment persists nothing. */
  lemma PersistsAfterStopIff(sid: string, s: State, t: Tid)
    requires Reachable(sid, s) && t in s.rpcs && s.rpcs[t].StopAwait?
    ensures s.rpcs[t].w in s.workers
    ensures PastHandoff(s.workers[s.rpcs[t].w]) ==> (s.workers[s.rpcs[t].w].persists <==> s.rpcs[t].exiting)
    ensures s.workers[s.rpcs[t].w].pc.Persisting? ==> s.rpcs[t].exiting
  {
    hide SafeInv;
    ReachableInv(sid, s);
    RpcAt(s, t);
    WorkerAt(s, s.rpcs[t].w);
  }

  /** A worker that waits for its Stop's word has it, or that Stop is still going to send it. */
  lemma HandoffIsNeverLost(sid: string, s: State, v: Tid)
    requires Reachable(sid, s) && v in s.workers && s.workers[v].pc.Awaiting?
    ensures s.workers[v].stopOwner.Some?
    ensures var o := s.workers[v].stopOwner.value;
            o in s.handoff
            || (o in s.rpcs && (s.rpcs[o].StopReserved? || (s.rpcs[o].Terminating? && s.rpcs[o].next.ThenStop?))
                && s.disk.policy.Some?)
  {
    hide SafeInv;
    ReachableInv(sid, s);
    WorkerAt(s, v);
  }

  // ----- Stop holds across crashes and restarts -----

  lemma StoppedStays(sid: string, s: State, a: Act)
    requires Inv(sid, s) && s.stopped && !a.StartReserve? && Step(sid, s, a).Some?
    ensures Step(sid, s, a).value.stopped && !a.AdmitLaunch?
  {
    hide LockInv, DiskInv, MintInv, TermStep, LaunchStep, ReconcileAuditStep, LastFor, AuditAfter;
  }

  lemma {:induction false} NoLaunchWhileStopped(sid: string, s: State, acts: seq<Act>)
    requires Inv(sid, s) && s.stopped && Run(sid, s, acts).Some?
    requires forall a <- acts :: !a.StartReserve?
    ensures forall a <- acts :: !a.AdmitLaunch?
    ensures Inv(sid, Run(sid, s, acts).value) && Run(sid, s, acts).value.stopped
    decreases acts
  {
    hide LockInv;
    hide SafeInv;
    hide Step;
    if acts != [] {
      StoppedStays(sid, s, acts[0]);
      StepKeepsLocks(sid, s, acts[0]);
      StepIsSafe(sid, s, acts[0]);
      NoLaunchWhileStopped(sid, Step(sid, s, acts[0]).value, acts[1..]);
      assert acts == [acts[0]] + acts[1..];
    }
  }

  /** Once a Stop has returned success, no run of crashes, restarts, Resumes and worker exits launches
      the session or finds its policy enabled, until a later Start reserves it. */
  lemma StopHolds(sid: string, s0: State, before: seq<Act>, t: Tid, after: seq<Act>)
    requires Initial(sid, s0) && Run(sid, s0, before + [StopRelease(t)] + after).Some?
    requires Run(sid, s0, before).Some? && IsRpc(Run(sid, s0, before).value, t)
    requires Run(sid, s0, before).value.rpcs[t] == StopReleasing(true)
    requires forall a <- after :: !a.StartReserve?
    ensures forall a <- after :: !a.AdmitLaunch?
    ensures var s := Run(sid, s0, before + [StopRelease(t)] + after).value;
            !s.disk.Enabled() && forall v <- s.workers :: !s.workers[v].Live()
  {
    InitialInv(sid, s0);
    RunKeepsInv(sid, s0, before);
    var s1 := Run(sid, s0, before).value;
    assert before + [StopRelease(t)] + after == before + ([StopRelease(t)] + after);
    RunAppend(sid, s0, before, [StopRelease(t)] + after);
    assert ([StopRelease(t)] + after)[1..] == after;
    StopReleaseStops(sid, s1, t);
    NoLaunchWhileStopped(sid, Step(sid, s1, StopRelease(t)).value, after);
    var s := Run(sid, s0, before + [StopRelease(t)] + after).value;
    forall v <- s.workers ensures !s.workers[v].Live() { WorkerAt(s, v); }
  }

  lemma StopReleaseStops(sid: string, s: State, t: Tid)
    requires Inv(sid, s) && IsRpc(s, t) && s.rpcs[t] == StopReleasing(true)
    ensures Step(sid, s, StopRelease(t)).Some?
    ensures var s' := Step(sid, s, StopRelease(t)).value; Inv(sid, s') && s'.stopped
  {
    StopReleaseKeepsLocks(sid, s, t);
    StopReleaseIsSafe(sid, s, t);
  }

  lemma LaunchWriteEnables(sid: string, s: State, t: Tid, w: Write, id: string, at: nat)
    requires SafeInv(sid, s) && DoLaunchWrite(sid, s, t, w, id, at).Some?
    requires !s.disk.Enabled() && DoLaunchWrite(sid, s, t, w, id, at).value.disk.Enabled()
    ensures s.rpcs[t].lpc.LState? && s.rpcs[t].t.action.Start?
  {
    assert RpcSafe(sid, s, s.rpcs[t]);
  }

  lemma TermWriteDisables(sid: string, s: State, a: Act)
    requires Inv(sid, s) && (a.TermWrite? || a.WorkerWrite?) && Step(sid, s, a).Some?
    ensures !s.disk.Enabled() ==> !Step(sid, s, a).value.disk.Enabled()
  {
    hide LockInv;
    hide TermStep;
    if a.TermWrite? {
      assert RpcSafe(sid, s, s.rpcs[a.t]);
      TermStepSafe(sid, s, s.rpcs[a.t].tpc, s.rpcs[a.t].t, a.w);
    } else {
      assert WorkerSafe(sid, s, s.workers[a.v]);
      TermStepSafe(sid, s, s.workers[a.v].pc.tpc, s.workers[a.v].pc.t, a.w);
    }
  }

  /** No other action than these writes the policy, unless it disables it. */
  lemma OthersEnableNothing(sid: string, s: State, a: Act)
    requires !a.TermWrite? && !a.WorkerWrite? && !a.LaunchWrite? && Step(sid, s, a).Some? && !s.disk.Enabled()
    ensures !Step(sid, s, a).value.disk.Enabled()
  {
    hide DoTermWrite, DoWorkerWrite, DoLaunchWrite, LastFor;
  }

  /** A policy goes from disabled to enabled only in the policy write of a Start. */
  lemma OnlyStartEnables(sid: string, s: State, a: Act)
    requires Reachable(sid, s) && !s.disk.Enabled()
    ensures Step(sid, s, a).Some? && Step(sid, s, a).value.disk.Enabled()
            ==> a.LaunchWrite? && s.rpcs[a.t].lpc.LState? && s.rpcs[a.t].t.action.Start?
  {
    hide LockInv, SafeInv, TermStep, LaunchStep, Reachable;
    ReachableInv(sid, s);
    if Step(sid, s, a).Some? && Step(sid, s, a).value.disk.Enabled() {
      if !a.TermWrite? && !a.WorkerWrite? && !a.LaunchWrite? {
        OthersEnableNothing(sid, s, a);
      } else if a.TermWrite? || a.WorkerWrite? {
        TermWriteDisables(sid, s, a);
      } else if a.LaunchWrite? {
        LaunchWriteEnables(sid, s, a.t, a.w, a.id, a.at);
      }
    }
  }

  // ----- every crash point -----

  /** Whatever sub-step a crash interrupts: event ids are unique in the audit log; a policy that is
      enabled with no journal entry is its session's last audited launch; and a policy that is disabled
      and not flagged degraded has its matching record committed. */
  lemma EveryCrashPoint(sid: string, s: State)
    requires Reachable(sid, s)
    ensures UniqueIds(s.disk.audit) && LiveIsAudited(sid, s.disk) && DisabledIsAudited(sid, s.disk)
    ensures Step(sid, s, Crash).Some? && Step(sid, s, Crash).value.disk == s.disk
  {
    ReachableInv(sid, s);
  }
}
