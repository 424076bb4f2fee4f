/** What the disk and the running threads keep under every interleaving and every crash. */
module BackgroundSafety {
  import opened Prelude
  import opened BackgroundDisk
  import opened BackgroundRace
  import opened BackgroundLocks

  /** A transition whose event id is minted and whose policy is in the state its action leaves. */
  ghost predicate Good(sid: string, minted: map<string, Record>, t: Transition) {
    t.id in minted && minted[t.id] == RecordOf(sid, t) && t.policy.state == StateAfter(t.action)
  }

  ghost predicate MintInv(sid: string, s: State) {
    && (forall r <- s.disk.audit :: r.id in s.minted && s.minted[r.id] == r)
    && (s.disk.journal.Some? ==> Good(sid, s.minted, s.disk.journal.value))
  }

  predicate Quenched(d: Slice) { d.journal.Some? || !d.Enabled() }

  ghost predicate TermInv(sid: string, s: State, pc: TermPc, t: Transition) {
    && Good(sid, s.minted, t)
    && (pc.TState? || pc.TAudit? ==> Quenched(s.disk))
    && (pc in {TAudit(true), TFinal, TClear, TDegrade, TOk} ==> !s.disk.Enabled())
    && (pc in {TFinal, TClear, TDegrade, TOk} ==> RecordOf(sid, t) in s.disk.audit)
  }

  ghost predicate LaunchInv(sid: string, s: State, pc: LaunchPc, t: Transition) {
    && Good(sid, s.minted, t) && t.policy.enabled && !t.action.Terminal()
    && (t.action.Resume? ==> s.disk.Enabled())
    && (pc in {LState, LAudit, LClear} ==> s.disk.journal == Some(t))
    && (pc in {LPut, LState, LAudit} ==> !HasId(s.disk.audit, t.id))
    && (pc.LClear? ==> LastFor(s.disk.audit, sid) == Some(RecordOf(sid, t)))
  }

  ghost predicate RpcSafe(sid: string, s: State, r: Rpc) {
    && (r.Launching? ==> LaunchInv(sid, s, r.lpc, r.t))
    && (r.Terminating? ==> TermInv(sid, s, r.tpc, r.t))
    && (r.Stopped() ==> !s.disk.Enabled())
    && (s.stopped ==> !r.Launcher())
  }

  ghost predicate WorkerSafe(sid: string, s: State, worker: Worker) {
    worker.pc.Persisting? ==> TermInv(sid, s, worker.pc.tpc, worker.pc.t)
  }

  ghost predicate SafeInv(sid: string, s: State) {
    && DiskInv(sid, s.disk)
    && MintInv(sid, s)
    && (forall t <- s.rpcs :: RpcSafe(sid, s, s.rpcs[t]))
    && (forall v <- s.workers :: WorkerSafe(sid, s, s.workers[v]))
    && (s.stopped ==> !s.disk.Enabled() && !HeldByWorker(s))
  }

  /** Steps that leave the disk alone: only the threads they move need a new proof. */
  lemma Quiet(sid: string, s: State, s': State)
    requires SafeInv(sid, s) && s'.disk == s.disk
    requires forall id <- s.minted :: id in s'.minted && s'.minted[id] == s.minted[id]
    requires forall t <- s'.rpcs :: (t in s.rpcs && s'.rpcs[t] == s.rpcs[t]) || RpcSafe(sid, s', s'.rpcs[t])
    requires forall v <- s'.workers ::
               (v in s.workers && s'.workers[v].pc == s.workers[v].pc) || WorkerSafe(sid, s', s'.workers[v])
    requires s'.stopped ==> !s'.disk.Enabled() && !HeldByWorker(s')
    requires s'.stopped && !s.stopped ==> forall t <- s'.rpcs :: !s'.rpcs[t].Launcher()
    ensures SafeInv(sid, s')
  {
    forall t <- s'.rpcs ensures RpcSafe(sid, s', s'.rpcs[t]) {
      if t in s.rpcs { assert RpcSafe(sid, s, s.rpcs[t]); }
    }
    forall v <- s'.workers ensures WorkerSafe(sid, s', s'.workers[v]) {
      if v in s.workers { assert WorkerSafe(sid, s, s.workers[v]); }
    }
  }

  lemma SafeStopped(sid: string, s: State)
    requires SafeInv(sid, s)
    ensures s.stopped ==> !s.disk.Enabled() && !HeldByWorker(s)
  {}

  lemma SafeDisk(sid: string, s: State)
    requires SafeInv(sid, s)
    ensures DiskInv(sid, s.disk) && MintInv(sid, s)
  {}

  lemma SafeRpc(sid: string, s: State, t: Tid)
    requires SafeInv(sid, s)
    ensures t in s.rpcs ==> RpcSafe(sid, s, s.rpcs[t])
  {}

  lemma SafeWorker(sid: string, s: State, v: Tid)
    requires SafeInv(sid, s)
    ensures v in s.workers ==> WorkerSafe(sid, s, s.workers[v])
  {}

  /** Steps that write the disk without enabling the policy or reopening a quenched one. */
  lemma Subdued(sid: string, s: State, s': State)
    requires SafeInv(sid, s) && DiskInv(sid, s'.disk) && MintInv(sid, s')
    requires s'.minted == s.minted && s'.stopped == s.stopped && HeldByWorker(s') == HeldByWorker(s)
    requires !s.disk.Enabled() ==> !s'.disk.Enabled()
    requires Quenched(s.disk) ==> Quenched(s'.disk)
    requires forall r <- s.disk.audit :: r in s'.disk.audit
    requires forall t <- s'.rpcs ::
               (t in s.rpcs && s'.rpcs[t] == s.rpcs[t] && !s.rpcs[t].Launching?) || RpcSafe(sid, s', s'.rpcs[t])
    requires forall v <- s'.workers ::
               (v in s.workers && s'.workers[v] == s.workers[v]) || WorkerSafe(sid, s', s'.workers[v])
    ensures SafeInv(sid, s')
  {
    forall t <- s'.rpcs ensures RpcSafe(sid, s', s'.rpcs[t]) {
      if t in s.rpcs { assert RpcSafe(sid, s, s.rpcs[t]); }
    }
    forall v <- s'.workers ensures WorkerSafe(sid, s', s'.workers[v]) {
      if v in s.workers { assert WorkerSafe(sid, s, s.workers[v]); }
    }
  }

  /** A new audit record of this session: every old record stays, and a policy that was audited still is. */
  lemma AuditedStays(sid: string, d: Slice, r: Record, w: Write)
    requires DisabledIsAudited(sid, d)
    ensures DisabledIsAudited(sid, d.(audit := AuditAfter(d.audit, r, w)))
  {
    if d.policy.Some? && !d.Enabled() && !d.policy.value.degraded {
      var q :| q in d.audit && Matches(sid, d.policy.value, q);
      assert q in AuditAfter(d.audit, r, w);
    }
  }

  /** The audit append of a minted record. */
  lemma AppendSafe(sid: string, s: State, t: Transition, w: Write)
    requires DiskInv(sid, s.disk) && MintInv(sid, s) && Good(sid, s.minted, t)
    ensures var d := s.disk.(audit := AuditAfter(s.disk.audit, RecordOf(sid, t), w));
            && UniqueIds(d.audit) && DisabledIsAudited(sid, d) && MintInv(sid, s.(disk := d))
            && (AuditOk(RecordOf(sid, t), w) ==> RecordOf(sid, t) in d.audit)
            && (forall r <- s.disk.audit :: r in d.audit)
  {
    var r := RecordOf(sid, t);
    AuditAfterKeeps(s.disk.audit, r, w);
    AuditedStays(sid, s.disk, r, w);
    hide DisabledIsAudited, LiveIsAudited, ValidRecord;
    var after := AuditAfter(s.disk.audit, r, w);
    if AuditOk(r, w) {
      var i :| 0 <= i < |after| && after[i].id == r.id;
      assert after[i] in after;
    }
  }

  lemma TermAuditSafe(sid: string, s: State, stateOk: bool, t: Transition, w: Write)
    requires DiskInv(sid, s.disk) && MintInv(sid, s) && TermInv(sid, s, TAudit(stateOk), t)
    ensures var (d', pc') := TermStep(sid, s.disk, TAudit(stateOk), t, w);
            var s' := s.(disk := d');
            && DiskInv(sid, d') && MintInv(sid, s') && TermInv(sid, s', pc', t)
            && (!s.disk.Enabled() ==> !d'.Enabled()) && (Quenched(s.disk) ==> Quenched(d'))
            && (forall r <- s.disk.audit :: r in d'.audit)
  {
    AppendSafe(sid, s, t, w);
    hide UniqueIds, DisabledIsAudited, ValidRecord;
  }

  /** One sub-step of persistTerminalTransition, whatever else is going on. */
  lemma TermStepSafe(sid: string, s: State, pc: TermPc, t: Transition, w: Write)
    requires DiskInv(sid, s.disk) && MintInv(sid, s) && !pc.Over() && TermInv(sid, s, pc, t)
    ensures var (d', pc') := TermStep(sid, s.disk, pc, t, w);
            var s' := s.(disk := d');
            && DiskInv(sid, d') && MintInv(sid, s') && TermInv(sid, s', pc', t)
            && (!s.disk.Enabled() ==> !d'.Enabled()) && (Quenched(s.disk) ==> Quenched(d'))
            && (forall r <- s.disk.audit :: r in d'.audit)
  {
    hide UniqueIds, ValidRecord, AuditAfter, LastFor;
    if pc.TAudit? {
      TermAuditSafe(sid, s, pc.stateOk, t, w);
    } else if pc.TFinal? {
      assert Matches(sid, Closed(t).policy.(degraded := false), RecordOf(sid, t));
    }
  }

  /** One sub-step of persistBeforeLaunch. */
  lemma LaunchStepSafe(sid: string, s: State, pc: LaunchPc, t: Transition, w: Write)
    requires DiskInv(sid, s.disk) && MintInv(sid, s) && !pc.Over() && LaunchInv(sid, s, pc, t)
    ensures var (d', pc') := LaunchStep(sid, s.disk, pc, t, w);
            var s' := s.(disk := d');
            && DiskInv(sid, d') && MintInv(sid, s') && (!pc'.LFail? ==> LaunchInv(sid, s', pc', t))
  {
    var r := RecordOf(sid, t);
    if pc.LAudit? {
      AuditAfterKeeps(s.disk.audit, r, w);
      LastForAppend(s.disk.audit, r, sid);
      var after := AuditAfter(s.disk.audit, r, w);
      if s.disk.policy.Some? && !s.disk.Enabled() && !s.disk.policy.value.degraded {
        var q :| q in s.disk.audit && Matches(sid, s.disk.policy.value, q);
        assert q in after;
      }
    }
  }

  /** While a request launches, no other request and no worker has anything at stake on the disk. */
  lemma LaunchIsAlone(sid: string, s: State, s': State, t: Tid)
    requires LockInv(s) && SafeInv(sid, s) && IsRpc(s, t) && s.rpcs[t].Launching?
    requires t in s'.rpcs && s'.rpcs == s.rpcs[t := s'.rpcs[t]] && s'.workers == s.workers && s'.stopped == s.stopped
    ensures forall u <- s'.rpcs :: u != t ==> RpcSafe(sid, s', s'.rpcs[u])
    ensures forall v <- s'.workers :: WorkerSafe(sid, s', s'.workers[v])
    ensures !s.stopped
  {
    RpcAt(s, t);
    assert RpcSafe(sid, s, s.rpcs[t]);
    forall u <- s'.rpcs ensures u != t ==> RpcSafe(sid, s', s'.rpcs[u]) {
      RpcAt(s, u);
      assert RpcSafe(sid, s, s.rpcs[u]);
    }
    forall v <- s'.workers ensures WorkerSafe(sid, s', s'.workers[v]) {
      WorkerAt(s, v);
    }
  }

  /** The request after one sub-step before its launch. */
  lemma LaunchRpcIsSafe(sid: string, s: State, t: Tid, w: Write, id: string, at: nat)
    requires DiskInv(sid, s.disk) && MintInv(sid, s) && !s.stopped && DoLaunchWrite(sid, s, t, w, id, at).Some?
        && RpcSafe(sid, s, s.rpcs[t])
    ensures var s' := DoLaunchWrite(sid, s, t, w, id, at).value;
      DiskInv(sid, s'.disk) && MintInv(sid, s') && RpcSafe(sid, s', s'.rpcs[t]) && !s'.stopped
  {
    hide DiskInv, LaunchStep;
    LaunchStepSafe(sid, s, s.rpcs[t].lpc, s.rpcs[t].t, w);
  }

  lemma LaunchWriteIsSafe(sid: string, s: State, t: Tid, w: Write, id: string, at: nat)
    requires LockInv(s) && SafeInv(sid, s) && DoLaunchWrite(sid, s, t, w, id, at).Some?
    ensures SafeInv(sid, DoLaunchWrite(sid, s, t, w, id, at).value)
  {
    hide LockInv, SafeInv, LaunchStep, DiskInv, MintInv, RpcSafe, WorkerSafe;
    var s' := DoLaunchWrite(sid, s, t, w, id, at).value;
    LaunchIsAlone(sid, s, s', t);
    SafeDisk(sid, s);
    SafeRpc(sid, s, t);
    LaunchRpcIsSafe(sid, s, t, w, id, at);
    Assembled(sid, s');
  }

  lemma Assembled(sid: string, s: State)
    requires DiskInv(sid, s.disk) && MintInv(sid, s) && !s.stopped
    requires (forall t <- s.rpcs :: RpcSafe(sid, s, s.rpcs[t]))
        && (forall v <- s.workers :: WorkerSafe(sid, s, s.workers[v]))
    ensures SafeInv(sid, s)
  {}

  /** The owner of the reservation writes alone: nobody launches beside it. */
  lemma NobodyLaunches(s: State, t: Tid)
    requires LockInv(s)
    ensures t in s.rpcs && s.rpcs[t].Terminating? ==> forall u <- s.rpcs :: !s.rpcs[u].Launching?
    ensures t in s.rpcs && s.rpcs[t].Resuming? ==> forall u <- s.rpcs :: !s.rpcs[u].Launching?
    ensures t in s.workers && s.workers[t].pc.Persisting? ==> forall u <- s.rpcs :: !s.rpcs[u].Launching?
  {
    RpcAt(s, t);
    WorkerAt(s, t);
    forall u <- s.rpcs ensures s.rpcs[u].Launching? ==> s.owner == Some(ByRpc(u)) && s.mem.leaseInMap { RpcAt(s, u); }
    hide RpcInv, WorkerInv;
  }

  lemma TermWriteIsSafe(sid: string, s: State, t: Tid, w: Write)
    requires LockInv(s) && SafeInv(sid, s) && DoTermWrite(sid, s, t, w).Some?
    ensures SafeInv(sid, DoTermWrite(sid, s, t, w).value)
  {
    hide LockInv, SafeInv, DiskInv, TermStep;
    var s' := DoTermWrite(sid, s, t, w).value;
    SafeDisk(sid, s);
    SafeRpc(sid, s, t);
    TermStepSafe(sid, s, s.rpcs[t].tpc, s.rpcs[t].t, w);
    NobodyLaunches(s, t);
    Subdued(sid, s, s');
  }

  lemma WorkerWriteIsSafe(sid: string, s: State, v: Tid, w: Write)
    requires LockInv(s) && SafeInv(sid, s) && DoWorkerWrite(sid, s, v, w).Some?
    ensures SafeInv(sid, DoWorkerWrite(sid, s, v, w).value)
  {
    hide LockInv, SafeInv, DiskInv, TermStep;
    var s' := DoWorkerWrite(sid, s, v, w).value;
    SafeDisk(sid, s);
    SafeWorker(sid, s, v);
    TermStepSafe(sid, s, s.workers[v].pc.tpc, s.workers[v].pc.t, w);
    NobodyLaunches(s, v);
    Subdued(sid, s, s');
  }

  lemma ResumeAuditIsSafe(sid: string, s: State, t: Tid, w: Write)
    requires LockInv(s) && SafeInv(sid, s) && DoResumeAudit(sid, s, t, w).Some?
    ensures SafeInv(sid, DoResumeAudit(sid, s, t, w).value)
  {
    hide LockInv, SafeInv;
    var s' := DoResumeAudit(sid, s, t, w).value;
    SafeDisk(sid, s);
    ReconcileAuditKeepsLive(sid, s.disk, w);
    NobodyLaunches(s, t);
    hide DiskInv;
    SafeStopped(sid, s);
    Subdued(sid, s, s');
  }

  /** A record under a new id. */
  lemma NewRecord(sid: string, s: State, r: Record)
    requires UniqueIds(s.disk.audit) && MintInv(sid, s) && r.id !in s.minted
    ensures UniqueIds(s.disk.audit + [r])
    ensures MintInv(sid, s.(disk := s.disk.(audit := s.disk.audit + [r]), minted := s.minted[r.id := r]))
  {
    var after := s.disk.audit + [r];
    forall i | 0 <= i < |s.disk.audit| ensures after[i].id != r.id { assert after[i] in s.disk.audit; }
  }

  /** Another session's audit record changes nothing for this one. */
  lemma OtherAppendKeepsDisk(sid: string, s: State, r: Record)
    requires DiskInv(sid, s.disk) && MintInv(sid, s) && r.session != sid && r.id !in s.minted
    ensures var d := s.disk.(audit := s.disk.audit + [r]);
      DiskInv(sid, d) && MintInv(sid, s.(disk := d, minted := s.minted[r.id := r]))
  {
    NewRecord(sid, s, r);
    LastForAppend(s.disk.audit, r, sid);
    hide MintInv, UniqueIds, LastFor;
    if s.disk.policy.Some? && !s.disk.Enabled() && !s.disk.policy.value.degraded {
      var q :| q in s.disk.audit && Matches(sid, s.disk.policy.value, q);
      assert q in s.disk.audit + [r];
    }
  }

  lemma OtherAppendKeepsRpc(sid: string, s: State, r: Record, rpc: Rpc)
    requires r.session != sid && r.id !in s.minted && RpcSafe(sid, s, rpc)
    ensures RpcSafe(sid, s.(disk := s.disk.(audit := s.disk.audit + [r]), minted := s.minted[r.id := r]), rpc)
  {
    LastForAppend(s.disk.audit, r, sid);
  }

  lemma OtherAppendKeepsWorker(sid: string, s: State, r: Record, worker: Worker)
    requires r.session != sid && r.id !in s.minted && WorkerSafe(sid, s, worker)
    ensures WorkerSafe(sid, s.(disk := s.disk.(audit := s.disk.audit + [r]), minted := s.minted[r.id := r]), worker)
  {}

  lemma OtherAppendIsSafe(sid: string, s: State, r: Record)
    requires LockInv(s) && SafeInv(sid, s) && DoOtherAppend(sid, s, r).Some?
    ensures SafeInv(sid, DoOtherAppend(sid, s, r).value)
  {
    hide LockInv, DiskInv, MintInv, RpcSafe, WorkerSafe;
    var s' := DoOtherAppend(sid, s, r).value;
    OtherAppendKeepsDisk(sid, s, r);
    forall t <- s'.rpcs ensures RpcSafe(sid, s', s'.rpcs[t]) {
      OtherAppendKeepsRpc(sid, s, r, s.rpcs[t]);
    }
    forall v <- s'.workers ensures WorkerSafe(sid, s', s'.workers[v]) {
      OtherAppendKeepsWorker(sid, s, r, s.workers[v]);
    }
  }

  lemma StartBlockIsSafe(sid: string, s: State, t: Tid, outcome: Outcome, id: string, at: nat)
    requires LockInv(s) && SafeInv(sid, s) && DoStartBlock(sid, s, t, outcome, id, at).Some?
    ensures SafeInv(sid, DoStartBlock(sid, s, t, outcome, id, at).value)
  {
    hide LockInv, SafeInv;
    SafeStopped(sid, s);
    Quiet(sid, s, DoStartBlock(sid, s, t, outcome, id, at).value);
  }

  lemma StartPersistIsSafe(sid: string, s: State, t: Tid, id: string)
    requires LockInv(s) && SafeInv(sid, s) && DoStartPersist(sid, s, t, id).Some?
    ensures SafeInv(sid, DoStartPersist(sid, s, t, id).value)
  {
    hide LockInv, SafeInv;
    SafeStopped(sid, s);
    SafeDisk(sid, s);
    SafeRpc(sid, s, t);
    Quiet(sid, s, DoStartPersist(sid, s, t, id).value);
  }

  lemma AdmitCancelIsSafe(sid: string, s: State, t: Tid, id: string, at: nat)
    requires LockInv(s) && SafeInv(sid, s) && DoAdmitCancel(sid, s, t, id, at).Some?
    ensures SafeInv(sid, DoAdmitCancel(sid, s, t, id, at).value)
  {
    hide LockInv, SafeInv;
    SafeStopped(sid, s);
    Quiet(sid, s, DoAdmitCancel(sid, s, t, id, at).value);
  }

  lemma AdmitLaunchIsSafe(sid: string, s: State, t: Tid, v: Tid)
    requires LockInv(s) && SafeInv(sid, s) && DoAdmitLaunch(sid, s, t, v).Some?
    ensures SafeInv(sid, DoAdmitLaunch(sid, s, t, v).value)
  {
    RpcAt(s, t);
    Quiet(sid, s, DoAdmitLaunch(sid, s, t, v).value);
  }

  lemma StopReserveIsSafe(sid: string, s: State, t: Tid)
    requires LockInv(s) && SafeInv(sid, s) && DoStopReserve(sid, s, t).Some?
    ensures SafeInv(sid, DoStopReserve(sid, s, t).value)
  {
    hide LockInv, SafeInv;
    SafeStopped(sid, s);
    Quiet(sid, s, DoStopReserve(sid, s, t).value);
  }

  lemma StopReadIsSafe(sid: string, s: State, t: Tid, id: string, at: nat)
    requires LockInv(s) && SafeInv(sid, s) && DoStopRead(sid, s, t, id, at).Some?
    ensures SafeInv(sid, DoStopRead(sid, s, t, id, at).value)
  {
    hide LockInv, SafeInv;
    SafeStopped(sid, s);
    Quiet(sid, s, DoStopRead(sid, s, t, id, at).value);
  }

  lemma StopHandoffIsSafe(sid: string, s: State, t: Tid)
    requires LockInv(s) && SafeInv(sid, s) && DoStopHandoff(sid, s, t).Some?
    ensures SafeInv(sid, DoStopHandoff(sid, s, t).value)
  {
    hide LockInv, SafeInv;
    RpcAt(s, t);
    SafeRpc(sid, s, t);
    SafeStopped(sid, s);
    Quiet(sid, s, DoStopHandoff(sid, s, t).value);
  }

  lemma StopCollectIsSafe(sid: string, s: State, t: Tid, outcome: Outcome, id: string, at: nat)
    requires LockInv(s) && SafeInv(sid, s) && DoStopCollect(sid, s, t, outcome, id, at).Some?
    ensures SafeInv(sid, DoStopCollect(sid, s, t, outcome, id, at).value)
  {
    hide LockInv, SafeInv;
    SafeStopped(sid, s);
    SafeRpc(sid, s, t);
    Quiet(sid, s, DoStopCollect(sid, s, t, outcome, id, at).value);
  }

  /** While a Stop holds the reservation nobody launches. */
  lemma StopIsAlone(s: State, t: Tid)
    requires LockInv(s) && t in s.rpcs && s.rpcs[t].Stopper()
    ensures forall u <- s.rpcs :: !s.rpcs[u].Launcher()
  {
    RpcAt(s, t);
    forall u <- s.rpcs ensures !s.rpcs[u].Launcher() { RpcAt(s, u); }
  }

  lemma StopReleaseIsSafe(sid: string, s: State, t: Tid)
    requires LockInv(s) && SafeInv(sid, s) && DoStopRelease(sid, s, t).Some?
    ensures SafeInv(sid, DoStopRelease(sid, s, t).value)
  {
    StopIsAlone(s, t);
    hide LockInv, SafeInv;
    RpcAt(s, t);
    SafeRpc(sid, s, t);
    SafeStopped(sid, s);
    Quiet(sid, s, DoStopRelease(sid, s, t).value);
  }

  lemma ResumeJournalIsSafe(sid: string, s: State, t: Tid)
    requires LockInv(s) && SafeInv(sid, s) && DoResumeJournal(sid, s, t).Some?
    ensures SafeInv(sid, DoResumeJournal(sid, s, t).value)
  {
    hide LockInv, SafeInv;
    SafeStopped(sid, s);
    SafeDisk(sid, s);
    SafeRpc(sid, s, t);
    Quiet(sid, s, DoResumeJournal(sid, s, t).value);
  }

  lemma ResumeLaunchIsSafe(sid: string, s: State, t: Tid, id: string, at: nat)
    requires LockInv(s) && SafeInv(sid, s) && DoResumeLaunch(sid, s, t, id, at).Some?
    ensures SafeInv(sid, DoResumeLaunch(sid, s, t, id, at).value)
  {
    hide LockInv, SafeInv;
    SafeStopped(sid, s);
    SafeDisk(sid, s);
    SafeRpc(sid, s, t);
    Quiet(sid, s, DoResumeLaunch(sid, s, t, id, at).value);
  }

  lemma ResumeTerminateIsSafe(sid: string, s: State, t: Tid, action: Action, outcome: Outcome, id: string, at: nat)
    requires LockInv(s) && SafeInv(sid, s) && DoResumeTerminate(sid, s, t, action, outcome, id, at).Some?
    ensures SafeInv(sid, DoResumeTerminate(sid, s, t, action, outcome, id, at).value)
  {
    hide LockInv, SafeInv;
    SafeStopped(sid, s);
    Quiet(sid, s, DoResumeTerminate(sid, s, t, action, outcome, id, at).value);
  }

  lemma WorkerDecideIsSafe(sid: string, s: State, v: Tid, skip: bool, action: Action, outcome: Outcome, id: string,
                           at: nat)
    requires LockInv(s) && SafeInv(sid, s) && DoWorkerDecide(sid, s, v, skip, action, outcome, id, at).Some?
    ensures SafeInv(sid, DoWorkerDecide(sid, s, v, skip, action, outcome, id, at).value)
  {
    hide LockInv, SafeInv;
    SafeStopped(sid, s);
    Quiet(sid, s, DoWorkerDecide(sid, s, v, skip, action, outcome, id, at).value);
  }

  lemma WorkerLeaseIsSafe(sid: string, s: State, v: Tid)
    requires LockInv(s) && SafeInv(sid, s) && DoWorkerLease(sid, s, v).Some?
    ensures SafeInv(sid, DoWorkerLease(sid, s, v).value)
  {
    WorkerAt(s, v);
    Quiet(sid, s, DoWorkerLease(sid, s, v).value);
  }

  // ----- actions that leave the disk alone and record nothing -----

  lemma StartMoveIsSafe(sid: string, s: State, a: Act)
    requires SafeInv(sid, s) && Step(sid, s, a).Some? && (a.StartReserve? || a.StartGiveUp? || a.AdmitFail?)
    ensures SafeInv(sid, Step(sid, s, a).value)
  {
    hide SafeInv, Step;
    StepIs(sid, s, a);
    SafeStopped(sid, s);
    Quiet(sid, s, Step(sid, s, a).value);
  }

  lemma ReleaseMoveIsSafe(sid: string, s: State, a: Act)
    requires SafeInv(sid, s) && Step(sid, s, a).Some? && (a.Release? || a.Drop?)
    ensures SafeInv(sid, Step(sid, s, a).value)
  {
    hide SafeInv, Step;
    StepIs(sid, s, a);
    SafeStopped(sid, s);
    Quiet(sid, s, Step(sid, s, a).value);
  }

  lemma ResumeMoveIsSafe(sid: string, s: State, a: Act)
    requires SafeInv(sid, s) && Step(sid, s, a).Some? && (a.ResumeReserve? || a.ResumeSkip? || a.ResumeAuditUnreadable?)
    ensures SafeInv(sid, Step(sid, s, a).value)
  {
    hide SafeInv, Step;
    StepIs(sid, s, a);
    SafeStopped(sid, s);
    Quiet(sid, s, Step(sid, s, a).value);
  }

  lemma WorkerMoveIsSafe(sid: string, s: State, a: Act)
    requires SafeInv(sid, s) && Step(sid, s, a).Some? && (a.WorkerExit? || a.WorkerReceive?)
    ensures SafeInv(sid, Step(sid, s, a).value)
  {
    hide SafeInv, Step;
    StepIs(sid, s, a);
    SafeStopped(sid, s);
    Quiet(sid, s, Step(sid, s, a).value);
  }

  lemma ProcessMoveIsSafe(sid: string, s: State, a: Act)
    requires SafeInv(sid, s) && Step(sid, s, a).Some? && (a.WorkerCleanup? || a.Shutdown? || a.Crash?)
    ensures SafeInv(sid, Step(sid, s, a).value)
  {
    hide SafeInv, Step;
    StepIs(sid, s, a);
    SafeStopped(sid, s);
    Quiet(sid, s, Step(sid, s, a).value);
  }

  lemma StepIsSafe(sid: string, s: State, a: Act)
    requires LockInv(s) && SafeInv(sid, s) && Step(sid, s, a).Some?
    ensures SafeInv(sid, Step(sid, s, a).value)
  {
    hide *;
    StepIs(sid, s, a);
    match a
    case StartReserve(_, _) => StartMoveIsSafe(sid, s, a);
    case StartGiveUp(_) => StartMoveIsSafe(sid, s, a);
    case StartBlock(t, outcome, id, at) => StartBlockIsSafe(sid, s, t, outcome, id, at);
    case StartPersist(t, id) => StartPersistIsSafe(sid, s, t, id);
    case LaunchWrite(t, w, id, at) => LaunchWriteIsSafe(sid, s, t, w, id, at);
    case AdmitCancel(t, id, at) => AdmitCancelIsSafe(sid, s, t, id, at);
    case AdmitFail(_) => StartMoveIsSafe(sid, s, a);
    case AdmitLaunch(t, v) => AdmitLaunchIsSafe(sid, s, t, v);
    case TermWrite(t, w) => TermWriteIsSafe(sid, s, t, w);
    case Release(_) => ReleaseMoveIsSafe(sid, s, a);
    case Drop(_) => ReleaseMoveIsSafe(sid, s, a);
    case StopReserve(t) => StopReserveIsSafe(sid, s, t);
    case StopRead(t, id, at) => StopReadIsSafe(sid, s, t, id, at);
    case StopHandoff(t) => StopHandoffIsSafe(sid, s, t);
    case StopCollect(t, outcome, id, at) => StopCollectIsSafe(sid, s, t, outcome, id, at);
    case StopRelease(t) => StopReleaseIsSafe(sid, s, t);
    case ResumeReserve(_) => ResumeMoveIsSafe(sid, s, a);
    case ResumeAudit(t, w) => ResumeAuditIsSafe(sid, s, t, w);
    case ResumeAuditUnreadable(_, _, _) => ResumeMoveIsSafe(sid, s, a);
    case ResumeJournal(t) => ResumeJournalIsSafe(sid, s, t);
    case ResumeLaunch(t, id, at) => ResumeLaunchIsSafe(sid, s, t, id, at);
    case ResumeTerminate(t, action, outcome, id, at) => ResumeTerminateIsSafe(sid, s, t, action, outcome, id, at);
    case ResumeSkip(_) => ResumeMoveIsSafe(sid, s, a);
    case WorkerExit(_, _) => WorkerMoveIsSafe(sid, s, a);
    case WorkerReceive(_) => WorkerMoveIsSafe(sid, s, a);
    case WorkerDecide(v, skip, action, outcome, id, at) => WorkerDecideIsSafe(sid, s, v, skip, action, outcome, id, at);
    case WorkerWrite(v, w) => WorkerWriteIsSafe(sid, s, v, w);
    case WorkerLease(v) => WorkerLeaseIsSafe(sid, s, v);
    case WorkerCleanup(_) => ProcessMoveIsSafe(sid, s, a);
    case Shutdown => ProcessMoveIsSafe(sid, s, a);
    case Crash => ProcessMoveIsSafe(sid, s, a);
    case OtherAppend(r) => OtherAppendIsSafe(sid, s, r);
  }
}
