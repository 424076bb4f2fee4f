/** A run in which a Stop has persisted while the worker it waits for is persisting too: an earlier Stop
    of the session had failed and had handed the exiting worker its persistence. */
module BackgroundOverlap {
  import opened Prelude
  import opened BackgroundDisk
  import opened BackgroundRace
  import opened BackgroundTheorems

  lemma Extend(sid: string, s: State, a: Act)
    requires Reachable(sid, s) && Step(sid, s, a).Some?
    ensures Reachable(sid, Step(sid, s, a).value)
  {
    hide Step, Initial;
    var s0, acts :| Initial(sid, s0) && Run(sid, s0, acts) == Some(s);
    var s' := Step(sid, s, a).value;
    RunAppend(sid, s0, acts, [a]);
    assert [a][1..] == [] && Run(sid, s', []) == Some(s');
    assert Run(sid, s0, acts + [a]) == Some(s');
  }

  /** No reservation, and worker v at the given point of its life. */
  predicate Idle(s: State, v: Tid) {
    && !s.mem.closed && !s.mem.transition && s.mem.stopping.None? && s.mem.active == Some(v) && v in s.workers
    && s.disk.policy.Some?
  }

  predicate Auditable(sid: string, p: Policy, id: string) {
    !Blank(id) && !Blank(sid) && !Blank(p.profile) && !Blank(p.hash)
  }

  /** A Stop up to its first write. */
  lemma BeginStop(sid: string, s: State, v: Tid, t: Tid, id: string) returns (s': State)
    requires Reachable(sid, s) && Idle(s, v) && FreshTid(s, t) && id !in s.minted
    ensures Reachable(sid, s') && s'.minted.Keys == s.minted.Keys + {id}
    ensures var tr := Transition(Ending(s.disk.policy.value, Stop, BackgroundDisk.Stopped, 1), Stop, id);
            s' == s.(rpcs := s.rpcs[t := Terminating(TPut, tr, ThenStop(Some(v), !s.workers[v].pc.Watching?))],
                     mem := s.mem.(transition := true, stopping := Some(t)), owner := s'.owner, minted := s'.minted)
  {
    hide Reachable, AuditAfter;
    Extend(sid, s, StopReserve(t));
    var s1 := DoStopReserve(sid, s, t).value;
    Extend(sid, s1, StopRead(t, id, 1));
    s' := DoStopRead(sid, s1, t, id, 1).value;
    assert s'.rpcs == s.rpcs[t := s'.rpcs[t]];
  }

  /** A Stop whose first write fails while the worker begins to exit. */
  lemma FailingStop(sid: string, s: State, v: Tid, t: Tid, id: string) returns (s': State)
    requires Reachable(sid, s) && Idle(s, v) && s.workers[v].pc.Watching? && FreshTid(s, t) && id !in s.minted
    ensures Reachable(sid, s') && Idle(s', v) && s'.disk == s.disk
    ensures s'.workers == s.workers[v := s'.workers[v]] && s'.rpcs.Keys == s.rpcs.Keys + {t}
        && s'.handoff == s.handoff[t := true]
    ensures s'.workers[v].pc.Awaiting? && s'.workers[v].stopOwner == Some(t)
    ensures s'.minted.Keys == s.minted.Keys + {id}
  {
    hide Reachable, AuditAfter;
    s' := BeginStop(sid, s, v, t, id);
    Extend(sid, s', TermWrite(t, NotApplied));
    s' := DoTermWrite(sid, s', t, NotApplied).value;
    s' := ExitAndRelease(sid, s', v, t);
  }

  lemma ExitAndRelease(sid: string, s: State, v: Tid, t: Tid) returns (s': State)
    requires Reachable(sid, s) && v in s.workers && s.workers[v].pc.Watching? && s.mem.active == Some(v)
        && !s.mem.closed
    requires t in s.rpcs && s.rpcs[t].Terminating? && s.rpcs[t].tpc.TFail? && s.rpcs[t].next == ThenStop(Some(v), false)
    requires s.mem.stopping == Some(t) && s.mem.transition && s.disk.policy.Some?
    ensures Reachable(sid, s') && Idle(s', v) && s'.disk == s.disk && s'.minted == s.minted
    ensures s'.workers == s.workers[v := s'.workers[v]] && s'.rpcs.Keys == s.rpcs.Keys
        && s'.handoff == s.handoff[t := true]
    ensures s'.workers[v].pc.Awaiting? && s'.workers[v].stopOwner == Some(t)
  {
    hide Reachable, AuditAfter;
    s' := s;
    Extend(sid, s', WorkerExit(v, false));
    s' := DoWorkerExit(sid, s', v, false).value;
    Extend(sid, s', StopHandoff(t));
    s' := DoStopHandoff(sid, s', t).value;
    Extend(sid, s', StopRelease(t));
    s' := DoStopRelease(sid, s', t).value;
  }

  /** A second Stop, whose writes are all confirmed. */
  lemma PersistingStop(sid: string, s: State, v: Tid, t: Tid, id: string) returns (s': State)
    requires Reachable(sid, s) && Idle(s, v) && s.workers[v].pc.Awaiting? && FreshTid(s, t) && id !in s.minted
    requires Auditable(sid, s.disk.policy.value, id)
    ensures Reachable(sid, s') && t in s'.rpcs && s'.rpcs[t].StopAwait? && s'.rpcs[t].w == v
    ensures s'.workers == s.workers && s'.minted.Keys == s.minted.Keys + {id}
    ensures s'.handoff == s.handoff[t := false]
  {
    hide Reachable, AuditAfter;
    s' := BeginStop(sid, s, v, t, id);
    s' := ConfirmedWrites(sid, s', t, TPut, 5);
    Extend(sid, s', StopHandoff(t));
    s' := DoStopHandoff(sid, s', t).value;
  }

  predicate Remaining(pc: TermPc, n: nat) {
    match pc
    case TPut => n == 5
    case TState => n == 4
    case TAudit(ok) => n == 3 && ok
    case TFinal => n == 2
    case TClear => n == 1
    case TOk => n == 0
    case _ => false
  }

  /** The writes of a Stop's persistTerminal, all confirmed. */
  lemma ConfirmedWrites(sid: string, s: State, t: Tid, pc: TermPc, n: nat) returns (s': State)
    requires Reachable(sid, s) && t in s.rpcs && s.rpcs[t].Terminating? && s.rpcs[t].tpc == pc
        && s.rpcs[t].next.ThenStop?
    requires Remaining(pc, n) && ValidRecord(RecordOf(sid, s.rpcs[t].t))
    ensures Reachable(sid, s') && s' == s.(disk := s'.disk, rpcs := s.rpcs[t := s.rpcs[t].(tpc := TOk)])
    decreases n
  {
    hide Reachable, AuditAfter;
    s' := s;
    if n == 0 {
      assert s.rpcs == s.rpcs[t := s.rpcs[t].(tpc := TOk)];
    } else {
      Extend(sid, s, TermWrite(t, Confirmed));
      s' := DoTermWrite(sid, s, t, Confirmed).value;
      var rpcs := s'.rpcs;
      s' := ConfirmedWrites(sid, s', t, s'.rpcs[t].tpc, n - 1);
      assert rpcs[t := rpcs[t].(tpc := TOk)] == s.rpcs[t := s.rpcs[t].(tpc := TOk)];
    }
  }

  /** From any reachable state with a watching worker and no reservation, some run leads to a Stop past
      its persist whose worker is persisting. */
  lemma OverlapIsReachable(sid: string, s: State, v: Tid, t: Tid, u: Tid, id: string, again: string, exit: string)
    returns (s': State)
    requires Reachable(sid, s) && Idle(s, v) && s.workers[v].pc.Watching?
    requires FreshTid(s, t) && FreshTid(s, u) && t != u
    requires id !in s.minted && again !in s.minted && exit !in s.minted && id != again && again != exit && exit != id
    requires Auditable(sid, s.disk.policy.value, again)
    ensures Reachable(sid, s') && u in s'.rpcs && s'.rpcs[u].StopAwait? && s'.rpcs[u].w == v
    ensures v in s'.workers && s'.workers[v].pc.Persisting?
  {
    s' := FailingStop(sid, s, v, t, id);
    s' := PersistingStop(sid, s', v, u, again);
    s' := ReceiveAndPersist(sid, s', v, t, exit);
  }

  lemma ReceiveAndPersist(sid: string, s: State, v: Tid, t: Tid, id: string) returns (s': State)
    requires Reachable(sid, s) && v in s.workers && s.workers[v].pc.Awaiting? && s.workers[v].stopOwner == Some(t)
    requires t in s.handoff && s.handoff[t] && id !in s.minted
    ensures Reachable(sid, s') && s'.rpcs == s.rpcs && v in s'.workers && s'.workers[v].pc.Persisting?
  {
    hide Reachable, AuditAfter;
    Extend(sid, s, WorkerReceive(v));
    s' := DoWorkerReceive(sid, s, v).value;
    Extend(sid, s', WorkerDecide(v, false, Stop, Completed, id, 1));
    s' := DoWorkerDecide(sid, s', v, false, Stop, Completed, id, 1).value;
  }

  lemma EmptyIsReachable(sid: string, s: State)
    requires s == State(Slice(None, None, []), INIT_MEM, map[], map[], map[], None, None, map[], false)
    ensures Reachable(sid, s)
  {
    assert Run(sid, s, []) == Some(s);
  }

  /** And a watching worker is reachable: a Start whose writes are all confirmed. */
  lemma WatchingIsReachable(sid: string, id: string, p: Policy) returns (s: State)
    requires Auditable(sid, p, id) && p.updatedAt != 0
    ensures Reachable(sid, s) && Idle(s, 2) && s.workers[2].pc.Watching? && FreshTid(s, 3) && FreshTid(s, 4)
    ensures s.minted.Keys == {id} && s.disk.policy.value.profile == p.profile && s.disk.policy.value.hash == p.hash
  {
    hide Reachable, AuditAfter;
    s := State(Slice(None, None, []), INIT_MEM, map[], map[], map[], None, None, map[], false);
    EmptyIsReachable(sid, s);
    Extend(sid, s, StartReserve(1, p));
    s := DoStartReserve(sid, s, 1, p).value;
    Extend(sid, s, StartPersist(1, id));
    s := DoStartPersist(sid, s, 1, id).value;
    s := ConfirmedLaunch(sid, s, LPut, 4, id + "'");
    Extend(sid, s, AdmitLaunch(1, 2));
    s := DoAdmitLaunch(sid, s, 1, 2).value;
  }

  predicate LaunchRemaining(pc: LaunchPc, n: nat) {
    match pc
    case LPut => n == 4
    case LState => n == 3
    case LAudit => n == 2
    case LClear => n == 1
    case _ => false
  }

  lemma ConfirmedLaunch(sid: string, s: State, pc: LaunchPc, n: nat, spare: string) returns (s': State)
    requires Reachable(sid, s) && 1 in s.rpcs && s.rpcs[1].Launching? && s.rpcs[1].lpc == pc && LaunchRemaining(pc, n)
    requires ValidRecord(RecordOf(sid, s.rpcs[1].t)) && spare !in s.minted
    requires pc in {LAudit, LClear} ==> s.disk.policy == Some(s.rpcs[1].t.policy)
    ensures Reachable(sid, s') && s' == s.(disk := s'.disk, rpcs := s.rpcs[1 := Admitting(s.rpcs[1].t.policy)])
    ensures s'.disk.policy == Some(s.rpcs[1].t.policy)
    decreases n
  {
    hide Reachable, AuditAfter;
    Extend(sid, s, LaunchWrite(1, Confirmed, spare, 1));
    s' := DoLaunchWrite(sid, s, 1, Confirmed, spare, 1).value;
    if n > 1 {
      var rpcs := s'.rpcs;
      s' := ConfirmedLaunch(sid, s', s'.rpcs[1].lpc, n - 1, spare);
      assert rpcs[1 := Admitting(s.rpcs[1].t.policy)] == s.rpcs[1 := Admitting(s.rpcs[1].t.policy)];
    }
  }

  /** So the condition of PersistsAfterStopIff is met in both ways: there is a reachable state in which a
      Stop has persisted and its worker is still persisting. */
  lemma StopDoesNotSilenceAnExitingWorker()
    ensures exists s, t :: Reachable("s", s) && t in s.rpcs && s.rpcs[t].StopAwait?
                           && s.rpcs[t].w in s.workers && s.workers[s.rpcs[t].w].pc.Persisting?
  {
    var p := Policy("codex", "hash", POLICY_VERSION, 1, false, Disabled, BackgroundDisk.Stopped, false, 1, 1);
    assert "s"[0] == 's' && "codex"[0] == 'c' && "hash"[0] == 'h' && "a"[0] == 'a' && "b"[0] == 'b' && "c"[0] == 'c'
        && "d"[0] == 'd';
    var s := WatchingIsReachable("s", "a", p);
    var s' := OverlapIsReachable("s", s, 2, 3, 4, "b", "c", "d");
    assert Reachable("s", s') && 4 in s'.rpcs && s'.rpcs[4].StopAwait?;
  }
}
