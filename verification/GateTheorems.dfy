/** The promises of the provider save locks, over all runs of the lock machine. */
module GateTheorems {
  import opened Prelude
  import opened ProviderGates

  lemma PastCheckHoldsMu(pc: Pc)
    ensures PastCheck(pc) ==> HoldsMu(pc)
  {}

  lemma StepKeepsInv(s: State, t: nat, choice: bool, child: nat)
    requires Inv(s) && t in s.threads && child !in s.threads && Step(s, t, choice, child).Some?
    ensures Inv(Step(s, t, choice, child).value)
  {
    hide MuInv, RowsInv, OwnerInv, SharedInv, CountInv, FlightInv, AwaitInv, PlanOf, DoEffect;
    hide MuMatch, RowsMatch, GateMatch, RefMatch, FlightMatch;
    var x := s.threads[t];
    var r, over := x.alias in s.flights, Over(s, x.pc);
    var p := PlanOf(x.pc, choice, r, over, child);
    PlansMatchMu(x.pc, choice, r, over, child);
    PlansMatchRows(x.pc, choice, r, over, child);
    PlansMatchGates(x.pc, choice, r, over, child);
    PlansMatchRefs(x.pc, choice, r, over, child);
    PlansMatchFlights(x.pc, choice, r, over, child);
    PlansMatchAwaits(x.pc, choice, r, over, child);
    MuKept(s, t, p.effect, p.pc, child);
    RowsKept(s, t, p.effect, p.pc, child);
    OwnerKept(s, t, p.effect, p.pc, child);
    SharedKept(s, t, p.effect, p.pc, child);
    CountKept(s, t, p.effect, p.pc, child);
    if PastCheck(x.pc) { OnePastCheck(s, t); }
    FlightKept(s, t, p.effect, p.pc, child);
    AwaitKept(s, t, p.effect, p.pc, child);
  }

  lemma OnePastCheck(s: State, t: nat)
    requires MuInv(s) && t in s.threads && PastCheck(s.threads[t].pc)
    ensures forall u | u in s.threads && PastCheck(s.threads[u].pc) :: u == t
  {
    forall u | u in s.threads && PastCheck(s.threads[u].pc) ensures s.mu == Some(u) {
      PastCheckHoldsMu(s.threads[u].pc);
    }
  }

  predicate Idle(pc: Pc) {
    !HoldsMu(pc) && !HoldsRows(pc) && !HoldsGate(pc) && !HasRef(pc) && !Flying(pc) && !PastCheck(pc) && !pc.AwaitFlight?
  }

  lemma SpawnKeepsInv(s: State, child: nat, pc: Pc, alias: string)
    requires Inv(s) && child !in s.threads && StartPc(pc)
    ensures Inv(s.(threads := s.threads[child := Thread(pc, alias, 0)]))
  {
    assert Idle(pc);
    hide StartPc, MuInv, RowsInv, OwnerInv, SharedInv, FlightInv, AwaitInv, CountInv;
    SpawnKeepsLocks(s, child, Thread(pc, alias, 0));
    SpawnKeepsGates(s, child, Thread(pc, alias, 0));
    SpawnKeepsFlights(s, child, Thread(pc, alias, 0));
    SpawnKeepsCounts(s, child, Thread(pc, alias, 0));
  }

  lemma SpawnKeepsLocks(s: State, child: nat, x: Thread)
    requires MuInv(s) && RowsInv(s) && child !in s.threads && Idle(x.pc)
    ensures MuInv(s.(threads := s.threads[child := x])) && RowsInv(s.(threads := s.threads[child := x]))
  {
    hide HoldsMu, HoldsRows, HoldsGate, HasRef, Flying, PastCheck;
  }

  lemma SpawnKeepsGates(s: State, child: nat, x: Thread)
    requires OwnerInv(s) && SharedInv(s) && child !in s.threads && Idle(x.pc)
    ensures OwnerInv(s.(threads := s.threads[child := x])) && SharedInv(s.(threads := s.threads[child := x]))
  {
    hide HoldsMu, HoldsRows, HoldsGate, HasRef, Flying, PastCheck;
  }

  lemma SpawnKeepsFlights(s: State, child: nat, x: Thread)
    requires FlightInv(s) && AwaitInv(s) && child !in s.threads && Idle(x.pc)
    ensures FlightInv(s.(threads := s.threads[child := x])) && AwaitInv(s.(threads := s.threads[child := x]))
  {
    hide HoldsMu, HoldsRows, HoldsGate, HasRef, Flying, PastCheck, MayBeAwaited;
  }

  lemma SpawnKeepsCounts(s: State, child: nat, x: Thread)
    requires CountInv(s) && child !in s.threads && Idle(x.pc)
    ensures CountInv(s.(threads := s.threads[child := x]))
  {
    hide HasRef;
    var s' := s.(threads := s.threads[child := x]);
    forall a | a in s'.aliases ensures Counted(s', s'.aliases[a]) {
      assert Referrers(s', s.aliases[a]) == Referrers(s, s.aliases[a]) && Counted(s, s.aliases[a]);
    }
  }

  lemma {:induction false} RunKeepsInv(s: State, acts: seq<Act>)
    requires Inv(s) && Run(s, acts).Some?
    ensures Inv(Run(s, acts).value)
    decreases acts
  {
    hide Inv, Step, StartPc;
    if acts != [] {
      match acts[0] {
        case Spawn(child, pc, alias) => SpawnKeepsInv(s, child, pc, alias);
        case Move(t, choice, child) => StepKeepsInv(s, t, choice, child);
      }
      RunKeepsInv(Do(s, acts[0]).value, acts[1..]);
    }
  }

  ghost predicate Reachable(s: State) { exists acts :: Run(INITIAL, acts) == Some(s) }

  lemma ReachableInv(s: State)
    requires Reachable(s)
    ensures Inv(s)
  {
    var acts :| Run(INITIAL, acts) == Some(s);
    RunKeepsInv(INITIAL, acts);
  }

  /** Threads that refer to a gate for the same alias refer to the same gate, no two of them hold it, and the
      table has a gate for exactly the aliases that somebody refers to. */
  lemma OneGatePerAlias(s: State)
    requires Reachable(s)
    ensures forall t, u | t in s.threads && u in s.threads && HasRef(s.threads[t].pc) && HasRef(s.threads[u].pc)
      && s.threads[t].alias == s.threads[u].alias :: s.threads[t].gate == s.threads[u].gate
    ensures forall t, u | t in s.threads && u in s.threads && HoldsGate(s.threads[t].pc) && HoldsGate(s.threads[u].pc)
      && s.threads[t].alias == s.threads[u].alias :: t == u
    ensures forall a :: a in s.aliases <==> exists t ::
        t in s.threads && HasRef(s.threads[t].pc) && s.threads[t].alias == a
  {
    ReachableInv(s);
    assert forall pc: Pc | HoldsGate(pc) :: HasRef(pc);
    hide HasRef, HoldsGate;
    forall a | a in s.aliases ensures exists t :: t in s.threads && HasRef(s.threads[t].pc) && s.threads[t].alias == a {
      assert Counted(s, s.aliases[a]);
      var t :| t in Referrers(s, s.aliases[a]);
      assert HasRef(s.threads[t].pc) && s.aliases[s.threads[t].alias] == s.aliases[a];
    }
  }

  /** The thread still has to lock the manager mutex before it can unlock its gate. */
  predicate NeedsMu(pc: Pc) { pc.Working? || pc.FlightWantsRows? || pc.FlightInRows? || pc.WantMuToEnd? }

  /** A Commit that holds the manager mutex never waits on a gate whose holder still needs that mutex. */
  lemma WaitingCommitIsNotNeeded(s: State, t: nat)
    requires Reachable(s) && t in s.threads && s.threads[t].pc.WaitGateInMu? && s.threads[t].gate in s.owner
    ensures var o := s.owner[s.threads[t].gate];
        o in s.threads && !NeedsMu(s.threads[o].pc) && !HoldsMu(s.threads[o].pc)
  {
    ReachableInv(s);
    WaitingCommit(s, t);
  }

  lemma WaitingCommit(s: State, t: nat)
    requires Inv(s) && t in s.threads && s.threads[t].pc.WaitGateInMu? && s.threads[t].gate in s.owner
    ensures var o := s.owner[s.threads[t].gate];
      o in s.threads && (s.threads[o].pc.Unregistered? || s.threads[o].pc.RemoveWantsRows?
      || s.threads[o].pc.RemoveInRows? || s.threads[o].pc.RemoveDone?)
  {
    var x := s.threads[t];
    var o := s.owner[x.gate];
    assert HasRef(x.pc) && PastCheck(x.pc) && HoldsMu(x.pc) && s.mu == Some(t);
    assert HoldsGate(s.threads[o].pc) && s.threads[o].gate == x.gate && HasRef(s.threads[o].pc);
    assert s.aliases[x.alias] == s.aliases[s.threads[o].alias];
    assert s.threads[o].alias == x.alias && x.alias !in s.flights && !Flying(s.threads[o].pc);
    assert HoldsMu(s.threads[o].pc) ==> o == t;
  }

  predicate CanMove(s: State, t: nat, child: nat)
    requires child !in s.threads
  {
    t in s.threads && Step(s, t, false, child).Some?
  }

  /** A thread that is neither finished nor waiting for a lock or a flight can move. */
  predicate Free(pc: Pc) {
    !pc.Finished? && !pc.AwaitFlight? && !pc.WantMu? && !pc.WantMuToEnd? && !pc.QueryWantsMu? && !pc.FlightWantsRows?
    && !pc.RemoveWantsRows? && !pc.RowsWanted? && !pc.WaitGateInMu? && !pc.WaitGate?
  }

  lemma FreeMoves(s: State, t: nat, child: nat)
    requires t in s.threads && child !in s.threads && Free(s.threads[t].pc)
    ensures CanMove(s, t, child)
  {
    hide DoEffect;
  }

  lemma WaiterMoves(s: State, t: nat, child: nat)
    requires t in s.threads && child !in s.threads
    requires var pc := s.threads[t].pc;
      || ((pc.WantMu? || pc.WantMuToEnd? || pc.QueryWantsMu?) && s.mu.None?)
      || ((pc.FlightWantsRows? || pc.RemoveWantsRows? || pc.RowsWanted?) && s.rows.None?)
      || ((pc.WaitGateInMu? || pc.WaitGate?) && s.threads[t].gate !in s.owner)
    ensures CanMove(s, t, child)
  {
    hide DoEffect;
  }

  /** Who can move when thread t is stuck on the rows mutex, or holds it. */
  lemma RowsMove(s: State, t: nat, child: nat) returns (m: nat)
    requires Inv(s) && t in s.threads && child !in s.threads
    requires var pc := s.threads[t].pc; pc.FlightWantsRows? || pc.RemoveWantsRows? || pc.RowsWanted? || HoldsRows(pc)
    ensures CanMove(s, m, child)
  {
    hide CanMove, MuInv, OwnerInv, SharedInv, CountInv, FlightInv, AwaitInv;
    if s.rows.None? {
      m := t;
      WaiterMoves(s, t, child);
    } else {
      m := s.rows.value;
      assert HoldsRows(s.threads[m].pc);
      FreeMoves(s, m, child);
    }
  }

  lemma MuMove(s: State, t: nat, child: nat) returns (m: nat)
    requires Inv(s) && t in s.threads && child !in s.threads
    requires var pc := s.threads[t].pc; pc.WantMu? || pc.WantMuToEnd? || pc.QueryWantsMu? || HoldsMu(pc)
    ensures CanMove(s, m, child)
  {
    hide CanMove, RowsInv, OwnerInv, SharedInv, CountInv, FlightInv, AwaitInv;
    if s.mu.None? {
      m := t;
      WaiterMoves(s, t, child);
    } else {
      m := s.mu.value;
      assert HoldsMu(s.threads[m].pc);
      if !s.threads[m].pc.WaitGateInMu? {
        FreeMoves(s, m, child);
      } else if s.threads[m].gate !in s.owner {
        WaiterMoves(s, m, child);
      } else {
        WaitingCommit(s, m);
        m := s.owner[s.threads[m].gate];
        if s.threads[m].pc.RemoveWantsRows? || s.threads[m].pc.RemoveInRows? {
          m := RowsMove(s, m, child);
        } else {
          FreeMoves(s, m, child);
        }
      }
    }
  }

  /** Any thread but one waiting for a gate or a flight leads to one that can move. */
  lemma LockMove(s: State, t: nat, child: nat) returns (m: nat)
    requires Inv(s) && t in s.threads && child !in s.threads
    requires var pc := s.threads[t].pc; !pc.Finished? && !pc.AwaitFlight? && !pc.WaitGate?
    ensures CanMove(s, m, child)
  {
    hide CanMove, Inv;
    var pc := s.threads[t].pc;
    if Free(pc) {
      m := t;
      FreeMoves(s, t, child);
    } else if pc.WantMu? || pc.WantMuToEnd? || pc.QueryWantsMu? || pc.WaitGateInMu? {
      m := MuMove(s, t, child);
    } else {
      m := RowsMove(s, t, child);
    }
  }

  /** Deadlock freedom: while any thread is unfinished, some thread can move. */
  lemma SomeThreadMoves(s: State, t: nat, child: nat) returns (m: nat)
    requires Reachable(s) && t in s.threads && !s.threads[t].pc.Finished? && child !in s.threads
    ensures CanMove(s, m, child)
  {
    hide CanMove, MuInv, RowsInv, SharedInv, CountInv, FlightInv;
    ReachableInv(s);
    var pc := s.threads[t].pc;
    if pc.AwaitFlight? {
      var f := pc.flight;
      if Over(s, pc) {
        AwaitMoves(s, t, child);
        m := t;
      } else {
        assert Flying(s.threads[f].pc);
        m := LockMove(s, f, child);
      }
    } else if pc.WaitGate? {
      var g := s.threads[t].gate;
      if g !in s.owner {
        WaiterMoves(s, t, child);
        m := t;
      } else {
        assert HoldsGate(s.threads[s.owner[g]].pc);
        m := LockMove(s, s.owner[g], child);
      }
    } else {
      m := LockMove(s, t, child);
    }
  }

  lemma AwaitMoves(s: State, t: nat, child: nat)
    requires t in s.threads && child !in s.threads && Over(s, s.threads[t].pc)
    ensures CanMove(s, t, child)
  {
    hide DoEffect;
  }
}
