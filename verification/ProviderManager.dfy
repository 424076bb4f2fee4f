/** The provider operation manager: its methods carry out the steps of the ProviderOps machine, and startup
    reconciles what a crash left. */
module ProviderManager {
  import opened Prelude
  import opened ProviderOps
  import opened ProviderReplies
  import opened ProviderRows

  datatype PanicPoint = NoPanic | InStore | InApply | InFinalize

  /** How the outside calls of one flight end. */
  datatype FlightIo = FlightIo(setStores: bool, setOk: bool, applyOk: bool, finalizeOk: bool, failOk: bool,
                               panic: PanicPoint, stateRead: bool)

  /** Reading a secret back at startup: an error is retried later or stops the startup. */
  datatype SecretRead = ReadOk | Unavailable | Unusable

  datatype FinalizeEnd = Finalized | SecretUnavailable | FinalizeFailed

  const PREFIX := "provider-v2-"

  predicate HasPrefix(key: string) { PREFIX <= key }

  /** The journal after a startup in which every secret that an applied operation needs was tried. */
  function Reconciled(o: Op, read: string -> SecretRead): Op {
    if o.state.Pending? then o.(state := Failed)
    else if o.state.Applied? && (o.secret == "" || read(o.secret).ReadOk?) then o.(state := Committed)
    else o
  }

  class ProviderManager {
    var rows: map<string, Row>
    var ops: map<string, Op>
    var cleanup: set<string>
    var vault: set<string>
    ghost var m: State

    ghost predicate Valid()
      reads this
    {
      m.rows == rows && m.ops == ops && m.cleanup == cleanup && m.vault == vault
    }

    /** applyProviderLocked: one transaction, or nothing. */
    method ApplyProviderLocked(id: string, makeDefault: bool, ok: bool) returns (applied: bool)
      requires Valid() && Flying(m, id, ToApply)
      modifies this
      ensures Valid() && Do(old(m), Apply(id, makeDefault, ok)) == Some(m) && applied == ok
      ensures applied ==> var o := old(ops[id]);
        && SavedAt(old(rows), rows, o.alias, o.secret, makeDefault)
        && cleanup == old(cleanup) + Displaced(old(rows), o.alias, o.secret)
        && ops == old(ops)[id := o.(state := Applied)] && vault == old(vault)
      ensures !applied ==> rows == old(rows) && cleanup == old(cleanup) && ops == old(ops) && vault == old(vault)
    {
      if ok { ApplySaves(m, id, makeDefault); }
      m := Do(m, Apply(id, makeDefault, ok)).value;
      if !ok { return false; }
      var o := ops[id];
      var oldSecret := if o.alias in rows then rows[o.alias].secret else "";
      var kept := if o.secret == "" then oldSecret else o.secret;
      if makeDefault { rows := ClearDefault(rows); }
      rows := rows[o.alias := Row(kept, makeDefault)];
      if oldSecret != "" && o.secret != "" && oldSecret != o.secret { cleanup := cleanup + {oldSecret}; }
      ops := ops[id := o.(state := Applied)];
      return true;
    }

    /** failOperation: queue the secret and record the failure, whatever state is stored. */
    method FailOperation(id: string, ok: bool)
      requires Valid() && Flying(m, id, ToFail)
      modifies this
      ensures Valid() && Do(old(m), FailFlight(id, ok)) == Some(m) && vault == old(vault)
    {
      m := Do(m, FailFlight(id, ok)).value;
      if !ok { return; }
      if ops[id].secret != "" { cleanup := cleanup + {ops[id].secret}; }
      ops := ops[id := ops[id].(state := Failed)];
    }

    /** finalizeOperationLocked at the end of a flight. */
    method FinalizeFlight(id: string, ok: bool)
      requires Valid() && Flying(m, id, ToFinalize)
      modifies this
      ensures Valid() && Do(old(m), FinishFlight(id, ok)) == Some(m)
    {
      m := Do(m, FinishFlight(id, ok)).value;
      if ok && ops[id].state.Applied? { ops := ops[id := ops[id].(state := Committed)]; }
    }

    /** The deferred recovery of runFlight: an operation that is still pending is failed. */
    method RecoverPanic(id: string, io: FlightIo) returns (ghost acts: seq<Act>)
      requires Valid() && id in m.flights && id in ops
      modifies this
      ensures Valid() && Run(old(m), acts) == Some(m) && id !in m.flights && id in ops && rows == old(rows)
      ensures old(ops[id].state.Pending?) && io.stateRead && io.failOk ==>
        ops[id].state.Failed? && cleanup == Queued(old(cleanup), old(ops[id].secret))
      ensures !(old(ops[id].state.Pending?) && io.stateRead && io.failOk) ==> ops == old(ops) && cleanup == old(cleanup)
      ensures vault == old(vault)
    {
      ghost var s := m;
      m := Do(m, Panic(id, io.stateRead)).value;
      acts := [Panic(id, io.stateRead)];
      OneMore(s, [], s, acts[0]);
      if io.stateRead && ops[id].state.Pending? {
        ghost var t := m;
        FailOperation(id, io.failOk);
        OneMore(s, acts, t, FailFlight(id, io.failOk));
        acts := acts + [FailFlight(id, io.failOk)];
      }
    }

    /** The part of runFlight that stores the secret. */
    method StoreFlightSecret(id: string, io: FlightIo) returns (stored: bool)
      requires Valid() && Flying(m, id, ToStore)
      modifies this
      ensures Valid() && Do(old(m), StoreSecret(id, io.setStores, io.setOk && io.panic != InStore)) == Some(m)
      ensures stored == (io.setOk && io.panic != InStore) && rows == old(rows) && ops == old(ops)
          && cleanup == old(cleanup)
    {
      stored := io.setOk && io.panic != InStore;
      m := Do(m, StoreSecret(id, io.setStores, stored)).value;
      if io.setStores || stored { vault := vault + {ops[id].secret}; }
    }

    /** What a flight that ended without finalizing left: it failed or is still pending with nothing changed, or it
        panicked after it applied. */
    ghost predicate EndedEarly(id: string, o: Op, queue: set<string>, io: FlightIo)
      reads this
    {
      && id !in m.flights && id in ops && !ops[id].state.Committed?
      && (ops[id].state.Failed? ==> cleanup == Queued(queue, o.secret))
      && (ops[id].state.Pending? ==> !io.failOk || (io.panic != NoPanic && !io.stateRead))
    }

    /** runFlight up to the stored secret. */
    method StoreFlight(id: string, io: FlightIo) returns (over: bool, ghost acts: seq<Act>)
      requires Valid() && id in ops && ops[id].state.Pending? && ops[id].secret != "" && Flying(m, id, ToStore)
      modifies this
      ensures Valid() && Run(old(m), acts) == Some(m) && rows == old(rows) && id in ops
      ensures over <==> !io.setOk || io.panic == InStore
      ensures !over ==> ops == old(ops) && cleanup == old(cleanup) && Flying(m, id, ToApply)
                        && vault == old(vault) + {old(ops[id].secret)}
      ensures over ==> EndedEarly(id, old(ops[id]), old(cleanup), io) && !ops[id].state.Applied?
    {
      hide Upserted, Queued, ClearDefault, SavedAt, Displaced;
      ghost var s := m;
      var stored := StoreFlightSecret(id, io);
      acts := [StoreSecret(id, io.setStores, stored)];
      OneMore(s, [], s, acts[0]);
      over := !stored;
      if io.panic == InStore {
        ghost var more := RecoverPanic(id, io);
        RunAppend(s, acts, more);
        acts := acts + more;
      } else if !stored {
        ghost var t := m;
        FailOperation(id, io.failOk);
        OneMore(s, acts, t, FailFlight(id, io.failOk));
        acts := acts + [FailFlight(id, io.failOk)];
      }
    }

    /** runFlight up to the applied operation. */
    method ApplyFlight(id: string, makeDefault: bool, io: FlightIo) returns (over: bool, ghost acts: seq<Act>)
      requires Valid() && id in ops && ops[id].state.Pending? && Flying(m, id, ToApply)
      modifies this
      ensures Valid() && Run(old(m), acts) == Some(m) && id in ops
      ensures over <==> !io.applyOk || io.panic == InApply
      ensures !over ==> ops[id].state.Applied? && Flying(m, id, ToFinalize) && vault == old(vault)
                        && SavedAt(old(rows), rows, old(ops[id].alias), old(ops[id].secret), makeDefault)
                        && cleanup == old(cleanup) + Displaced(old(rows), old(ops[id].alias), old(ops[id].secret))
      ensures over ==> EndedEarly(id, old(ops[id]), old(cleanup), io) && !ops[id].state.Applied? && rows == old(rows)
    {
      hide Upserted, Queued, ClearDefault, SavedAt, Displaced;
      ghost var s := m;
      over := !io.applyOk || io.panic == InApply;
      if io.panic == InApply {
        acts := RecoverPanic(id, io);
        return;
      }
      var applied := ApplyProviderLocked(id, makeDefault, io.applyOk);
      acts := [Apply(id, makeDefault, io.applyOk)];
      OneMore(s, [], s, acts[0]);
      if !applied {
        ghost var t := m;
        FailOperation(id, io.failOk);
        OneMore(s, acts, t, FailFlight(id, io.failOk));
        acts := acts + [FailFlight(id, io.failOk)];
      }
    }

    /** The end of runFlight. */
    method FinishTheFlight(id: string, io: FlightIo) returns (ghost acts: seq<Act>)
      requires Valid() && id in ops && ops[id].state.Applied? && Flying(m, id, ToFinalize)
      modifies this
      ensures Valid() && Run(old(m), acts) == Some(m) && id in ops && id !in m.flights
      ensures rows == old(rows) && cleanup == old(cleanup) && vault == old(vault)
      ensures ops[id].state == if io.finalizeOk && io.panic != InFinalize then Committed else Applied
    {
      ghost var s := m;
      if io.panic == InFinalize {
        acts := RecoverPanic(id, io);
        return;
      }
      FinalizeFlight(id, io.finalizeOk);
      acts := [FinishFlight(id, io.finalizeOk)];
      OneMore(s, [], s, acts[0]);
    }

    /** runFlight for an operation that Commit has journaled. */
    method RunFlight(id: string, makeDefault: bool, io: FlightIo) returns (ghost acts: seq<Act>)
      requires Valid() && id in ops && ops[id].state.Pending?
      requires Flying(m, id, if ops[id].secret == "" then ToApply else ToStore)
      modifies this
      ensures Valid() && Run(old(m), acts) == Some(m) && id !in m.flights && id in ops
      ensures ops[id].state.Committed? <==>
        && (old(ops[id].secret) == "" || (io.setOk && io.panic != InStore)) && io.applyOk && io.finalizeOk
        && io.panic !in {InApply, InFinalize}
      ensures Done(ops[id]) ==>
        && SavedAt(old(rows), rows, old(ops[id].alias), old(ops[id].secret), makeDefault)
        && cleanup == old(cleanup) + Displaced(old(rows), old(ops[id].alias), old(ops[id].secret))
        && (old(ops[id].secret) != "" ==> old(ops[id].secret) in vault)
      ensures !Done(ops[id]) ==> rows == old(rows)
      ensures ops[id].state.Failed? ==> cleanup == Queued(old(cleanup), old(ops[id].secret))
      ensures ops[id].state.Pending? ==> !io.failOk || (io.panic != NoPanic && !io.stateRead)
    {
      hide Upserted, Queued, ClearDefault, Run, Do, SavedAt, Displaced;
      ghost var s := m;
      var over := false;
      acts := [];
      RunNothing(s);
      if ops[id].secret != "" { over, acts := StoreFlight(id, io); }
      if over { return; }
      ghost var more;
      over, more := ApplyFlight(id, makeDefault, io);
      RunAppend(s, acts, more);
      acts := acts + more;
      if over { return; }
      more := FinishTheFlight(id, io);
      RunAppend(s, acts, more);
      acts := acts + more;
    }

    /** The reference count of the cleanup query. */
    method CountReferences(secret: string) returns (n: nat)
      requires Valid()
      ensures n > 0 <==> Referenced(m, secret)
    {
      n := 0;
      var aliases := rows.Keys;
      while aliases != {}
        invariant aliases <= rows.Keys
            && (n > 0 <==> exists a :: a in rows && a !in aliases && rows[a].secret == secret)
        decreases |aliases|
      {
        var a :| a in aliases;
        aliases := aliases - {a};
        if rows[a].secret == secret { n := n + 1; }
      }
      assert n > 0 <==> RowHolds(m, secret);
      var ids := ops.Keys;
      while ids != {}
        invariant ids <= ops.Keys
        invariant n > 0 <==> RowHolds(m, secret) || exists i ::
            i in ops && i !in ids && ops[i].secret == secret && Active(ops[i])
        decreases |ids|
      {
        var i :| i in ids;
        ids := ids - {i};
        if ops[i].secret == secret && Active(ops[i]) { n := n + 1; }
      }
    }

    /** finalizeOperation at startup: read the secret back, then commit. */
    method FinalizeOperation(id: string, read: string -> SecretRead, ok: bool) returns (e: FinalizeEnd)
      requires Valid() && id in ops && ops[id].state.Applied?
      modifies this
      ensures Valid() && rows == old(rows) && cleanup == old(cleanup) && vault == old(vault)
      ensures e.Finalized? ==> Do(old(m), Finalize(id)) == Some(m) && ops[id].state.Committed?
      ensures e.Finalized? ==> ops == old(ops)[id := Reconciled(old(ops)[id], read)]
      ensures !e.Finalized? ==> m == old(m)
      ensures e.FinalizeFailed? ==> !ok || read(old(ops[id].secret)).Unusable?
      ensures e.SecretUnavailable? <==> old(ops[id].secret) != "" && read(old(ops[id].secret)).Unavailable?
    {
      if ops[id].secret != "" {
        match read(ops[id].secret)
        case ReadOk =>
        case Unavailable => return SecretUnavailable;
        case Unusable => return FinalizeFailed;
      }
      if !ok { return FinalizeFailed; }
      m := Do(m, Finalize(id)).value;
      ops := ops[id := ops[id].(state := Committed)];
      return Finalized;
    }

    /** The first statement of reconcileStartup. */
    method FailPendingOperations()
      requires Valid() && m.flights == map[]
      modifies this
      ensures Valid() && Do(old(m), FailPending) == Some(m) && rows == old(rows) && cleanup == old(cleanup)
          && vault == old(vault)
      ensures ops.Keys == old(ops).Keys
      ensures forall i | i in ops ::
          ops[i] == if old(ops)[i].state.Pending? then old(ops)[i].(state := Failed) else old(ops)[i]
    {
      m := Do(m, FailPending).value;
      ops := map i | i in ops :: if ops[i].state.Pending? then ops[i].(state := Failed) else ops[i];
    }

    /** Every pending operation is failed; then each applied one is finalized unless its secret cannot be read
        for now. */
    method ReconcileOperations(read: string -> SecretRead, failOk: bool, finalizeOk: bool)
                               returns (ok: bool, ghost acts: seq<Act>)
      requires Valid() && m.flights == map[]
      modifies this
      ensures Valid() && Run(old(m), acts) == Some(m) && rows == old(rows) && cleanup == old(cleanup)
          && vault == old(vault)
      ensures ok ==> AllReconciled(old(ops), ops, {}, read)
      ensures failOk && finalizeOk && (forall k: string :: !read(k).Unusable?) ==> ok
    {
      hide Do;
      ghost var s := m;
      acts := [];
      if !failOk { return false, acts; }
      FailPendingOperations();
      OneMore(s, [], s, FailPending);
      acts := acts + [FailPending];
      ghost var more;
      ok, more := FinalizeApplied(read, finalizeOk, old(ops));
      RunAppend(s, acts, more);
      acts := acts + more;
    }

    method FinalizeApplied(read: string -> SecretRead, finalizeOk: bool, ghost before: map<string, Op>)
      returns (ok: bool, ghost acts: seq<Act>)
      requires Valid() && ops.Keys == before.Keys
      requires forall i | i in ops ::
          ops[i] == if before[i].state.Pending? then before[i].(state := Failed) else before[i]
      modifies this
      ensures Valid() && Run(old(m), acts) == Some(m) && rows == old(rows) && cleanup == old(cleanup)
          && vault == old(vault)
      ensures ok ==> AllReconciled(before, ops, {}, read)
      ensures finalizeOk && (forall k: string :: !read(k).Unusable?) ==> ok
    {
      hide Do, Run, Reconciled, AllReconciled;
      ghost var s := m;
      acts := [];
      assert Run(s, acts) == Some(s) by { RunNothing(s); }
      var applied := set i | i in ops && ops[i].state.Applied?;
      ReconcileStarts(before, ops, applied, read);
      while applied != {}
        invariant Valid() && Run(s, acts) == Some(m) && rows == old(rows) && cleanup == old(cleanup)
            && vault == old(vault)
        invariant applied <= ops.Keys && AllReconciled(before, ops, applied, read)
        decreases |applied|
      {
        var id :| id in applied;
        ghost var t, o := m, ops;
        StillApplied(before, ops, applied, read, id);
        var e := FinalizeOperation(id, read, finalizeOk);
        if e.FinalizeFailed? { return false, acts; }
        if e.Finalized? {
          OneMore(s, acts, t, Finalize(id));
          acts := acts + [Finalize(id)];
        }
        OneReconciled(before, o, ops, applied, read, id);
        applied := applied - {id};
      }
      return true, acts;
    }

    /** Queue a listed key for cleanup if it is a provider secret that nothing references. */
    method QueueIfStray(key: string, queueOk: bool) returns (ok: bool, ghost acts: seq<Act>)
      requires Valid() && key in vault && "" !in vault
      modifies this
      ensures Valid() && Run(old(m), acts) == Some(m) && rows == old(rows) && ops == old(ops) && vault == old(vault)
      ensures forall k :: Referenced(m, k) <==> Referenced(old(m), k)
      ensures ok ==> cleanup == old(cleanup) + if HasPrefix(key) && !Referenced(m, key) then {key} else {}
      ensures queueOk ==> ok
    {
      ghost var s := m;
      acts, ok := [], true;
      if HasPrefix(key) {
        var references := CountReferences(key);
        if references == 0 {
          if !queueOk { return false, acts; }
          OneMore(s, [], s, QueueStray(key));
          acts := [] + [QueueStray(key)];
          m := Do(m, QueueStray(key)).value;
          cleanup := cleanup + {key};
          CleanupIsNoReference(s, m);
        }
      }
    }

    method QueueStrays(queueOk: bool) returns (ok: bool, ghost acts: seq<Act>)
      requires Valid() && "" !in vault
      modifies this
      ensures Valid() && Run(old(m), acts) == Some(m) && rows == old(rows) && ops == old(ops) && vault == old(vault)
      ensures ok ==> cleanup == old(cleanup) + set k | k in vault && HasPrefix(k) && !Referenced(m, k)
      ensures queueOk ==> ok
    {
      hide Do, Referenced, HasPrefix;
      ghost var s := m;
      ok, acts := true, [];
      var keys := vault;
      while keys != {}
        invariant Valid() && Run(s, acts) == Some(m) && rows == old(rows) && ops == old(ops) && vault == old(vault)
        invariant keys <= vault && forall k :: Referenced(m, k) <==> Referenced(s, k)
        invariant cleanup == old(cleanup) + set k | k in vault && k !in keys && HasPrefix(k) && !Referenced(s, k)
        invariant ok
        decreases |keys|
      {
        var key :| key in keys;
        ghost var more;
        ok, more := QueueIfStray(key, queueOk);
        RunAppend(s, acts, more);
        acts := acts + more;
        if !ok { return; }
        keys := keys - {key};
      }
    }

    /** reconcileStartup: afterwards no operation is pending, one is applied only while its secret cannot be
        read, and every stored provider secret without a reference is queued for cleanup, and nothing else. */
    method ReconcileStartup(read: string -> SecretRead, failOk: bool, finalizeOk: bool, listOk: bool, queueOk: bool)
      returns (ok: bool, ghost acts: seq<Act>)
      requires Valid() && m.flights == map[] && "" !in vault
      modifies this
      ensures Valid() && Run(old(m), acts) == Some(m) && rows == old(rows) && vault == old(vault)
      ensures ok ==> ops.Keys == old(ops).Keys && forall i | i in ops :: ops[i] == Reconciled(old(ops)[i], read)
      ensures ok ==> forall i | i in ops :: !ops[i].state.Pending?
      ensures ok ==> forall i | i in ops && ops[i].state.Applied? ::
          ops[i].secret != "" && read(ops[i].secret).Unavailable?
      ensures ok ==> cleanup == old(cleanup) + set k | k in vault && HasPrefix(k) && !Referenced(m, k)
      ensures failOk && finalizeOk && listOk && queueOk && (forall k: string :: !read(k).Unusable?) ==> ok
    {
      hide Do, Referenced, HasPrefix;
      ghost var s := m;
      ok, acts := ReconcileOperations(read, failOk, finalizeOk);
      if !ok { return; }
      if !listOk { return false, acts; }
      ghost var more;
      ok, more := QueueStrays(queueOk);
      RunAppend(s, acts, more);
      acts := acts + more;
    }
  }

  /** All operations but those in the set are as a startup leaves them, and those are still applied. */
  predicate AllReconciled(before: map<string, Op>, after: map<string, Op>, todo: set<string>,
                          read: string -> SecretRead) {
    && after.Keys == before.Keys
    && (forall i | i in after && i !in todo :: after[i] == Reconciled(before[i], read))
    && (forall i | i in after && i !in todo && after[i].state.Applied? :: read(after[i].secret).Unavailable?)
    && (forall i | i in after && i in todo :: after[i] == before[i] && after[i].state.Applied?)
  }

  lemma ReconcileStarts(before: map<string, Op>, ops: map<string, Op>, todo: set<string>, read: string -> SecretRead)
    requires forall i :: i in todo <==> i in ops && ops[i].state.Applied?
    requires ops.Keys == before.Keys
    requires forall i | i in ops ::
        ops[i] == if before[i].state.Pending? then before[i].(state := Failed) else before[i]
    ensures AllReconciled(before, ops, todo, read)
  {}

  lemma StillApplied(before: map<string, Op>, ops: map<string, Op>, todo: set<string>, read: string -> SecretRead,
                     id: string)
    requires AllReconciled(before, ops, todo, read) && id in todo && todo <= ops.Keys
    ensures ops[id].state.Applied?
  {}

  lemma OneReconciled(before: map<string, Op>, ops: map<string, Op>, ops': map<string, Op>, todo: set<string>,
                      read: string -> SecretRead, id: string)
    requires AllReconciled(before, ops, todo, read) && id in todo && todo <= ops.Keys
    requires (ops' == ops[id := Reconciled(ops[id], read)] && ops'[id].state.Committed?)
      || (ops' == ops && ops[id].secret != "" && read(ops[id].secret).Unavailable?)
    ensures AllReconciled(before, ops', todo - {id}, read)
  {}

  lemma CleanupIsNoReference(s: State, t: State)
    requires t == s.(cleanup := t.cleanup)
    ensures forall k :: Referenced(s, k) <==> Referenced(t, k)
  {}
}
