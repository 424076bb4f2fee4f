/** Provider save operations as a state machine over the tables, the secret store, the flights, the cleanup
    workers and restarts. No lock is modelled here: every interleaving of the transactions is a run. */
module ProviderOps {
  import opened Prelude

  datatype OpState = Pending | Applied | Committed | Failed

  datatype Row = Row(secret: string, isDefault: bool)

  datatype Op = Op(alias: string, state: OpState, secret: string)

  /** Where a flight is: storing the secret, applying, finalizing, or recording the failure. */
  datatype FlightPc = ToStore | ToApply | ToFinalize | ToFail

  /** Where a cleanup worker is: counting references, deleting the secret, or dropping its cleanup row. */
  datatype CleanPc = ToCount | ToDelete | ToUnlist

  datatype Change = Change(id: string, alias: string)

  datatype State = State(
    rows: map<string, Row>, ops: map<string, Op>, cleanup: set<string>, vault: set<string>,
    flights: map<string, FlightPc>, cleaning: map<string, CleanPc>,
    used: set<string>,       // every secret name that was ever in use
    changes: seq<Change>)    // which operations changed the provider table, in order

  datatype Act =
    | Commit(id: string, alias: string, secret: string)
    | StoreSecret(id: string, stored: bool, ok: bool)
    | Apply(id: string, makeDefault: bool, ok: bool)
    | FinishFlight(id: string, ok: bool)
    | FailFlight(id: string, ok: bool)
    | Panic(id: string, stateRead: bool)
    | Finalize(id: string)
    | Remove(alias: string)
    | SetDefault(alias: string)
    | StartCleaner(secret: string)
    | CountReferences(secret: string)
    | DeleteSecret(secret: string, deleted: bool, ok: bool)
    | Unlist(secret: string, ok: bool)
    | CleanerStops(secret: string)
    | Crash
    | FailPending
    | QueueStray(secret: string)

  predicate Active(o: Op) { o.state.Pending? || o.state.Applied? }

  predicate RowHolds(s: State, secret: string) { exists a :: a in s.rows && s.rows[a].secret == secret }

  predicate OpHolds(s: State, secret: string) {
    exists i :: i in s.ops && s.ops[i].secret == secret && Active(s.ops[i])
  }

  /** What the reference count of the cleanup query counts. */
  predicate Referenced(s: State, secret: string) { RowHolds(s, secret) || OpHolds(s, secret) }

  predicate AliasActive(s: State, alias: string) {
    exists i :: i in s.ops && s.ops[i].alias == alias && Active(s.ops[i])
  }

  function Queued(cleanup: set<string>, secret: string): set<string> {
    if secret == "" then cleanup else cleanup + {secret}
  }

  predicate Flying(s: State, id: string, pc: FlightPc) { id in s.flights && s.flights[id] == pc && id in s.ops }

  /** The journal insert; the unique index refuses a second active operation on an alias, and the secret
      name is freshly generated. */
  function DoCommit(s: State, id: string, alias: string, secret: string): Option<State> {
    if id in s.ops || AliasActive(s, alias) || (secret != "" && secret in s.used) then None
    else Some(s.(ops := s.ops[id := Op(alias, Pending, secret)], used := Queued(s.used, secret),
                 flights := s.flights[id := if secret == "" then ToApply else ToStore]))
  }

  function DoStoreSecret(s: State, id: string, stored: bool, ok: bool): Option<State> {
    if !Flying(s, id, ToStore) then None
    else Some(s.(vault := if stored || ok then s.vault + {s.ops[id].secret} else s.vault,
                 flights := s.flights[id := if ok then ToApply else ToFail]))
  }

  function ClearDefault(rows: map<string, Row>): map<string, Row> {
    map a | a in rows :: rows[a].(isDefault := false)
  }

  /** The row after an upsert: an empty secret keeps the old one. */
  function Upserted(rows: map<string, Row>, alias: string, secret: string, makeDefault: bool): map<string, Row> {
    var cleared := if makeDefault then ClearDefault(rows) else rows;
    var kept := if alias in rows && secret == "" then rows[alias].secret else secret;
    cleared[alias := Row(kept, makeDefault)]
  }

  function DoApply(s: State, id: string, makeDefault: bool, ok: bool): Option<State> {
    if !Flying(s, id, ToApply) then None
    else if !ok then Some(s.(flights := s.flights[id := ToFail]))
    else
      var o := s.ops[id];
      var replaced := if o.alias in s.rows && o.secret != "" && s.rows[o.alias].secret != o.secret
                      then s.rows[o.alias].secret else "";
      Some(s.(rows := Upserted(s.rows, o.alias, o.secret, makeDefault), cleanup := Queued(s.cleanup, replaced),
              ops := s.ops[id := o.(state := Applied)], flights := s.flights[id := ToFinalize],
              changes := s.changes + [Change(id, o.alias)]))
  }

  function DoFinishFlight(s: State, id: string, ok: bool): Option<State> {
    if !Flying(s, id, ToFinalize) then None
    else Some(s.(ops := if ok && s.ops[id].state.Applied? then s.ops[id := s.ops[id].(state := Committed)] else s.ops,
                 flights := s.flights - {id}))
  }

  /** failOperation: its update does not look at the state it replaces. */
  function DoFailFlight(s: State, id: string, ok: bool): Option<State> {
    if !Flying(s, id, ToFail) then None
    else Some(s.(ops := if ok then s.ops[id := s.ops[id].(state := Failed)] else s.ops,
                 cleanup := if ok then Queued(s.cleanup, s.ops[id].secret) else s.cleanup,
                 flights := s.flights - {id}))
  }

  /** The flight recovers from a panic: an operation still pending is failed, any other is left. */
  function DoPanic(s: State, id: string, stateRead: bool): Option<State> {
    if id !in s.flights || id !in s.ops then None
    else if stateRead && s.ops[id].state.Pending? then Some(s.(flights := s.flights[id := ToFail]))
    else Some(s.(flights := s.flights - {id}))
  }

  /** finalizeOperation, from a query or at startup. */
  function DoFinalize(s: State, id: string): Option<State> {
    if id !in s.ops || !s.ops[id].state.Applied? then None
    else Some(s.(ops := s.ops[id := s.ops[id].(state := Committed)]))
  }

  function DoRemove(s: State, alias: string): Option<State> {
    Some(s.(rows := s.rows - {alias},
        cleanup := if alias in s.rows then Queued(s.cleanup, s.rows[alias].secret) else s.cleanup))
  }

  function DoSetDefault(s: State, alias: string): Option<State> {
    var cleared := ClearDefault(s.rows);
    Some(s.(rows := if alias in cleared then cleared[alias := cleared[alias].(isDefault := true)] else cleared))
  }

  function DoStartCleaner(s: State, secret: string): Option<State> {
    if secret in s.cleanup && secret !in s.cleaning && |s.cleaning| < 2
    then Some(s.(cleaning := s.cleaning[secret := ToCount]))
    else None
  }

  predicate Cleaning(s: State, secret: string, pc: CleanPc) { secret in s.cleaning && s.cleaning[secret] == pc }

  function DoCountReferences(s: State, secret: string): Option<State> {
    if !Cleaning(s, secret, ToCount) then None
    else Some(s.(cleaning := s.cleaning[secret := if Referenced(s, secret) then ToUnlist else ToDelete]))
  }

  function DoDeleteSecret(s: State, secret: string, deleted: bool, ok: bool): Option<State> {
    if !Cleaning(s, secret, ToDelete) then None
    else Some(s.(vault := if deleted || ok then s.vault - {secret} else s.vault,
                 cleaning := if ok then s.cleaning[secret := ToUnlist] else s.cleaning - {secret}))
  }

  function DoUnlist(s: State, secret: string, ok: bool): Option<State> {
    if !Cleaning(s, secret, ToUnlist) then None
    else Some(s.(cleanup := if ok then s.cleanup - {secret} else s.cleanup, cleaning := s.cleaning - {secret}))
  }

  /** A failed query or a panic ends the worker; the cleanup row stays. */
  function DoCleanerStops(s: State, secret: string): Option<State> {
    if secret in s.cleaning then Some(s.(cleaning := s.cleaning - {secret})) else None
  }

  function DoCrash(s: State): Option<State> { Some(s.(flights := map[], cleaning := map[])) }

  /** The first step of startup: what a crash left pending is failed. */
  function DoFailPending(s: State): Option<State> {
    if s.flights != map[] then None
    else Some(s.(ops := map i | i in s.ops :: if s.ops[i].state.Pending? then s.ops[i].(state := Failed) else s.ops[i]))
  }

  /** Startup queues a stored secret that nothing references. */
  function DoQueueStray(s: State, secret: string): Option<State> {
    if secret in s.vault && !Referenced(s, secret) then Some(s.(cleanup := Queued(s.cleanup, secret))) else None
  }

  function Do(s: State, a: Act): Option<State> {
    match a
    case Commit(id, alias, secret) => DoCommit(s, id, alias, secret)
    case StoreSecret(id, stored, ok) => DoStoreSecret(s, id, stored, ok)
    case Apply(id, makeDefault, ok) => DoApply(s, id, makeDefault, ok)
    case FinishFlight(id, ok) => DoFinishFlight(s, id, ok)
    case FailFlight(id, ok) => DoFailFlight(s, id, ok)
    case Panic(id, stateRead) => DoPanic(s, id, stateRead)
    case Finalize(id) => DoFinalize(s, id)
    case Remove(alias) => DoRemove(s, alias)
    case SetDefault(alias) => DoSetDefault(s, alias)
    case StartCleaner(secret) => DoStartCleaner(s, secret)
    case CountReferences(secret) => DoCountReferences(s, secret)
    case DeleteSecret(secret, deleted, ok) => DoDeleteSecret(s, secret, deleted, ok)
    case Unlist(secret, ok) => DoUnlist(s, secret, ok)
    case CleanerStops(secret) => DoCleanerStops(s, secret)
    case Crash => DoCrash(s)
    case FailPending => DoFailPending(s)
    case QueueStray(secret) => DoQueueStray(s, secret)
  }

  function Run(s: State, acts: seq<Act>): Option<State>
    decreases acts
  {
    if acts == [] then Some(s)
    else if Do(s, acts[0]).None? then None
    else Run(Do(s, acts[0]).value, acts[1..])
  }

  /** A daemon's first start on tables that an earlier version may have filled: no operations yet, every
      provider's secret is stored, and at most one provider is the default. */
  predicate Initial(s: State) {
    && s.ops == map[] && s.cleanup == {} && s.flights == map[] && s.cleaning == map[] && s.changes == []
    && "" !in s.used && s.vault <= s.used
        && (forall a | a in s.rows && s.rows[a].secret != "" :: s.rows[a].secret in s.vault)
    && OneDefault(s.rows)
  }

  predicate OneDefault(rows: map<string, Row>) {
    forall a, b | a in rows && b in rows && rows[a].isDefault && rows[b].isDefault :: a == b
  }

  // ---- What every step keeps ----

  /** Every secret name in use is known. */
  ghost predicate RowNames(s: State) { forall a | a in s.rows && s.rows[a].secret != "" :: s.rows[a].secret in s.used }

  ghost predicate OpNames(s: State) { forall i | i in s.ops && s.ops[i].secret != "" :: s.ops[i].secret in s.used }

  ghost predicate SetNames(s: State) {
    "" !in s.used && s.vault <= s.used && s.cleanup <= s.used && s.cleaning.Keys <= s.used
  }

  ghost predicate NamesInv(s: State) { RowNames(s) && OpNames(s) && SetNames(s) }

  ghost predicate RowsStored(s: State) {
    forall a | a in s.rows && s.rows[a].secret != "" :: s.rows[a].secret in s.vault
  }

  /** A secret that an operation is about to install, or has installed, is stored. */
  ghost predicate OpsStored(s: State) {
    forall i | i in s.ops && s.ops[i].secret != "" && (s.ops[i].state.Applied? || Flying(s, i, ToApply)) ::
      s.ops[i].secret in s.vault
  }

  ghost predicate StoredInv(s: State) { RowsStored(s) && OpsStored(s) }

  /** A worker about to delete has counted no reference, and there still is none. */
  ghost predicate CleanersInv(s: State) {
    forall k | Cleaning(s, k, ToDelete) :: !Referenced(s, k)
  }

  ghost predicate FlightsInv(s: State) {
    forall i | i in s.flights :: i in s.ops && match s.flights[i]
      case ToFinalize => s.ops[i].state.Applied? || s.ops[i].state.Committed?
      case ToStore => s.ops[i].state.Pending? && s.ops[i].secret != ""
      case _ => s.ops[i].state.Pending?
  }

  ghost predicate AliasesInv(s: State) {
    forall i, j | i in s.ops && j in s.ops && Active(s.ops[i]) && Active(s.ops[j])
        && s.ops[i].alias == s.ops[j].alias :: i == j
  }

  ghost predicate Changed(s: State, id: string) { exists k :: 0 <= k < |s.changes| && s.changes[k].id == id }

  /** Exactly the applied and committed operations changed the provider table, each once and at its own alias. */
  ghost predicate ChangesInv(s: State) {
    && (forall j, k | 0 <= j < k < |s.changes| :: s.changes[j].id != s.changes[k].id)
    && (forall k | 0 <= k < |s.changes| ::
        s.changes[k].id in s.ops && s.changes[k].alias == s.ops[s.changes[k].id].alias)
    && (forall i | i in s.ops :: Changed(s, i) <==> s.ops[i].state.Applied? || s.ops[i].state.Committed?)
  }

  ghost predicate Inv(s: State) {
    NamesInv(s) && StoredInv(s) && CleanersInv(s) && FlightsInv(s) && AliasesInv(s) && ChangesInv(s)
    && OneDefault(s.rows)
  }

  lemma RowNamesKept(s: State, a: Act)
    requires RowNames(s) && OpNames(s) && Do(s, a).Some?
    ensures RowNames(Do(s, a).value) && s.used <= Do(s, a).value.used
  {
    hide Referenced, AliasActive;
  }

  lemma OpNamesKept(s: State, a: Act)
    requires OpNames(s) && Do(s, a).Some?
    ensures OpNames(Do(s, a).value)
  {
    hide Referenced, AliasActive, Upserted, ClearDefault;
  }

  lemma SetNamesKept(s: State, a: Act)
    requires NamesInv(s) && FlightsInv(s) && Do(s, a).Some?
    ensures SetNames(Do(s, a).value)
  {
    hide Referenced, AliasActive, Upserted, ClearDefault;
    if a.Apply? || a.Remove? {
      hide DoCommit, DoStoreSecret, DoFailFlight, DoPanic, DoFinishFlight, DoCountReferences, DoDeleteSecret, DoUnlist;
    } else if a.Commit? || a.StoreSecret? || a.FailFlight? {
      hide DoApply, DoRemove, DoPanic, DoFinishFlight, DoCountReferences, DoDeleteSecret, DoUnlist;
    } else {
      hide DoApply, DoRemove, DoCommit, DoStoreSecret, DoFailFlight;
    }
  }

  lemma NamesKept(s: State, a: Act)
    requires NamesInv(s) && FlightsInv(s) && Do(s, a).Some?
    ensures NamesInv(Do(s, a).value)
  {
    hide Do, FlightsInv, RowNames, OpNames, SetNames;
    RowNamesKept(s, a);
    OpNamesKept(s, a);
    SetNamesKept(s, a);
  }

  /** Actions that leave the operations and the flights alone. */
  predicate Aside(a: Act) {
    a.Remove? || a.SetDefault? || a.StartCleaner? || a.CountReferences? || a.DeleteSecret? || a.Unlist?
    || a.CleanerStops? || a.QueueStray?
  }

  lemma AsideMeans(s: State, a: Act)
    requires Aside(a) && Do(s, a).Some?
    ensures var t := Do(s, a).value; t.ops == s.ops && t.flights == s.flights && t.changes == s.changes
  {
    hide Referenced, AliasActive, Upserted, ClearDefault, Queued;
  }

  lemma FlightsKept(s: State, a: Act)
    requires FlightsInv(s) && Do(s, a).Some?
    ensures FlightsInv(Do(s, a).value)
  {
    hide Referenced, AliasActive, Upserted, ClearDefault, Queued;
    if Aside(a) {
      AsideMeans(s, a);
    } else if a.Apply? || a.Commit? || a.StoreSecret? || a.Panic? {
    } else {
      hide DoApply, DoCommit, DoStoreSecret, DoPanic;
    }
  }

  lemma AliasesKept(s: State, a: Act)
    requires AliasesInv(s) && FlightsInv(s) && Do(s, a).Some?
    ensures AliasesInv(Do(s, a).value)
  {
    hide Referenced, Upserted, ClearDefault;
  }

  lemma DefaultKept(s: State, a: Act)
    requires OneDefault(s.rows) && Do(s, a).Some?
    ensures OneDefault(Do(s, a).value.rows)
  {
    hide Referenced, AliasActive;
  }

  lemma OpHoldsIsStable(s: State, a: Act, k: string)
    requires SetNames(s) && FlightsInv(s) && Do(s, a).Some? && k in s.used && !OpHolds(s, k)
    ensures !OpHolds(Do(s, a).value, k)
  {
    hide Referenced, AliasActive, Upserted, ClearDefault, Queued;
  }

  lemma RowHoldsIsStable(s: State, a: Act, k: string)
    requires SetNames(s) && FlightsInv(s) && Do(s, a).Some? && k in s.used && !OpHolds(s, k) && !RowHolds(s, k)
    ensures !RowHolds(Do(s, a).value, k)
  {
    hide AliasActive, Queued;
    if a.Apply? && a.ok { assert Active(s.ops[a.id]); }
  }

  /** No step makes a known name referenced again once it is not: names are fresh, and only a pending
      operation, which is itself a reference, can install its name. */
  lemma UnreferencedIsStable(s: State, a: Act, k: string)
    requires NamesInv(s) && FlightsInv(s) && Do(s, a).Some? && k in s.used && !Referenced(s, k)
    ensures !Referenced(Do(s, a).value, k)
  {
    hide Do, FlightsInv, OpHolds, RowHolds;
    OpHoldsIsStable(s, a, k);
    RowHoldsIsStable(s, a, k);
  }

  lemma CleanersKept(s: State, a: Act)
    requires CleanersInv(s) && NamesInv(s) && FlightsInv(s) && Do(s, a).Some?
    ensures CleanersInv(Do(s, a).value)
  {
    var t := Do(s, a).value;
    forall k | Cleaning(t, k, ToDelete) ensures !Referenced(t, k) {
      if Cleaning(s, k, ToDelete) {
        UnreferencedIsStable(s, a, k);
      } else {
        OnlyCountingStartsDeletion(s, a, k);
      }
    }
  }

  lemma OnlyCountingStartsDeletion(s: State, a: Act, k: string)
    requires Do(s, a).Some? && Cleaning(Do(s, a).value, k, ToDelete) && !Cleaning(s, k, ToDelete)
    ensures a == CountReferences(k) && !Referenced(Do(s, a).value, k)
  {
    hide AliasActive, Upserted;
  }

  /** A secret that a provider row or a pending or applied operation references is not deleted. */
  lemma ReferencedIsNotDeleted(s: State, a: Act, k: string)
    requires CleanersInv(s) && Referenced(s, k) && k in s.vault && Do(s, a).Some?
    ensures k in Do(s, a).value.vault
  {
    hide AliasActive, Upserted;
  }

  lemma StoredKept(s: State, a: Act)
    requires StoredInv(s) && CleanersInv(s) && FlightsInv(s) && Do(s, a).Some?
    ensures StoredInv(Do(s, a).value)
  {
    hide Do, RowsStored, OpsStored;
    RowsStayStored(s, a);
    OpsStayStored(s, a);
  }

  lemma DeletionIsUnreferenced(s: State, k: string)
    requires CleanersInv(s) && FlightsInv(s) && Cleaning(s, k, ToDelete)
    ensures forall a | a in s.rows :: s.rows[a].secret != k
    ensures forall i | i in s.ops && (s.ops[i].state.Applied? || Flying(s, i, ToApply)) :: s.ops[i].secret != k
  {
    assert !RowHolds(s, k) && !OpHolds(s, k);
    assert forall i | Flying(s, i, ToApply) :: Active(s.ops[i]);
  }

  lemma RowsStayStored(s: State, a: Act)
    requires RowsStored(s) && OpsStored(s) && CleanersInv(s) && FlightsInv(s) && Do(s, a).Some?
    ensures RowsStored(Do(s, a).value)
  {
    hide Referenced, AliasActive, FlightsInv, CleanersInv;
    if a.DeleteSecret? { DeletionIsUnreferenced(s, a.secret); }
  }

  lemma OpsStayStored(s: State, a: Act)
    requires OpsStored(s) && CleanersInv(s) && FlightsInv(s) && Do(s, a).Some?
    ensures OpsStored(Do(s, a).value)
  {
    hide Referenced, AliasActive, CleanersInv, Upserted, ClearDefault;
    if a.DeleteSecret? { DeletionIsUnreferenced(s, a.secret); }
  }

  lemma SameChanges(s: State, t: State)
    requires s.changes == t.changes
    ensures forall i :: Changed(s, i) <==> Changed(t, i)
  {}

  predicate Done(o: Op) { o.state.Applied? || o.state.Committed? }

  /** Only a successful apply makes an operation done. */
  lemma DoneIsStable(s: State, a: Act)
    requires FlightsInv(s) && Do(s, a).Some? && !(a.Apply? && a.ok)
    ensures var t := Do(s, a).value;
      && t.changes == s.changes && s.ops.Keys <= t.ops.Keys
      && (forall i | i in s.ops :: t.ops[i].alias == s.ops[i].alias && (Done(t.ops[i]) <==> Done(s.ops[i])))
      && (forall i | i in t.ops && i !in s.ops :: t.ops[i].state.Pending?)
  {
    hide Referenced, AliasActive, Upserted, ClearDefault, Queued;
    if Aside(a) { AsideMeans(s, a); }
  }

  lemma ChangesKept(s: State, a: Act)
    requires ChangesInv(s) && FlightsInv(s) && Do(s, a).Some?
    ensures ChangesInv(Do(s, a).value)
  {
    hide Do;
    if a.Apply? && a.ok {
      ApplyIs(s, a);
      ApplyChanges(s, a.id, a.makeDefault);
    } else {
      DoneIsStable(s, a);
      var t := Do(s, a).value;
      SameChanges(s, t);
      forall i | i in t.ops && i !in s.ops ensures !Changed(t, i) { FreshIsUnchanged(s, i); }
    }
  }

  lemma ApplyIs(s: State, a: Act)
    requires a.Apply?
    ensures Do(s, a) == DoApply(s, a.id, a.makeDefault, a.ok)
  {}

  lemma FreshIsUnchanged(s: State, id: string)
    requires ChangesInv(s) && id !in s.ops
    ensures !Changed(s, id)
  {}

  lemma ApplyChanges(s: State, id: string, makeDefault: bool)
    requires ChangesInv(s) && FlightsInv(s) && DoApply(s, id, makeDefault, true).Some?
    ensures ChangesInv(DoApply(s, id, makeDefault, true).value)
  {
    hide Upserted, Queued;
    var t := DoApply(s, id, makeDefault, true).value;
    var n := |s.changes|;
    assert t.changes[n].id == id && !Changed(s, id);
    forall i | i in t.ops ensures Changed(t, i) <==> i == id || Changed(s, i) {
      if Changed(s, i) {
        var k :| 0 <= k < n && s.changes[k].id == i;
        assert t.changes[k].id == i;
      }
    }
  }

  lemma StepKeepsInv(s: State, a: Act)
    requires Inv(s) && Do(s, a).Some?
    ensures Inv(Do(s, a).value)
  {
    hide Do, NamesInv, StoredInv, CleanersInv, FlightsInv, AliasesInv, ChangesInv, OneDefault;
    NamesKept(s, a);
    StoredKept(s, a);
    CleanersKept(s, a);
    FlightsKept(s, a);
    AliasesKept(s, a);
    ChangesKept(s, a);
    DefaultKept(s, a);
  }

  lemma {:induction false} RunKeepsInv(s: State, acts: seq<Act>)
    requires Inv(s) && Run(s, acts).Some?
    ensures Inv(Run(s, acts).value)
    decreases acts
  {
    hide Do, Inv;
    if acts != [] {
      StepKeepsInv(s, acts[0]);
      RunKeepsInv(Do(s, acts[0]).value, acts[1..]);
    }
  }

  lemma InitialInv(s: State)
    requires Initial(s)
    ensures Inv(s)
  {}

  // ---- Over all runs ----

  ghost predicate Reachable(s: State) { exists s0, acts :: Initial(s0) && Run(s0, acts) == Some(s) }

  lemma ReachableInv(s: State)
    requires Reachable(s)
    ensures Inv(s)
  {
    hide Do, Inv, Initial;
    var s0, acts :| Initial(s0) && Run(s0, acts) == Some(s);
    InitialInv(s0);
    RunKeepsInv(s0, acts);
  }

  /** In every reachable state the secret of every provider and of every applied operation is stored, and
      no next step deletes a stored secret that is referenced. */
  lemma ReferencedSecretsAreSafe(s: State)
    requires Reachable(s)
    ensures forall a | a in s.rows && s.rows[a].secret != "" :: s.rows[a].secret in s.vault
    ensures forall i | i in s.ops && s.ops[i].state.Applied? && s.ops[i].secret != "" :: s.ops[i].secret in s.vault
    ensures forall a: Act, k | Do(s, a).Some? && Referenced(s, k) && k in s.vault :: k in Do(s, a).value.vault
  {
    ReachableInv(s);
    hide Do, Referenced;
    forall a: Act, k | Do(s, a).Some? && Referenced(s, k) && k in s.vault ensures k in Do(s, a).value.vault {
      ReferencedIsNotDeleted(s, a, k);
    }
  }

  function Count(changes: seq<Change>, id: string): nat {
    if changes == [] then 0 else (if changes[0].id == id then 1 else 0) + Count(changes[1..], id)
  }

  lemma {:induction false} CountIs(changes: seq<Change>, id: string)
    requires forall j, k | 0 <= j < k < |changes| :: changes[j].id != changes[k].id
    ensures Count(changes, id) == if exists k :: 0 <= k < |changes| && changes[k].id == id then 1 else 0
  {
    if changes != [] {
      var rest := changes[1..];
      CountIs(rest, id);
      if k :| 0 <= k < |rest| && rest[k].id == id { assert changes[k + 1].id == id; }
      if k :| 0 <= k < |changes| && changes[k].id == id { assert k > 0 ==> rest[k - 1].id == id; }
    }
  }

  /** What the journal says about an operation is what it did to the provider table. */
  lemma JournalTellsTheTruth(s: State, id: string)
    requires Reachable(s) && id in s.ops
    ensures Count(s.changes, id) == match s.ops[id].state
      case Pending => 0
      case Failed => 0
      case Applied => 1
      case Committed => 1
  {
    ReachableInv(s);
    CountIs(s.changes, id);
  }
}
