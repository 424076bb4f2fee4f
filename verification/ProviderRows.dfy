/** What a save puts into the provider rows, and which secrets leave them. */
module ProviderRows {
  import opened Prelude
  import opened ProviderOps
  import opened ProviderReplies

  /** The rows after a save at an alias: the row has the given secret, or the old one if none is given, and the given
      default flag; every other row keeps its secret, and its default flag unless the save takes the default. */
  predicate SavedAt(before: map<string, Row>, after: map<string, Row>, alias: string, secret: string,
                    makeDefault: bool) {
    && after.Keys == before.Keys + {alias}
    && after[alias].isDefault == makeDefault
    && (secret != "" ==> after[alias].secret == secret)
    && (secret == "" ==> after[alias].secret == if alias in before then before[alias].secret else "")
    && (forall a <- before | a != alias ::
          after[a].secret == before[a].secret && (after[a].isDefault <==> before[a].isDefault && !makeDefault))
  }

  /** The secret that a save with a new one takes out of the row. */
  function Displaced(before: map<string, Row>, alias: string, secret: string): set<string> {
    if alias in before && secret != "" then {before[alias].secret} - {"", secret} else {}
  }

  lemma UpsertedIsSaved(rows: map<string, Row>, alias: string, secret: string, makeDefault: bool)
    ensures SavedAt(rows, Upserted(rows, alias, secret, makeDefault), alias, secret, makeDefault)
  {}

  /** A journal entry names its alias and secret, and changes no row. */
  lemma CommitJournals(s: State, id: string, alias: string, secret: string)
    requires Do(s, Commit(id, alias, secret)).Some?
    ensures var t := Do(s, Commit(id, alias, secret)).value;
      && id !in s.ops && t.ops == s.ops[id := Op(alias, Pending, secret)] && t.rows == s.rows
      && id in t.flights && t.vault == s.vault && t.cleanup == s.cleanup && t.changes == s.changes
  {
    hide AliasActive, Referenced;
  }

  /** An apply saves the operation's secret at its alias and queues the one it takes out. */
  lemma ApplySaves(s: State, id: string, makeDefault: bool)
    requires Do(s, Apply(id, makeDefault, true)).Some?
    ensures var t := Do(s, Apply(id, makeDefault, true)).value;
      && id in s.ops && SavedAt(s.rows, t.rows, s.ops[id].alias, s.ops[id].secret, makeDefault)
      && t.cleanup == s.cleanup + Displaced(s.rows, s.ops[id].alias, s.ops[id].secret)
      && t.ops == s.ops[id := s.ops[id].(state := Applied)] && t.vault == s.vault
  {
    UpsertedIsSaved(s.rows, s.ops[id].alias, s.ops[id].secret, makeDefault);
    hide Upserted, AliasActive, Referenced, SavedAt;
  }

  /** Removing a provider takes its row alone. */
  lemma RemoveTakesTheRow(s: State, alias: string)
    ensures var t := Do(s, Remove(alias)).value;
      && t.rows.Keys == s.rows.Keys - {alias} && (forall a <- t.rows :: t.rows[a] == s.rows[a])
      && t.ops == s.ops && t.vault == s.vault
  {
    hide AliasActive, Referenced;
  }

  /** Setting the default changes flags only: the named provider is the default, and nobody is if it is unknown. */
  lemma SetDefaultMovesTheFlag(s: State, alias: string)
    ensures var t := Do(s, SetDefault(alias)).value;
      && t == s.(rows := t.rows) && t.rows.Keys == s.rows.Keys
      && (forall a <- t.rows :: t.rows[a].secret == s.rows[a].secret && (t.rows[a].isDefault <==> a == alias))
  {
    hide AliasActive, Referenced;
  }

  /** Whatever secret a step takes out of the rows is queued for cleanup by that step. */
  lemma WhatLeavesTheRowsIsQueued(s: State, a: Act, secret: string)
    requires Do(s, a).Some? && secret != "" && RowHolds(s, secret) && !RowHolds(Do(s, a).value, secret)
    ensures secret in Do(s, a).value.cleanup
  {
    var alias :| alias in s.rows && s.rows[alias].secret == secret;
    var t := Do(s, a).value;
    hide AliasActive, OpHolds;
    assert alias in t.rows ==> t.rows[alias].secret != secret;
  }

  /** A failed flight queues its operation's secret. */
  lemma FailureQueues(s: State, id: string)
    requires Do(s, FailFlight(id, true)).Some?
    ensures var t := Do(s, FailFlight(id, true)).value;
      && id in s.ops && t.ops == s.ops[id := s.ops[id].(state := Failed)] && t.rows == s.rows
      && t.cleanup == s.cleanup + ({s.ops[id].secret} - {""})
  {
    hide AliasActive, Referenced;
  }

  // ---- Over all runs ----

  /** The operation that changed the table last at an alias. */
  function LastAt(changes: seq<Change>, alias: string): Option<string> {
    if changes == [] then None
    else
      var n := |changes| - 1;
      if changes[n].alias == alias then Some(changes[n].id) else LastAt(changes[..n], alias)
  }

  lemma LastAtAppend(changes: seq<Change>, c: Change, alias: string)
    ensures LastAt(changes + [c], alias) == if c.alias == alias then Some(c.id) else LastAt(changes, alias)
  {
    assert (changes + [c])[..|changes|] == changes;
  }

  /** A row whose last change came with a secret holds that secret. */
  ghost predicate InstalledAt(s: State, alias: string) {
    alias in s.rows && LastAt(s.changes, alias).Some? ==>
      var id := LastAt(s.changes, alias).value;
      id in s.ops && (s.ops[id].secret != "" ==> s.rows[alias].secret == s.ops[id].secret)
  }

  /** Steps that are no successful apply change no row's secret and add no row and no change. */
  lemma OthersKeepSecrets(s: State, a: Act)
    requires FlightsInv(s) && Do(s, a).Some? && !(a.Apply? && a.ok)
    ensures var t := Do(s, a).value;
      && t.changes == s.changes && t.rows.Keys <= s.rows.Keys
      && (forall b <- t.rows :: t.rows[b].secret == s.rows[b].secret)
  {
    hide AliasActive, Referenced, Upserted;
  }

  lemma StepKeepsInstalled(s: State, a: Act, alias: string)
    requires FlightsInv(s) && InstalledAt(s, alias) && Do(s, a).Some?
    ensures InstalledAt(Do(s, a).value, alias)
  {
    var t := Do(s, a).value;
    StepRefines(s, a);
    if a.Apply? && a.ok {
      ApplySaves(s, a.id, a.makeDefault);
      ApplyRecords(s, a.id, a.makeDefault);
      LastAtAppend(s.changes, Change(a.id, s.ops[a.id].alias), alias);
      hide Do, LastAt;
    } else {
      OthersKeepSecrets(s, a);
      hide Do, LastAt;
    }
  }

  lemma ApplyRecords(s: State, id: string, makeDefault: bool)
    requires Do(s, Apply(id, makeDefault, true)).Some?
    ensures id in s.ops && Do(s, Apply(id, makeDefault, true)).value.changes == s.changes
        + [Change(id, s.ops[id].alias)]
  {
    hide Upserted, Queued, AliasActive, Referenced;
  }

  lemma {:induction false} RunKeepsInstalled(s: State, acts: seq<Act>, alias: string)
    requires Inv(s) && InstalledAt(s, alias) && Run(s, acts).Some?
    ensures InstalledAt(Run(s, acts).value, alias)
    decreases acts
  {
    hide Do, Inv, InstalledAt;
    if acts != [] {
      InvFlights(s);
      StepKeepsInstalled(s, acts[0], alias);
      StepKeepsInv(s, acts[0]);
      RunKeepsInstalled(Do(s, acts[0]).value, acts[1..], alias);
    }
  }

  /** In every reachable state a provider whose last save came with a key has that key. */
  lemma LastKeyIsInTheRow(s: State, alias: string)
    requires Reachable(s) && alias in s.rows && LastAt(s.changes, alias).Some?
    ensures var id := LastAt(s.changes, alias).value;
      id in s.ops && Done(s.ops[id]) && s.ops[id].alias == alias
      && (s.ops[id].secret != "" ==> s.rows[alias].secret == s.ops[id].secret && s.ops[id].secret in s.vault)
  {
    ReachableInv(s);
    ReferencedSecretsAreSafe(s);
    LastAtIsChange(s.changes, alias);
    ReachableInstalled(s, alias);
    hide Inv, Reachable, Do;
    InvChanges(s) by { ReachableInv(s); }
  }

  lemma ReachableInstalled(s: State, alias: string)
    requires Reachable(s)
    ensures InstalledAt(s, alias)
  {
    hide Do, Inv, Initial, InstalledAt;
    var s0, acts :| Initial(s0) && Run(s0, acts) == Some(s);
    InitialInv(s0);
    NothingInstalled(s0, alias);
    RunKeepsInstalled(s0, acts, alias);
  }

  lemma NothingInstalled(s: State, alias: string)
    requires Initial(s)
    ensures InstalledAt(s, alias)
  {}

  lemma {:induction false} LastAtIsChange(changes: seq<Change>, alias: string)
    ensures LastAt(changes, alias).Some? ==>
      exists k :: 0 <= k < |changes| && changes[k] == Change(LastAt(changes, alias).value, alias)
  {
    if changes != [] {
      var n := |changes| - 1;
      LastAtIsChange(changes[..n], alias);
      if LastAt(changes, alias).Some? {
        if changes[n].alias == alias {
          assert changes[n] == Change(changes[n].id, alias);
        } else {
          var k :| 0 <= k < n && changes[..n][k] == Change(LastAt(changes, alias).value, alias);
          assert changes[k] == changes[..n][k];
        }
      }
    }
  }
}
