/** What the callers of provider saves are told, against everything that happens afterwards. */
module ProviderReplies {
  import opened Prelude
  import opened ProviderOps

  /** A state may move to another without breaking what was reported about it. */
  predicate Refines(before: Op, after: Op) {
    && after.alias == before.alias && after.secret == before.secret
    && match before.state
       case Pending => true
       case Applied => after.state.Applied? || after.state.Committed?
       case Committed => after.state.Committed?
       case Failed => after.state.Failed?
  }

  ghost predicate OpsRefine(s: State, t: State) { forall i | i in s.ops :: i in t.ops && Refines(s.ops[i], t.ops[i]) }

  lemma StepRefines(s: State, a: Act)
    requires FlightsInv(s) && Do(s, a).Some?
    ensures OpsRefine(s, Do(s, a).value)
  {
    hide Referenced, AliasActive, Upserted, ClearDefault, Queued;
    if Aside(a) {
      AsideMeans(s, a);
    } else if a.Apply? || a.Commit? || a.FailFlight? {
      hide DoFinishFlight, DoFinalize, DoFailPending, DoPanic, DoStoreSecret;
    } else {
      hide DoApply, DoCommit, DoFailFlight;
    }
  }

  /** Committed and failed never change, and applied only becomes committed, although the failure update
      carries no state guard. */
  lemma {:induction false} RunRefines(s: State, acts: seq<Act>)
    requires Inv(s) && Run(s, acts).Some?
    ensures OpsRefine(s, Run(s, acts).value)
    decreases acts
  {
    hide Do, Inv, Refines;
    RefinesIsTransitive();
    if acts != [] {
      var t := Do(s, acts[0]).value;
      StepKeepsInv(s, acts[0]);
      InvFlights(s);
      StepRefines(s, acts[0]);
      RunRefines(t, acts[1..]);
      assert forall i | i in s.ops :: Refines(s.ops[i], t.ops[i]);
    }
  }

  lemma InvFlights(s: State)
    requires Inv(s)
    ensures FlightsInv(s)
  {}

  lemma RefinesIsTransitive()
    ensures forall a: Op :: Refines(a, a)
    ensures forall a: Op, b: Op, c: Op :: Refines(a, b) && Refines(b, c) ==> Refines(a, c)
  {}

  /** An operation that a query reported failed never changes the provider table, and one reported applied or
      committed changed it exactly once, whatever retries, panics and restarts follow. */
  lemma ReportedStateHoldsForever(s: State, id: string, acts: seq<Act>)
    requires Reachable(s) && id in s.ops && !s.ops[id].state.Pending? && Run(s, acts).Some?
    ensures Count(Run(s, acts).value.changes, id) == if s.ops[id].state.Failed? then 0 else 1
  {
    hide Inv, Do;
    ReachableInv(s);
    RunRefines(s, acts);
    RunKeepsInv(s, acts);
    var t := Run(s, acts).value;
    assert Refines(s.ops[id], t.ops[id]);
    InvChanges(t);
    CountIs(t.changes, id);
  }

  lemma InvChanges(s: State)
    requires Inv(s)
    ensures ChangesInv(s)
  {}

  predicate FlightOn(s: State, alias: string) { exists i :: i in s.flights && i in s.ops && s.ops[i].alias == alias }

  /** Commit answers without starting anything when the id is journaled or the alias has a flight: the journal's
      state, or a failure for another alias (operation conflict) or for the busy alias. */
  function ImmediateReply(s: State, id: string, alias: string): Option<OpState> {
    if id in s.ops then Some(if s.ops[id].alias == alias then s.ops[id].state else Failed)
    else if FlightOn(s, alias) then Some(Failed)
    else None
  }

  lemma RunNothing(s: State)
    ensures Run(s, []) == Some(s)
  {}

  lemma OneMore(s: State, acts: seq<Act>, t: State, a: Act)
    requires Run(s, acts) == Some(t) && Do(t, a).Some?
    ensures Run(s, acts + [a]) == Do(t, a)
  {
    hide Do;
    RunAppend(s, acts, [a]);
    assert [a][1..] == [];
  }

  /** Some run clears the alias of active operations. */
  lemma AliasCanBeFreed(s: State, alias: string) returns (acts: seq<Act>, t: State)
    requires Inv(s)
    ensures Run(s, acts) == Some(t) && Inv(t) && t.ops.Keys == s.ops.Keys && !AliasActive(t, alias)
  {
    hide Inv, Run;
    var u := Do(s, Crash).value;
    StepKeepsInv(s, Crash);
    t := Do(u, FailPending).value;
    StepKeepsInv(u, FailPending);
    RunNothing(s);
    OneMore(s, [], s, Crash);
    assert [] + [Crash] == [Crash];
    OneMore(s, [Crash], u, FailPending);
    acts := [Crash] + [FailPending];
    if AliasActive(t, alias) {
      var i :| i in t.ops && t.ops[i].alias == alias && Active(t.ops[i]);
      InvAliases(t);
      StepKeepsInv(t, Finalize(i));
      OneMore(s, acts, t, Finalize(i));
      acts, t := acts + [Finalize(i)], Do(t, Finalize(i)).value;
    }
  }

  lemma InvAliases(s: State)
    requires Inv(s)
    ensures AliasesInv(s)
  {}

  lemma {:induction false} RunAppend(s: State, xs: seq<Act>, ys: seq<Act>)
    requires Run(s, xs).Some?
    ensures Run(s, xs + ys) == Run(Run(s, xs).value, ys)
    decreases xs
  {
    hide Do;
    if xs == [] {
      assert xs + ys == ys;
    } else {
      assert (xs + ys)[1..] == xs[1..] + ys;
      RunAppend(Do(s, xs[0]).value, xs[1..], ys);
    }
  }

  /** An id that is not journaled can still change the provider table, at any alias. */
  lemma UnjournaledCanStillCommit(s: State, id: string, alias: string) returns (acts: seq<Act>)
    requires Inv(s) && id !in s.ops
    ensures Run(s, acts).Some? && Change(id, alias) in Run(s, acts).value.changes
  {
    hide Inv, AliasActive, Upserted;
    var free, t := AliasCanBeFreed(s, alias);
    assert id !in t.ops;
    var more := [Commit(id, alias, ""), Apply(id, false, true)];
    acts := free + more;
    RunAppend(s, free, more);
    var u := Do(t, more[0]).value;
    assert more[1..] == [more[1]] && more[1..][1..] == [];
    var v := Do(u, more[1]).value;
    assert Run(t, more) == Run(u, [more[1]]) == Run(v, []);
    assert v.changes[|t.changes|] == Change(id, alias);
  }

  lemma JournaledFailureIsFinal(s: State, id: string, alias: string, acts: seq<Act>)
    requires Inv(s) && id in s.ops && (s.ops[id].alias != alias || s.ops[id].state.Failed?) && Run(s, acts).Some?
    ensures Change(id, alias) !in Run(s, acts).value.changes
  {
    hide Inv, Do;
    RunRefines(s, acts);
    RunKeepsInv(s, acts);
    var t := Run(s, acts).value;
    assert Refines(s.ops[id], t.ops[id]);
    InvChanges(t);
  }

  /** When Commit answers "failed" at once, the save never happens later if and only if the id was journaled;
      the answer for a busy alias can be followed by a committed save under the same id. */
  lemma ImmediateFailureIsFinalIff(s: State, id: string, alias: string)
    requires Reachable(s) && ImmediateReply(s, id, alias) == Some(Failed)
    ensures (forall acts | Run(s, acts).Some? :: Change(id, alias) !in Run(s, acts).value.changes) <==> id in s.ops
  {
    hide Run;
    ReachableInv(s);
    if id in s.ops {
      forall acts | Run(s, acts).Some? ensures Change(id, alias) !in Run(s, acts).value.changes {
        JournaledFailureIsFinal(s, id, alias, acts);
      }
    } else {
      var acts := UnjournaledCanStillCommit(s, id, alias);
      assert Run(s, acts).Some?;
    }
  }
}
