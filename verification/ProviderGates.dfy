/** The locks of provider saves: the manager mutex, one reference-counted gate per alias, and the provider
    rows mutex. The mutex over the gate table is held only around the steps shown here as one. */
module ProviderGates {
  import opened Prelude

  datatype Pc =
    // Commit
    | WantMu            // blocked on the manager mutex
    | HasMu             // checking the journal and the flights
    | WaitGateInMu      // holds the manager mutex, blocked on the gate
    | Journaling        // holds both
    | UnrefInMu         // the insert failed: the gate is unlocked, its reference not yet dropped
    | LeaveMu           // about to unlock the manager mutex
    | AwaitFlight(flight: nat)
    // a flight, which starts with the gate its Commit locked
    | Working
    | FlightWantsRows
    | FlightInRows
    | WantMuToEnd       // blocked on the manager mutex
    | Unregistering     // holds it, about to leave the flight table
    | Unregistered      // out of the flight table, the gate still locked
    // RemoveProvider
    | WantGate          // about to look up the gate
    | WaitGate          // blocked on the gate
    | RemoveWantsRows
    | RemoveInRows
    | RemoveDone        // rows unlocked, the gate still locked
    // everything else that takes one mutex
    | QueryWantsMu | QueryInMu | RowsWanted | InRows
    | Unref             // the gate is unlocked, its reference not yet dropped
    | Finished

  datatype Thread = Thread(pc: Pc, alias: string, gate: nat)

  datatype State = State(
    threads: map<nat, Thread>, mu: Option<nat>, rows: Option<nat>, owner: map<nat, nat>,
    refs: map<nat, nat>, aliases: map<string, nat>, flights: map<string, nat>, nextGate: nat)

  const INITIAL := State(map[], None, None, map[], map[], map[], map[], 0)

  predicate StartPc(pc: Pc) { pc.WantMu? || pc.WantGate? || pc.QueryWantsMu? || pc.RowsWanted? }

  /** What one step does to the locks and tables. */
  datatype Effect =
    | Nothing
    | TakeMu | FreeMu
    | TakeRows | FreeRows
    | AddRef        // acquireAlias up to the gate's lock: look up or create the gate, count the reference
    | TakeGate | FreeGate
    | SubRef        // the end of a release: count the reference down, drop the gate from the table at zero
    | Launch        // register a flight, which takes over the gate, and unlock the manager mutex
    | Unregister    // leave the flight table and unlock the manager mutex

  datatype Plan = Blocked | Next(effect: Effect, pc: Pc)

  /** The next step of a thread at pc. A choice stands for what the thread finds out: for HasMu whether the id
      is already journaled, for Journaling whether the insert took, and for Working whether there is more to do
      under the rows mutex. The flight it may launch is child. */
  function PlanOf(pc: Pc, choice: bool, registered: bool, flightOver: bool, child: nat): Plan {
    match pc
    case WantMu => Next(TakeMu, HasMu)
    case HasMu => if choice || registered then Next(Nothing, LeaveMu) else Next(AddRef, WaitGateInMu)
    case WaitGateInMu => Next(TakeGate, Journaling)
    case Journaling => if choice then Next(Launch, AwaitFlight(child)) else Next(FreeGate, UnrefInMu)
    case UnrefInMu => Next(SubRef, LeaveMu)
    case LeaveMu => Next(FreeMu, Finished)
    case AwaitFlight(_) => if flightOver then Next(Nothing, Finished) else Blocked
    case Working => Next(Nothing, if choice then FlightWantsRows else WantMuToEnd)
    case FlightWantsRows => Next(TakeRows, FlightInRows)
    case FlightInRows => Next(FreeRows, Working)
    case WantMuToEnd => Next(TakeMu, Unregistering)
    case Unregistering => Next(Unregister, Unregistered)
    case Unregistered => Next(FreeGate, Unref)
    case WantGate => Next(AddRef, WaitGate)
    case WaitGate => Next(TakeGate, RemoveWantsRows)
    case RemoveWantsRows => Next(TakeRows, RemoveInRows)
    case RemoveInRows => Next(FreeRows, RemoveDone)
    case RemoveDone => Next(FreeGate, Unref)
    case QueryWantsMu => Next(TakeMu, QueryInMu)
    case QueryInMu => Next(FreeMu, Finished)
    case RowsWanted => Next(TakeRows, InRows)
    case InRows => Next(FreeRows, Finished)
    case Unref => Next(SubRef, Finished)
    case Finished => Blocked
  }

  /** The gate of an alias, or the new one that a lookup creates. */
  function GateOf(s: State, alias: string): nat { if alias in s.aliases then s.aliases[alias] else s.nextGate }

  function RefsOf(s: State, g: nat): nat { if g in s.refs then s.refs[g] else 0 }

  /** A lock that somebody holds blocks the step. */
  predicate Blocks(s: State, x: Thread, e: Effect) {
    (e.TakeMu? && s.mu.Some?) || (e.TakeRows? && s.rows.Some?) || (e.TakeGate? && x.gate in s.owner)
  }

  function Put(s: State, t: nat, pc: Pc): State
    requires t in s.threads
  {
    s.(threads := s.threads[t := s.threads[t].(pc := pc)])
  }

  function DoAddRef(s: State, t: nat, pc: Pc): State
    requires t in s.threads
  {
    var x := s.threads[t];
    var g := GateOf(s, x.alias);
    s.(threads := s.threads[t := Thread(pc, x.alias, g)], aliases := s.aliases[x.alias := g],
       refs := s.refs[g := (if x.alias in s.aliases then RefsOf(s, g) else 0) + 1],
       nextGate := if x.alias in s.aliases then s.nextGate else s.nextGate + 1)
  }

  function DoSubRef(s: State, t: nat, pc: Pc): State
    requires t in s.threads
  {
    var x := s.threads[t];
    var n := if RefsOf(s, x.gate) > 0 then RefsOf(s, x.gate) - 1 else 0;
    Put(s, t, pc).(refs := s.refs[x.gate := n], aliases := if n == 0 then s.aliases - {x.alias} else s.aliases)
  }

  function DoLaunch(s: State, t: nat, child: nat): State
    requires t in s.threads
  {
    var x := s.threads[t];
    s.(threads := s.threads[t := x.(pc := AwaitFlight(child))][child := Thread(Working, x.alias, x.gate)],
       owner := s.owner[x.gate := child], flights := s.flights[x.alias := child], mu := None)
  }

  function DoEffect(s: State, t: nat, e: Effect, pc: Pc, child: nat): State
    requires t in s.threads
  {
    var x := s.threads[t];
    match e
    case Nothing => Put(s, t, pc)
    case TakeMu => Put(s, t, pc).(mu := Some(t))
    case FreeMu => Put(s, t, pc).(mu := None)
    case TakeRows => Put(s, t, pc).(rows := Some(t))
    case FreeRows => Put(s, t, pc).(rows := None)
    case AddRef => DoAddRef(s, t, pc)
    case TakeGate => Put(s, t, pc).(owner := s.owner[x.gate := t])
    case FreeGate => Put(s, t, pc).(owner := s.owner - {x.gate})
    case SubRef => DoSubRef(s, t, pc)
    case Launch => DoLaunch(s, t, child)
    case Unregister => Put(s, t, pc).(flights := s.flights - {x.alias}, mu := None)
  }

  /** The flight has closed its done channel. */
  predicate Over(s: State, pc: Pc) {
    pc.AwaitFlight? && pc.flight in s.threads
    && (s.threads[pc.flight].pc.Unregistered? || s.threads[pc.flight].pc.Unref? || s.threads[pc.flight].pc.Finished?)
  }

  function PlanAt(s: State, t: nat, choice: bool, child: nat): Plan
    requires t in s.threads
  {
    var x := s.threads[t];
    PlanOf(x.pc, choice, x.alias in s.flights, Over(s, x.pc), child)
  }

  /** One step of thread t; None when it is blocked or finished. */
  function Step(s: State, t: nat, choice: bool, child: nat): Option<State>
    requires t in s.threads && child !in s.threads
  {
    var p := PlanAt(s, t, choice, child);
    if p.Blocked? || Blocks(s, s.threads[t], p.effect) then None else Some(DoEffect(s, t, p.effect, p.pc, child))
  }

  datatype Act = Spawn(child: nat, pc: Pc, alias: string) | Move(t: nat, choice: bool, child: nat)

  function Do(s: State, a: Act): Option<State> {
    match a
    case Spawn(child, pc, alias) =>
      if child in s.threads || !StartPc(pc) then None else Some(s.(threads := s.threads[child := Thread(pc, alias, 0)]))
    case Move(t, choice, child) =>
      if t !in s.threads || child in s.threads then None else Step(s, t, choice, child)
  }

  function Run(s: State, acts: seq<Act>): Option<State>
    decreases acts
  {
    if acts == [] then Some(s)
    else if Do(s, acts[0]).None? then None
    else Run(Do(s, acts[0]).value, acts[1..])
  }

  // ---- Who holds what, by program counter ----

  predicate HoldsMu(pc: Pc) {
    pc.HasMu? || pc.WaitGateInMu? || pc.Journaling? || pc.UnrefInMu? || pc.LeaveMu? || pc.Unregistering?
    || pc.QueryInMu?
  }

  predicate HoldsRows(pc: Pc) { pc.FlightInRows? || pc.RemoveInRows? || pc.InRows? }

  /** A registered flight: it holds its gate and still needs the manager mutex. */
  predicate Flying(pc: Pc) {
    pc.Working? || pc.FlightWantsRows? || pc.FlightInRows? || pc.WantMuToEnd? || pc.Unregistering?
  }

  predicate HoldsGate(pc: Pc) {
    Flying(pc) || pc.Journaling? || pc.Unregistered? || pc.RemoveWantsRows? || pc.RemoveInRows? || pc.RemoveDone?
  }

  /** The thread counts in the references of its gate. */
  predicate HasRef(pc: Pc) { HoldsGate(pc) || pc.WaitGateInMu? || pc.UnrefInMu? || pc.WaitGate? || pc.Unref? }

  predicate Refers(s: State, t: nat, g: nat) { t in s.threads && HasRef(s.threads[t].pc) && s.threads[t].gate == g }

  function Referrers(s: State, g: nat): set<nat> { set t | t in s.threads && Refers(s, t, g) }

  /** A Commit that has found no flight on its alias and still holds the manager mutex. */
  predicate PastCheck(pc: Pc) { pc.WaitGateInMu? || pc.Journaling? }

  // How an effect moves a thread between these classes.

  predicate MuMatch(e: Effect, p: Pc, q: Pc) {
    && (HoldsMu(q) <==> e.TakeMu? || (HoldsMu(p) && !e.FreeMu? && !e.Launch? && !e.Unregister?))
    && (e.TakeMu? ==> !HoldsMu(p)) && (e.FreeMu? || e.Launch? || e.Unregister? ==> HoldsMu(p))
  }

  predicate RowsMatch(e: Effect, p: Pc, q: Pc) {
    && (HoldsRows(q) <==> e.TakeRows? || (HoldsRows(p) && !e.FreeRows?))
    && (e.TakeRows? ==> !HoldsRows(p)) && (e.FreeRows? ==> HoldsRows(p))
  }

  predicate GateMatch(e: Effect, p: Pc, q: Pc) {
    && (HoldsGate(q) <==> e.TakeGate? || (HoldsGate(p) && !e.FreeGate? && !e.Launch?))
    && (e.TakeGate? || e.AddRef? || e.SubRef? ==> !HoldsGate(p)) && (e.FreeGate? || e.Launch? ==> HoldsGate(p))
  }

  predicate RefMatch(e: Effect, p: Pc, q: Pc) {
    && (HasRef(q) <==> e.AddRef? || (HasRef(p) && !e.SubRef? && !e.Launch?))
    && (e.AddRef? ==> !HasRef(p)) && (e.SubRef? || e.Launch? ==> HasRef(p))
  }

  predicate FlightMatch(e: Effect, p: Pc, q: Pc) {
    && (Flying(q) <==> Flying(p) && !e.Unregister?) && (e.Unregister? ==> Flying(p)) && (e.Launch? ==> PastCheck(p))
    && (PastCheck(q) ==> !e.Launch? && (PastCheck(p) || e.AddRef?))
  }

  predicate MayBeAwaited(pc: Pc) { Flying(pc) || pc.Unregistered? || pc.Unref? || pc.Finished? }

  predicate AwaitMatch(e: Effect, p: Pc, q: Pc, child: nat) {
    && (MayBeAwaited(p) ==> MayBeAwaited(q))
    && (q.AwaitFlight? <==> e.Launch?) && (e.Launch? ==> q == AwaitFlight(child))
  }

  lemma PlansMatchMu(pc: Pc, choice: bool, registered: bool, flightOver: bool, child: nat)
    ensures var p := PlanOf(pc, choice, registered, flightOver, child);
      p.Next? ==> MuMatch(p.effect, pc, p.pc)
  {}

  lemma PlansMatchRows(pc: Pc, choice: bool, registered: bool, flightOver: bool, child: nat)
    ensures var p := PlanOf(pc, choice, registered, flightOver, child);
      p.Next? ==> RowsMatch(p.effect, pc, p.pc)
  {}

  lemma PlansMatchGates(pc: Pc, choice: bool, registered: bool, flightOver: bool, child: nat)
    ensures var p := PlanOf(pc, choice, registered, flightOver, child);
      p.Next? ==> GateMatch(p.effect, pc, p.pc)
  {}

  lemma PlansMatchRefs(pc: Pc, choice: bool, registered: bool, flightOver: bool, child: nat)
    ensures var p := PlanOf(pc, choice, registered, flightOver, child);
      p.Next? ==> RefMatch(p.effect, pc, p.pc)
  {}

  lemma PlansMatchFlights(pc: Pc, choice: bool, registered: bool, flightOver: bool, child: nat)
    ensures var p := PlanOf(pc, choice, registered, flightOver, child);
      p.Next? ==> FlightMatch(p.effect, pc, p.pc) && (p.effect.AddRef? && PastCheck(p.pc) ==> !registered)
  {}

  lemma PlansMatchAwaits(pc: Pc, choice: bool, registered: bool, flightOver: bool, child: nat)
    ensures var p := PlanOf(pc, choice, registered, flightOver, child);
      p.Next? ==> AwaitMatch(p.effect, pc, p.pc, child)
  {}

  /** The state after an effect, field by field. */
  lemma EffectFacts(s: State, t: nat, e: Effect, pc: Pc, child: nat)
    requires t in s.threads && child !in s.threads && (e.Launch? ==> pc == AwaitFlight(child))
    ensures var s' := DoEffect(s, t, e, pc, child); var x := s.threads[t];
      && s'.threads.Keys == s.threads.Keys + (if e.Launch? then {child} else {})
      && (forall u | u in s.threads && u != t :: s'.threads[u] == s.threads[u])
      && s'.threads[t] == Thread(pc, x.alias, if e.AddRef? then GateOf(s, x.alias) else x.gate)
      && (e.Launch? ==> s'.threads[child] == Thread(Working, x.alias, x.gate))
      && s'.mu == (if e.TakeMu? then Some(t) else if e.FreeMu? || e.Launch? || e.Unregister? then None else s.mu)
      && s'.rows == (if e.TakeRows? then Some(t) else if e.FreeRows? then None else s.rows)
      && s'.owner == (if e.TakeGate? then s.owner[x.gate := t] else if e.Launch? then s.owner[x.gate := child]
                      else if e.FreeGate? then s.owner - {x.gate} else s.owner)
      && s'.flights == (if e.Launch? then s.flights[x.alias := child] else if e.Unregister?
          then s.flights - {x.alias} else s.flights)
  {}

  ghost predicate MuInv(s: State) {
    && (forall t | t in s.threads :: HoldsMu(s.threads[t].pc) <==> s.mu == Some(t))
    && (s.mu.Some? ==> s.mu.value in s.threads)
  }

  ghost predicate RowsInv(s: State) {
    && (forall t | t in s.threads :: HoldsRows(s.threads[t].pc) <==> s.rows == Some(t))
    && (s.rows.Some? ==> s.rows.value in s.threads)
  }

  ghost predicate HoldersOwn(s: State) {
    forall t | t in s.threads && HoldsGate(s.threads[t].pc) ::
        s.threads[t].gate in s.owner && s.owner[s.threads[t].gate] == t
  }

  ghost predicate OwnersHold(s: State) {
    forall g | g in s.owner :: var t := s.owner[g];
        t in s.threads && HoldsGate(s.threads[t].pc) && s.threads[t].gate == g
  }

  ghost predicate OwnerInv(s: State) { HoldersOwn(s) && OwnersHold(s) }

  /** Everybody who refers to a gate found it in the table under its alias. */
  ghost predicate SharedInv(s: State) {
    && (forall t | t in s.threads && HasRef(s.threads[t].pc) ::
          s.threads[t].alias in s.aliases && s.aliases[s.threads[t].alias] == s.threads[t].gate)
    && (forall a | a in s.aliases :: s.aliases[a] < s.nextGate)
    && (forall a, b | a in s.aliases && b in s.aliases && s.aliases[a] == s.aliases[b] :: a == b)
    && (forall t | t in s.threads && HasRef(s.threads[t].pc) :: s.threads[t].gate < s.nextGate)
  }

  /** The count of a gate in the table is the number of threads that refer to it. */
  ghost predicate CountInv(s: State) {
    forall a | a in s.aliases :: Counted(s, s.aliases[a])
  }

  predicate Counted(s: State, g: nat) { RefsOf(s, g) == |Referrers(s, g)| > 0 }

  /** The flight table holds exactly the registered flights; a Commit past its check has none on its alias. */
  ghost predicate FlightInv(s: State) {
    && (forall t | t in s.threads && Flying(s.threads[t].pc) ::
        s.threads[t].alias in s.flights && s.flights[s.threads[t].alias] == t)
    && (forall t | t in s.threads && PastCheck(s.threads[t].pc) :: s.threads[t].alias !in s.flights)
  }

  ghost predicate AwaitInv(s: State) {
    forall t | t in s.threads && s.threads[t].pc.AwaitFlight? ::
      s.threads[t].pc.flight in s.threads && MayBeAwaited(s.threads[s.threads[t].pc.flight].pc)
  }

  ghost predicate Inv(s: State) {
    MuInv(s) && RowsInv(s) && OwnerInv(s) && SharedInv(s) && CountInv(s) && FlightInv(s) && AwaitInv(s)
  }

  // ---- Every effect keeps the invariant ----

  lemma MuKept(s: State, t: nat, e: Effect, pc: Pc, child: nat)
    requires MuInv(s) && t in s.threads && child !in s.threads && MuMatch(e, s.threads[t].pc, pc)
    requires e.Launch? ==> pc == AwaitFlight(child)
    requires e.TakeMu? ==> s.mu.None?
    ensures MuInv(DoEffect(s, t, e, pc, child))
  {
    assert !HoldsMu(Working);
    hide HoldsMu, HoldsRows, HoldsGate, HasRef, Flying, PastCheck, DoEffect, MayBeAwaited;
    EffectFacts(s, t, e, pc, child);
  }

  lemma RowsKept(s: State, t: nat, e: Effect, pc: Pc, child: nat)
    requires RowsInv(s) && t in s.threads && child !in s.threads && RowsMatch(e, s.threads[t].pc, pc)
    requires e.Launch? ==> pc == AwaitFlight(child)
    requires e.TakeRows? ==> s.rows.None?
    ensures RowsInv(DoEffect(s, t, e, pc, child))
  {
    assert !HoldsRows(Working);
    hide HoldsMu, HoldsRows, HoldsGate, HasRef, Flying, PastCheck, DoEffect, MayBeAwaited;
    EffectFacts(s, t, e, pc, child);
  }

  lemma HoldersKept(s: State, t: nat, e: Effect, pc: Pc, child: nat)
    requires OwnerInv(s) && t in s.threads && child !in s.threads && GateMatch(e, s.threads[t].pc, pc)
    requires e.Launch? ==> pc == AwaitFlight(child)
    requires e.TakeGate? ==> s.threads[t].gate !in s.owner
    ensures HoldersOwn(DoEffect(s, t, e, pc, child))
  {
    assert HoldsGate(Working);
    hide HoldsMu, HoldsRows, HoldsGate, HasRef, Flying, PastCheck, DoEffect, MayBeAwaited;
    EffectFacts(s, t, e, pc, child);
  }

  lemma OwnersKept(s: State, t: nat, e: Effect, pc: Pc, child: nat)
    requires OwnerInv(s) && t in s.threads && child !in s.threads && GateMatch(e, s.threads[t].pc, pc)
    requires e.Launch? ==> pc == AwaitFlight(child)
    requires e.TakeGate? ==> s.threads[t].gate !in s.owner
    ensures OwnersHold(DoEffect(s, t, e, pc, child))
  {
    assert HoldsGate(Working);
    hide HoldsMu, HoldsRows, HoldsGate, HasRef, Flying, PastCheck, DoEffect, MayBeAwaited;
    EffectFacts(s, t, e, pc, child);
  }

  lemma OwnerKept(s: State, t: nat, e: Effect, pc: Pc, child: nat)
    requires OwnerInv(s) && t in s.threads && child !in s.threads && GateMatch(e, s.threads[t].pc, pc)
    requires e.Launch? ==> pc == AwaitFlight(child)
    requires e.TakeGate? ==> s.threads[t].gate !in s.owner
    ensures OwnerInv(DoEffect(s, t, e, pc, child))
  {
    hide DoEffect, GateMatch;
    HoldersKept(s, t, e, pc, child);
    OwnersKept(s, t, e, pc, child);
  }

  lemma FlightKept(s: State, t: nat, e: Effect, pc: Pc, child: nat)
    requires FlightInv(s) && t in s.threads && child !in s.threads && FlightMatch(e, s.threads[t].pc, pc)
    requires e.Launch? ==> pc == AwaitFlight(child)
    requires e.AddRef? && PastCheck(pc) ==> s.threads[t].alias !in s.flights
    requires PastCheck(s.threads[t].pc) ==> forall u | u in s.threads && PastCheck(s.threads[u].pc) :: u == t
    ensures FlightInv(DoEffect(s, t, e, pc, child))
  {
    assert Flying(Working) && !PastCheck(Working);
    hide HoldsMu, HoldsRows, HoldsGate, HasRef, Flying, PastCheck, DoEffect, MayBeAwaited;
    EffectFacts(s, t, e, pc, child);
    var s' := DoEffect(s, t, e, pc, child);
    forall u | u in s'.threads && Flying(s'.threads[u].pc)
      ensures s'.threads[u].alias in s'.flights && s'.flights[s'.threads[u].alias] == u
    {
      if u != child && u != t { assert Flying(s.threads[u].pc); }
    }
    forall u | u in s'.threads && PastCheck(s'.threads[u].pc) ensures s'.threads[u].alias !in s'.flights {
      if u != child && u != t { assert PastCheck(s.threads[u].pc); }
    }
  }

  lemma AwaitKept(s: State, t: nat, e: Effect, pc: Pc, child: nat)
    requires AwaitInv(s) && t in s.threads && child !in s.threads && AwaitMatch(e, s.threads[t].pc, pc, child)
    requires e.Launch? ==> pc == AwaitFlight(child)
    ensures AwaitInv(DoEffect(s, t, e, pc, child))
  {
    assert MayBeAwaited(Working);
    hide HoldsMu, HoldsRows, HoldsGate, HasRef, Flying, PastCheck, DoEffect, MayBeAwaited;
    EffectFacts(s, t, e, pc, child);
  }

  lemma TableFacts(s: State, t: nat, e: Effect, pc: Pc, child: nat)
    requires t in s.threads
    ensures var s' := DoEffect(s, t, e, pc, child); var x := s.threads[t]; var g := GateOf(s, x.alias);
      && (!e.AddRef? && !e.SubRef? ==> s'.aliases == s.aliases && s'.refs == s.refs)
      && (!e.AddRef? ==> s'.nextGate == s.nextGate)
      && (e.AddRef? ==> (
            && s'.aliases == s.aliases[x.alias := g]
            && s'.refs == s.refs[g := (if x.alias in s.aliases then RefsOf(s, g) else 0) + 1]
            && s'.nextGate == if x.alias in s.aliases then s.nextGate else s.nextGate + 1))
      && (e.SubRef? && RefsOf(s, x.gate) > 0 ==> (
            && s'.refs == s.refs[x.gate := RefsOf(s, x.gate) - 1]
            && s'.aliases == if RefsOf(s, x.gate) == 1 then s.aliases - {x.alias} else s.aliases))
  {}

  /** Which threads refer to a gate after an effect. */
  lemma ReferrersAfter(s: State, t: nat, e: Effect, pc: Pc, child: nat, g: nat)
    requires t in s.threads && child !in s.threads && RefMatch(e, s.threads[t].pc, pc)
    requires e.Launch? ==> pc == AwaitFlight(child)
    ensures var before, after := Referrers(s, g), Referrers(DoEffect(s, t, e, pc, child), g); var x := s.threads[t];
      after == if e.AddRef? then (if g == GateOf(s, x.alias) then before + {t} else before)
               else if e.SubRef? then before - {t}
               else if e.Launch? && x.gate == g then before - {t} + {child}
               else before
    ensures t in Referrers(s, g) <==> HasRef(s.threads[t].pc) && s.threads[t].gate == g
    ensures child !in Referrers(s, g)
  {
    assert HasRef(Working);
    hide HasRef, DoEffect;
    EffectFacts(s, t, e, pc, child);
  }

  lemma SharedKept(s: State, t: nat, e: Effect, pc: Pc, child: nat)
    requires SharedInv(s) && CountInv(s) && t in s.threads && child !in s.threads && RefMatch(e, s.threads[t].pc, pc)
    requires e.Launch? ==> pc == AwaitFlight(child)
    ensures SharedInv(DoEffect(s, t, e, pc, child))
  {
    hide HasRef, DoEffect, CountInv, Referrers, SharedInv;
    if e.SubRef? { LastReferrer(s, t); }
    EffectFacts(s, t, e, pc, child);
    TableFacts(s, t, e, pc, child);
    match e
    case AddRef => SharedAfterAdd(s, DoEffect(s, t, e, pc, child), t);
    case SubRef => SharedAfterSub(s, DoEffect(s, t, e, pc, child), t);
    case _ => SharedAfterOther(s, DoEffect(s, t, e, pc, child), t, child);
  }

  lemma SharedAfterOther(s: State, s': State, t: nat, child: nat)
    requires SharedInv(s) && t in s.threads && child !in s.threads && s'.nextGate == s.nextGate
        && s'.aliases == s.aliases
    requires s.threads.Keys <= s'.threads.Keys <= s.threads.Keys + {child}
    requires forall u | u in s.threads && u != t :: s'.threads[u] == s.threads[u]
    requires s'.threads[t].alias == s.threads[t].alias && s'.threads[t].gate == s.threads[t].gate
    requires HasRef(s'.threads[t].pc) || child in s'.threads ==> HasRef(s.threads[t].pc)
    requires child in s'.threads
        ==> s'.threads[child].alias == s.threads[t].alias && s'.threads[child].gate == s.threads[t].gate
    ensures SharedInv(s')
  {
    hide HasRef;
  }

  lemma SharedAfterAdd(s: State, s': State, t: nat)
    requires SharedInv(s) && t in s.threads && s'.threads.Keys == s.threads.Keys
    requires forall u | u in s.threads && u != t :: s'.threads[u] == s.threads[u]
    requires var x := s.threads[t]; var g := GateOf(s, x.alias);
      && s'.threads[t].alias == x.alias && s'.threads[t].gate == g && s'.aliases == s.aliases[x.alias := g]
      && s'.nextGate == if x.alias in s.aliases then s.nextGate else s.nextGate + 1
    ensures SharedInv(s')
  {
    hide HasRef;
  }

  lemma SharedAfterSub(s: State, s': State, t: nat)
    requires SharedInv(s) && t in s.threads && s'.threads.Keys == s.threads.Keys && s'.nextGate == s.nextGate
    requires forall u | u in s.threads && u != t :: s'.threads[u] == s.threads[u]
    requires s'.threads[t].alias == s.threads[t].alias && s'.threads[t].gate == s.threads[t].gate
        && !HasRef(s'.threads[t].pc)
    requires HasRef(s.threads[t].pc)
    requires s'.aliases == s.aliases || (s'.aliases == s.aliases - {s.threads[t].alias}
      && forall u | u in s.threads && HasRef(s.threads[u].pc) && s.threads[u].gate == s.threads[t].gate :: u == t)
    ensures SharedInv(s')
  {
    hide HasRef;
  }

  /** Somebody refers to the gate, so it is counted; at one, nobody else does. */
  lemma LastReferrer(s: State, t: nat)
    requires SharedInv(s) && CountInv(s) && t in s.threads && HasRef(s.threads[t].pc)
    ensures var g := s.threads[t].gate; RefsOf(s, g) == |Referrers(s, g)| > 0
    ensures RefsOf(s, s.threads[t].gate) == 1 ==>
      forall u | u in s.threads && HasRef(s.threads[u].pc) && s.threads[u].gate == s.threads[t].gate :: u == t
  {
    hide HasRef;
    var g := s.threads[t].gate;
    var others := Referrers(s, g) - {t};
    assert t in Referrers(s, g) && Referrers(s, g) == others + {t};
    if RefsOf(s, g) == 1 {
      assert others == {};
      forall u | u in s.threads && HasRef(s.threads[u].pc) && s.threads[u].gate == g ensures u == t {
        assert u in Referrers(s, g);
      }
    }
  }

  lemma CountKept(s: State, t: nat, e: Effect, pc: Pc, child: nat)
    requires SharedInv(s) && CountInv(s) && t in s.threads && child !in s.threads && RefMatch(e, s.threads[t].pc, pc)
    requires e.Launch? ==> pc == AwaitFlight(child)
    ensures CountInv(DoEffect(s, t, e, pc, child))
  {
    hide DoEffect, SharedInv;
    forall a | a in DoEffect(s, t, e, pc, child).aliases
      ensures Counted(DoEffect(s, t, e, pc, child), DoEffect(s, t, e, pc, child).aliases[a])
    {
      CountKeptAt(s, t, e, pc, child, a);
    }
  }

  lemma CountKeptAt(s: State, t: nat, e: Effect, pc: Pc, child: nat, a: string)
    requires SharedInv(s) && CountInv(s) && t in s.threads && child !in s.threads && RefMatch(e, s.threads[t].pc, pc)
    requires e.Launch? ==> pc == AwaitFlight(child)
    requires a in DoEffect(s, t, e, pc, child).aliases
    ensures Counted(DoEffect(s, t, e, pc, child), DoEffect(s, t, e, pc, child).aliases[a])
  {
    if e.SubRef? { LastReferrer(s, t); }
    hide HasRef, DoEffect, Referrers;
    var s' := DoEffect(s, t, e, pc, child);
    TableFacts(s, t, e, pc, child);
    ReferrersAfter(s, t, e, pc, child, s'.aliases[a]);
    match e
    case AddRef => CountAfterAdd(s, s', t, a);
    case SubRef => CountAfterSub(s, s', t, a);
    case _ => assert Counted(s, s.aliases[a]);
  }

  lemma CountAfterAdd(s: State, s': State, t: nat, a: string)
    requires SharedInv(s) && CountInv(s) && t in s.threads && a in s'.aliases && t !in Referrers(s, s'.aliases[a])
    requires var x := s.threads[t]; var g := GateOf(s, x.alias);
      && s'.aliases == s.aliases[x.alias := g]
      && s'.refs == s.refs[g := (if x.alias in s.aliases then RefsOf(s, g) else 0) + 1]
      && Referrers(s', s'.aliases[a]) == if s'.aliases[a] == g then Referrers(s, g) + {t}
          else Referrers(s, s'.aliases[a])
    ensures Counted(s', s'.aliases[a])
  {
    var x := s.threads[t];
    NoReferrers(s, s.nextGate);
    OtherAliasOtherGate(s, x.alias, a);
    hide HasRef, Referrers, SharedInv;
    if a != x.alias {
      assert Counted(s, s.aliases[a]);
    } else {
      if a in s.aliases { assert Counted(s, s.aliases[a]); }
      assert t !in Referrers(s, s'.aliases[a]);
    }
  }

  lemma OtherAliasOtherGate(s: State, alias: string, a: string)
    requires SharedInv(s)
    ensures a != alias && a in s.aliases ==> s.aliases[a] != GateOf(s, alias)
  {
    hide HasRef;
  }

  lemma CountAfterSub(s: State, s': State, t: nat, a: string)
    requires SharedInv(s) && CountInv(s) && t in s.threads && HasRef(s.threads[t].pc) && a in s'.aliases
    requires t in Referrers(s, s'.aliases[a]) <==> s.threads[t].gate == s'.aliases[a]
    requires var x := s.threads[t];
      && RefsOf(s, x.gate) > 0 && s'.refs == s.refs[x.gate := RefsOf(s, x.gate) - 1]
      && s'.aliases == (if RefsOf(s, x.gate) == 1 then s.aliases - {x.alias} else s.aliases)
      && Referrers(s', s'.aliases[a]) == Referrers(s, s'.aliases[a]) - {t}
    ensures Counted(s', s'.aliases[a])
  {
    hide HasRef, Referrers;
    assert Counted(s, s.aliases[a]);
    if s.aliases[a] != s.threads[t].gate {
      assert Referrers(s', s'.aliases[a]) == Referrers(s, s'.aliases[a]);
    }
  }

  lemma NoReferrers(s: State, g: nat)
    requires SharedInv(s) && g >= s.nextGate
    ensures Referrers(s, g) == {}
  {
    hide HasRef;
  }
}
