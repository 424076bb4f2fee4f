/** The manager as it updates its files and its memory, many sessions at a time. Methods run to the end
    here; what happens when they interleave or are cut short is BackgroundRace's subject. */
module BackgroundManager {
  import opened Prelude
  import opened BackgroundDisk
  import opened BackgroundRace
  import opened BackgroundSafety
  import BackgroundTheorems

  /** What the session store and the profile resolver answer. */
  datatype SessionAnswer = Missing | Live | Canceled
  datatype ProfileAnswer = Unknown | Untrusted(hash: string) | Trusted(hash: string)

  datatype Reservation = Taken | Busy | Closing

  /** A blocked start says whether it was recorded. */
  datatype StartEnd = StartRefused | AlreadyRunning | StartBlocked(recorded: bool) | StartFailed | Launched

  /** Stopped, but the error the worker ended with could not be recorded. */
  datatype StopEnd = StopRefused | StopFailed | StopStopped | StopDegraded

  /** How a worker ended: the manager shut down, the session was canceled, its queue was drained, or it failed. */
  datatype WorkerEnd = ManagerClosed | SessionCanceled | QueueDrained | DrainFailed(outcome: Outcome)

  function TermRank(pc: TermPc): nat {
    match pc
    case TPut => 6 case TState => 5 case TAudit(_) => 4 case TFinal => 3 case TClear => 2 case TDegrade => 1
    case TOk => 0 case TFail => 0
  }

  /** persistTerminalTransition as the run of its sub-steps, the k-th write ending as script(k) says. */
  ghost function TermRun(sid: string, d: Slice, pc: TermPc, t: Transition, script: nat -> Write, n: nat)
    : (Slice, TermPc, nat)
    decreases TermRank(pc)
  {
    if pc.Over() then (d, pc, n)
    else
      var (d', pc') := TermStep(sid, d, pc, t, script(n));
      TermRun(sid, d', pc', t, script, n + 1)
  }

  /** The slice a disk shows of one session. */
  function Slicing(policies: map<string, Policy>, journal: map<string, Transition>, audit: seq<Record>,
                   sid: string): Slice {
    Slice(if sid in policies then Some(policies[sid]) else None, if sid in journal then Some(journal[sid]) else None,
        audit)
  }

  ghost predicate DiskOk(policies: map<string, Policy>, journal: map<string, Transition>, audit: seq<Record>,
                         minted: map<string, Record>) {
    && (forall r <- audit :: r.id in minted && minted[r.id] == r)
    && (forall sid <- journal :: Good(sid, minted, journal[sid]))
    && (forall sid :: DiskInv(sid, Slicing(policies, journal, audit, sid)))
  }

  /** Random event ids never repeat, and those not drawn yet are new. */
  ghost predicate FreshIds(eventId: nat -> string, drawn: nat, minted: map<string, Record>) {
    && (forall j: nat, k: nat :: j != k ==> eventId(j) != eventId(k))
    && (forall k: nat :: drawn <= k ==> eventId(k) !in minted)
  }

  /** Every id in use was so before or was drawn. */
  ghost predicate DrawnIds(before: map<string, Record>, minted: map<string, Record>, eventId: nat -> string) {
    forall id <- minted :: id in before || exists k: nat :: id == eventId(k)
  }

  /** The one-session machine state that a slice stands for, for the lemmas of BackgroundSafety. */
  ghost function AsState(d: Slice, minted: map<string, Record>): State {
    State(d, INIT_MEM, map[], map[], map[], None, None, minted, false)
  }

  predicate Within(minted: map<string, Record>, all: map<string, Record>) {
    forall id <- minted :: id in all && all[id] == minted[id]
  }

  /** Some run of the session's machine ends with what these files show of the session; other sessions may have drawn
      ids too. */
  ghost predicate Left(sid: string, policies: map<string, Policy>, journal: map<string, Transition>, audit: seq<Record>,
                       minted: map<string, Record>) {
    exists s :: BackgroundTheorems.Reachable(sid, s) && s.disk == Slicing(policies, journal, audit, sid)
        && Within(s.minted, minted)
  }

  /** Files that show each session as some run of its machine leaves it, at whatever step a crash cuts the run off,
      are files that a new manager can resume from. */
  lemma EveryCrashPointCanResume(policies: map<string, Policy>, journal: map<string, Transition>, audit: seq<Record>,
                                 minted: map<string, Record>)
    requires forall sid: string :: Left(sid, policies, journal, audit, minted)
    ensures DiskOk(policies, journal, audit, minted)
  {
    hide DiskInv, MintInv;
    forall sid: string ensures DiskInv(sid, Slicing(policies, journal, audit, sid))
                       ensures MintInv(sid, AsState(Slicing(policies, journal, audit, sid), minted)) {
      LeftIsOk(sid, policies, journal, audit, minted);
    }
    MintsAreOk(policies, journal, audit, minted);
  }

  lemma LeftIsOk(sid: string, policies: map<string, Policy>, journal: map<string, Transition>, audit: seq<Record>,
                 minted: map<string, Record>)
    requires Left(sid, policies, journal, audit, minted)
    ensures DiskInv(sid, Slicing(policies, journal, audit, sid))
    ensures MintInv(sid, AsState(Slicing(policies, journal, audit, sid), minted))
  {
    var s :| BackgroundTheorems.Reachable(sid, s) && s.disk == Slicing(policies, journal, audit, sid)
        && Within(s.minted, minted);
    BackgroundTheorems.ReachableInv(sid, s);
    hide DiskInv;
  }

  lemma MintsAreOk(policies: map<string, Policy>, journal: map<string, Transition>, audit: seq<Record>,
                   minted: map<string, Record>)
    requires forall sid: string :: MintInv(sid, AsState(Slicing(policies, journal, audit, sid), minted))
    ensures forall r <- audit :: r.id in minted && minted[r.id] == r
    ensures forall sid <- journal :: Good(sid, minted, journal[sid])
  {
    assert MintInv("", AsState(Slicing(policies, journal, audit, ""), minted));
    forall sid <- journal ensures Good(sid, minted, journal[sid]) {
      assert MintInv(sid, AsState(Slicing(policies, journal, audit, sid), minted));
    }
  }

  /** The maps differ in session sid at most, and the log grew by a record of that session at most. */
  ghost predicate OnlySession(sid: string, p: map<string, Policy>, j: map<string, Transition>, a: seq<Record>,
                              p': map<string, Policy>, j': map<string, Transition>, a': seq<Record>) {
    && p' - {sid} == p - {sid} && j' - {sid} == j - {sid}
    && (a' == a || (|a'| == |a| + 1 && a' == a + [a'[|a|]] && a'[|a|].session == sid))
  }

  /** A change of one session that keeps that session's invariant keeps everyone's. */
  lemma SessionChange(sid: string, minted: map<string, Record>,
                      p: map<string, Policy>, j: map<string, Transition>, a: seq<Record>,
                      p': map<string, Policy>, j': map<string, Transition>, a': seq<Record>)
    requires DiskOk(p, j, a, minted) && OnlySession(sid, p, j, a, p', j', a')
    requires DiskInv(sid, Slicing(p', j', a', sid)) && MintInv(sid, AsState(Slicing(p', j', a', sid), minted))
    ensures DiskOk(p', j', a', minted)
  {
    forall other <- j' ensures Good(other, minted, j'[other]) {
      if other != sid { assert other in j' - {sid} && other in j && j[other] == (j - {sid})[other] == j'[other]; }
    }
    forall other: string ensures DiskInv(other, Slicing(p', j', a', other)) {
      var before := Slicing(p, j, a, other);
      assert DiskInv(other, before);
      if other != sid {
        assert other in p <==> other in p' - {sid};
        assert other in p ==> p[other] == (p - {sid})[other] == p'[other];
        assert other in j <==> other in j' - {sid};
        assert other in j ==> j[other] == (j - {sid})[other] == j'[other];
        if a' != a { LastForAppend(a, a'[|a|], other); }
        if before.policy.Some? && !before.Enabled() && !before.policy.value.degraded {
          var q :| q in a && Matches(other, before.policy.value, q);
          assert q in a';
        }
      }
    }
  }

  lemma TermTaken(sid: string, minted: map<string, Record>, pc: TermPc, t: Transition, w: Write,
                  p: map<string, Policy>, j: map<string, Transition>, a: seq<Record>,
                  p': map<string, Policy>, j': map<string, Transition>, a': seq<Record>)
    requires DiskOk(p, j, a, minted) && !pc.Over() && OnlySession(sid, p, j, a, p', j', a')
    requires TermInv(sid, AsState(Slicing(p, j, a, sid), minted), pc, t)
    requires Slicing(p', j', a', sid) == TermStep(sid, Slicing(p, j, a, sid), pc, t, w).0
    ensures DiskOk(p', j', a', minted)
    ensures TermInv(sid, AsState(Slicing(p', j', a', sid), minted), TermStep(sid, Slicing(p, j, a, sid), pc, t, w).1, t)
  {
    hide DiskInv, TermStep;
    var d := Slicing(p, j, a, sid);
    assert DiskInv(sid, d);
    TermStepSafe(sid, AsState(d, minted), pc, t, w);
    assert AsState(d, minted).(disk := Slicing(p', j', a', sid)) == AsState(Slicing(p', j', a', sid), minted);
    SessionChange(sid, minted, p, j, a, p', j', a');
  }

  lemma TermStart(sid: string, put: bool, t: Transition, d: Slice, minted: map<string, Record>)
    requires Good(sid, minted, t) && (put || d.journal.Some?)
    ensures TermInv(sid, AsState(d, minted), if put then TPut else TState, t)
  {
  }

  lemma TermEnd(sid: string, t: Transition, d: Slice, minted: map<string, Record>)
    requires TermInv(sid, AsState(d, minted), TOk, t)
    ensures RecordOf(sid, t) in d.audit
  {
  }

  lemma LaunchTaken(sid: string, minted: map<string, Record>, pc: LaunchPc, t: Transition, w: Write,
                    p: map<string, Policy>, j: map<string, Transition>, a: seq<Record>,
                    p': map<string, Policy>, j': map<string, Transition>, a': seq<Record>)
    requires DiskOk(p, j, a, minted) && !pc.Over() && OnlySession(sid, p, j, a, p', j', a')
    requires LaunchInv(sid, AsState(Slicing(p, j, a, sid), minted), pc, t)
    requires Slicing(p', j', a', sid) == LaunchStep(sid, Slicing(p, j, a, sid), pc, t, w).0
    ensures DiskOk(p', j', a', minted)
    ensures var pc' := LaunchStep(sid, Slicing(p, j, a, sid), pc, t, w).1;
            !pc'.LFail? ==> LaunchInv(sid, AsState(Slicing(p', j', a', sid), minted), pc', t)
  {
    hide DiskInv, LaunchStep;
    var d := Slicing(p, j, a, sid);
    assert DiskInv(sid, d);
    LaunchStepSafe(sid, AsState(d, minted), pc, t, w);
    assert AsState(d, minted).(disk := Slicing(p', j', a', sid)) == AsState(Slicing(p', j', a', sid), minted);
    SessionChange(sid, minted, p, j, a, p', j', a');
  }

  lemma LaunchStart(sid: string, t: Transition, d: Slice, minted: map<string, Record>)
    requires Good(sid, minted, t) && t.policy.enabled && !t.action.Terminal() && !HasId(d.audit, t.id)
    requires t.action.Resume? ==> d.Enabled()
    ensures LaunchInv(sid, AsState(d, minted), LPut, t)
  {
  }

  ghost predicate Faultless(script: nat -> Write, n: nat) { forall k: nat :: n <= k ==> script(k).Confirmed? }

  /** No write fails from now on, and event ids are not blank. */
  ghost predicate Untroubled(script: nat -> Write, n: nat, eventId: nat -> string) {
    Faultless(script, n) && forall k: nat :: !Blank(eventId(k))
  }

  /** The n-th write fails, as the only one from this one on, and event ids are not blank. */
  ghost predicate FailsOnceAt(script: nat -> Write, from: nat, n: nat, eventId: nat -> string) {
    && from <= n && (forall k | from <= k < n :: script(k).Confirmed?) && !script(n).Confirmed?
    && Untroubled(script, n + 1, eventId)
  }

  /** With no failing write, a terminal transition that can be audited is persisted. */
  lemma {:induction false} FaultlessTermRun(sid: string, d: Slice, pc: TermPc, t: Transition, script: nat -> Write,
                                            n: nat)
    requires Faultless(script, n) && ValidRecord(RecordOf(sid, t)) && pc !in {TFail, TDegrade, TAudit(false)}
    ensures TermRun(sid, d, pc, t, script, n).1 == TOk
    decreases TermRank(pc)
  {
    if !pc.Over() {
      var (d', pc') := TermStep(sid, d, pc, t, script(n));
      FaultlessTermRun(sid, d', pc', t, script, n + 1);
    }
  }

  /** A terminal transition succeeds only if it can be audited. */
  lemma {:induction false} TermRunIsValid(sid: string, d: Slice, pc: TermPc, t: Transition, script: nat -> Write,
                                          n: nat)
    requires pc in {TPut, TState, TAudit(true), TAudit(false)}
    ensures TermRun(sid, d, pc, t, script, n).1.TOk? ==> ValidRecord(RecordOf(sid, t))
    decreases TermRank(pc)
  {
    var (d', pc') := TermStep(sid, d, pc, t, script(n));
    if pc' in {TState, TAudit(true), TAudit(false)} { TermRunIsValid(sid, d', pc', t, script, n + 1); }
  }

  /** A terminal transition never enables a policy. */
  lemma {:induction false} TermRunDisables(sid: string, d: Slice, pc: TermPc, t: Transition, script: nat -> Write,
                                           n: nat)
    ensures !d.Enabled() ==> !TermRun(sid, d, pc, t, script, n).0.Enabled()
    decreases TermRank(pc)
  {
    if !pc.Over() {
      var (d', pc') := TermStep(sid, d, pc, t, script(n));
      TermRunDisables(sid, d', pc', t, script, n + 1);
    }
  }

  lemma {:induction false} TermRunAdvances(sid: string, d: Slice, pc: TermPc, t: Transition, script: nat -> Write,
                                           n: nat)
    ensures TermRun(sid, d, pc, t, script, n).2 >= n
    decreases TermRank(pc)
  {
    if !pc.Over() {
      var (d', pc') := TermStep(sid, d, pc, t, script(n));
      TermRunAdvances(sid, d', pc', t, script, n + 1);
    }
  }

  /** What lets Resume relaunch an enabled session. */
  predicate Unblocked(p: Policy, session: SessionAnswer, profile: ProfileAnswer) {
    && p.state == Running && p.version == POLICY_VERSION && p.acknowledgedAt != 0
    && session.Live? && profile == Trusted(p.hash)
  }

  /** What a launch whose write fails behind these steps ends as. */
  function FailureAt(steps: nat): Outcome { if steps == 2 then AuditAppendFailed else StateWriteFailed }

  predicate ValidPolicy(p: Policy) { p.state == Running && p.version == POLICY_VERSION && p.acknowledgedAt != 0 }

  /** Why an enabled policy that is not relaunched is closed, and how. */
  predicate Reason(p: Policy, session: SessionAnswer, profile: ProfileAnswer, state: PolicyState, outcome: Outcome,
                   action: Action) {
    && (!ValidPolicy(p) ==> state.Blocked? && outcome.PolicyInvalid? && action.Block?)
    && (ValidPolicy(p) && session.Missing? ==> state.Blocked? && outcome.SessionMissing? && action.Block?)
    && (ValidPolicy(p) && session.Canceled? ==> state.Disabled? && outcome.Stopped? && action.Stop?)
    && (ValidPolicy(p) && session.Live? && profile.Unknown? ==>
          state.Blocked? && outcome.ProfileMissing? && action.Block?)
    && (ValidPolicy(p) && session.Live? && profile.Untrusted? ==>
          state.Blocked? && outcome.ProfileUntrusted? && action.Block?)
    && (ValidPolicy(p) && session.Live? && profile.Trusted? && profile.hash != p.hash ==>
          state.Blocked? && outcome.ProfileDrift? && action.Block?)
  }

  /** What a policy is after Resume: untouched if it was disabled, enabled and resumed now if nothing was in the way,
      and closed now for the first reason otherwise. */
  predicate ResumedTo(p: Policy, q: Policy, session: SessionAnswer, profile: ProfileAnswer, now: nat) {
    if !p.enabled then q == p
    else if Unblocked(p, session, profile) then
      q == p.(state := Running, outcome := Resumed, startedAt := now, updatedAt := now)
    else
      && q == p.(enabled := false, degraded := false, state := q.state, outcome := q.outcome, updatedAt := now)
      && exists action :: Reason(p, session, profile, q.state, q.outcome, action)
  }

  function ResumedPolicy(p: Policy, now: nat): Policy {
    p.(state := Running, outcome := Resumed, startedAt := now, updatedAt := now)
  }

  predicate Auditable(sid: string, p: Policy) { !Blank(sid) && !Blank(p.profile) && !Blank(p.hash) }

  predicate AuditableIfEnabled(sid: string, p: map<string, Policy>) {
    sid in p && p[sid].enabled ==> Auditable(sid, p[sid])
  }

  /** A policy whose transition makes a valid audit record. */
  predicate Storable(sid: string, p: Policy, action: Action) {
    Auditable(sid, p) && p.updatedAt != 0 && OutcomeAllowed(action, p.outcome)
  }

  lemma UntroubledLater(script: nat -> Write, n: nat, eventId: nat -> string, drawn: nat)
    requires Untroubled(script, n, eventId)
    ensures script(n).Confirmed? && Untroubled(script, n + 1, eventId) && !Blank(eventId(drawn))
  {
  }

  lemma StillUntroubled(script: nat -> Write, n: nat, eventId: nat -> string)
    ensures Untroubled(script, n, eventId) ==> script(n).Confirmed? && Untroubled(script, n + 1, eventId)
  {}

  /** What replaying a journal entry makes of the policy. */
  function Replay(t: Transition): Policy { t.policy.(enabled := false, degraded := false) }

  /** The policy after reconciling it with its session's last record: a terminal one of the same profile is taken over,
      and anything else changes nothing. */
  predicate TakesOver(sid: string, p: Policy, last: Option<Record>, q: Policy) {
    if last.Some? && last.value.action.Terminal() && last.value.profile == p.profile && last.value.hash == p.hash then
      var r := last.value;
      && q == p.(enabled := false, degraded := false, outcome := r.outcome, updatedAt := r.at, state := q.state)
      && (r.action.Block? ==> q.state.Blocked?) && (r.action.Error? ==> q.state.Failed?)
      && (r.action.Stop? ==> q.state.Disabled?)
    else q == p
  }

  lemma StaysUntroubled(script: nat -> Write, n: nat, m: nat, eventId: nat -> string)
    requires Untroubled(script, n, eventId) && n <= m
    ensures Untroubled(script, m, eventId)
  {}

  lemma SameElsewhere<T>(m: map<string, T>, m': map<string, T>, sid: string)
    requires m - {sid} == m' - {sid}
    ensures forall x | x != sid :: (x in m <==> x in m') && (x in m ==> m[x] == m'[x])
  {
    forall x | x != sid ensures (x in m <==> x in m') && (x in m ==> m[x] == m'[x]) {
      assert x in m <==> x in m - {sid};
      assert x in m' <==> x in m' - {sid};
      if x in m { assert m[x] == (m - {sid})[x] == (m' - {sid})[x] == m'[x]; }
    }
  }

  /** The policy of a start whose profile is trusted. */
  function StartPolicy(profile: string, hash: string, now: nat): Policy {
    Policy(profile, hash, POLICY_VERSION, now, true, Running, Started, false, now, now)
  }

  /** The policy of a start whose profile is not trusted. */
  function BlockedPolicy(profile: string, hash: string, now: nat): Policy {
    Policy(profile, hash, POLICY_VERSION, now, false, Blocked, ProfileUntrusted, false, 0, now)
  }

  /** Every policy and journal entry makes valid audit records. */
  predicate AllAuditable(policies: map<string, Policy>, journal: map<string, Transition>) {
    && (forall sid <- policies :: Auditable(sid, policies[sid]))
    && (forall sid <- journal :: ValidRecord(RecordOf(sid, journal[sid])))
  }

  /** The session's policy has its matching record in the log. */
  ghost predicate Audited(sid: string, policies: map<string, Policy>, audit: seq<Record>) {
    sid in policies && exists r <- audit :: Matches(sid, policies[sid], r)
  }

  /** Other sessions have the last records they had. */
  ghost predicate OthersLast(sid: string, a: seq<Record>, a': seq<Record>) {
    forall x: string | x != sid :: LastFor(a', x) == LastFor(a, x)
  }

  lemma OthersSame(sid: string, a: seq<Record>)
    ensures OthersLast(sid, a, a)
  {}

  lemma OneMoreLast(sid: string, a: seq<Record>, r: Record, a': seq<Record>)
    requires r.session == sid && (a' == a || a' == a + [r])
    ensures OthersLast(sid, a, a')
  {
    forall x: string | x != sid ensures LastFor(a + [r], x) == LastFor(a, x) { LastForAppend(a, r, x); }
  }

  /** A record that was not in the log and now is stands last for its session. */
  lemma NewLast(sid: string, a: seq<Record>, r: Record, a': seq<Record>)
    requires r.session == sid && !HasId(a, r.id) && (a' == a || a' == a + [r])
    ensures r in a' ==> LastFor(a', sid) == Some(r)
    ensures OthersLast(sid, a, a')
  {
    forall x: string ensures LastFor(a + [r], x) == if x == sid then Some(r)
        else LastFor(a, x) { LastForAppend(a, r, x); }
    assert r !in a;
    hide LastFor;
  }

  class BackgroundManager {
    // background.json, background-transitions.json, background-audit.jsonl
    var policies: map<string, Policy>
    var journal: map<string, Transition>
    var audit: seq<Record>
    var locks: set<string>            // the worker lease files that are locked

    // memory
    var closed: bool
    var active: map<string, Policy>   // the policy each worker was launched with
    var transitions: set<string>
    var transitionLease: set<string>

    // the environment
    const script: nat -> Write        // how the k-th durable write ends
    var writes: nat
    const eventId: nat -> string      // the k-th random event id
    var events: nat
    const session: string -> SessionAnswer
    const profile: string -> ProfileAnswer
    const now: nat
    ghost var minted: map<string, Record>
    ghost const minted0: map<string, Record>   // the ids in use when the manager was made

    constructor (policies: map<string, Policy>, journal: map<string, Transition>, audit: seq<Record>,
                 script: nat -> Write,
                 eventId: nat -> string, session: string -> SessionAnswer, profile: string -> ProfileAnswer, now: nat,
                 ghost minted: map<string, Record>)
      requires DiskOk(policies, journal, audit, minted)
      requires FreshIds(eventId, 0, minted)
      ensures Valid() && Idle() && active == map[] && !closed
      ensures this.policies == policies && this.journal == journal && this.audit == audit && this.minted == minted
          && this.minted0 == minted && this.eventId == eventId
      ensures this.script == script && this.session == session && this.profile == profile && this.now == now
    {
      this.policies, this.journal, this.audit, this.locks := policies, journal, audit, {};
      this.closed, this.active, this.transitions, this.transitionLease := false, map[], {}, {};
      this.script, this.writes, this.eventId, this.events := script, 0, eventId, 0;
      this.session, this.profile, this.now := session, profile, now;
      this.minted, this.minted0 := minted, minted;
    }

    function SliceOf(sid: string): Slice
      reads this
    {
      Slicing(policies, journal, audit, sid)
    }

    ghost predicate Valid()
      reads this
    {
      && DiskOk(policies, journal, audit, minted)
      && FreshIds(eventId, events, minted) && DrawnIds(minted0, minted, eventId)
      && locks == transitionLease + active.Keys && transitionLease !! active.Keys
    }

    /** No transition is in progress. */
    predicate Idle()
      reads this
    {
      transitions == {} && transitionLease == {}
    }

    /** The session's policy is what it was but for its end: disabled, with this state, outcome and time; no journal
        entry is left, and the session's last audit record says the same under this action. */
    ghost predicate RecordedAs(sid: string, was: Policy, state: PolicyState, outcome: Outcome, at: nat, action: Action)
      reads this`policies, this`journal, this`audit
    {
      && sid in policies && sid !in journal
      && policies[sid] == was.(enabled := false, degraded := false, state := state, outcome := outcome, updatedAt := at)
      && LastFor(audit, sid).Some?
      && var last := LastFor(audit, sid).value;
         last == Record(last.id, at, action, sid, was.profile, was.hash, outcome)
    }

    /** The session's policy is this one, and its last audit record the launch of it. */
    ghost predicate LaunchedAs(sid: string, policy: Policy, action: Action)
      reads this`policies, this`journal, this`audit
    {
      && sid in policies && sid !in journal && policies[sid] == policy
      && LastFor(audit, sid).Some?
      && var last := LastFor(audit, sid).value;
         last == Record(last.id, policy.updatedAt, action, sid, policy.profile, policy.hash, policy.outcome)
    }

    /** If one write of a launch fails alone, the session is recorded as failed over it. The writes from this one on are
        those of the launch behind the given number of steps: journal, policy, audit log, journal. */
    ghost predicate FailureRecorded(sid: string, policy: Policy, from: nat, steps: nat, ok: bool)
      requires steps <= 4
      reads this`policies, this`journal, this`audit
    {
      forall n: nat | n < from + 4 - steps && FailsOnceAt(script, from, n, eventId) ::
        !ok && RecordedAs(sid, policy, Failed, FailureAt(n + steps - from), now, Error)
    }

    lemma FailsHere(sid: string, t: Transition, from: nat, steps: nat, recorded: bool)
      requires steps < 4 && !script(from).Confirmed?
      requires recorded ==> RecordedAs(sid, t.policy, Failed, FailureAt(steps), now, Error)
      requires Untroubled(script, from + 1, eventId) ==>
        Auditable(sid, t.policy) && now != 0 && OutcomeAllowed(Error, FailureAt(steps)) ==> recorded
      ensures ValidRecord(RecordOf(sid, t)) && now != 0 ==> FailureRecorded(sid, t.policy, from, steps, false)
    {
      hide RecordedAs, Untroubled;
    }

    lemma FailsLater(sid: string, t: Transition, from: nat, steps: nat, ok: bool)
      requires steps < 4 && script(from).Confirmed?
      requires ValidRecord(RecordOf(sid, t)) && now != 0 ==> FailureRecorded(sid, t.policy, from + 1, steps + 1, ok)
      ensures ValidRecord(RecordOf(sid, t)) && now != 0 ==> FailureRecorded(sid, t.policy, from, steps, ok)
    {
      hide RecordedAs, Untroubled, ValidRecord;
      forall n: nat | n < from + 4 - steps && FailsOnceAt(script, from, n, eventId)
        ensures FailsOnceAt(script, from + 1, n, eventId)
      {
        assert n != from;
      }
    }

    lemma FailsNowhere(sid: string, policy: Policy, from: nat, ok: bool)
      ensures FailureRecorded(sid, policy, from, 4, ok)
    {
      hide RecordedAs;
    }

    // ----- the files -----

    method PutTransition(sid: string, t: Transition) returns (w: Write)
      modifies this`journal, this`writes
      ensures w == script(old(writes)) && writes == old(writes) + 1
      ensures journal == if w.Applied() then old(journal)[sid := t] else old(journal)
    {
      w := script(writes);
      writes := writes + 1;
      if w.Applied() { journal := journal[sid := t]; }
    }

    method RemoveTransition(sid: string) returns (w: Write)
      modifies this`journal, this`writes
      ensures writes == old(writes) + 1
      ensures w == if sid in old(journal) then script(old(writes)) else Confirmed
      ensures journal == if w.Applied() then old(journal) - {sid} else old(journal)
    {
      w := if sid in journal then script(writes) else Confirmed;
      writes := writes + 1;
      if w.Applied() { journal := journal - {sid}; }
    }

    method Upsert(sid: string, policy: Policy) returns (w: Write)
      modifies this`policies, this`writes
      ensures w == script(old(writes)) && writes == old(writes) + 1
      ensures policies == if w.Applied() then old(policies)[sid := policy] else old(policies)
    {
      w := script(writes);
      writes := writes + 1;
      if w.Applied() { policies := policies[sid := policy]; }
    }

    /** BackgroundAudit.Append: validate, look for the id, append. */
    method AppendAudit(sid: string, t: Transition) returns (ok: bool)
      modifies this`audit, this`writes
      ensures writes == old(writes) + 1
      ensures audit == AuditAfter(old(audit), RecordOf(sid, t), script(old(writes)))
      ensures audit == old(audit) || audit == old(audit) + [RecordOf(sid, t)]
      ensures ok == AuditOk(RecordOf(sid, t), script(old(writes)))
    {
      var r := RecordOf(sid, t);
      var w := script(writes);
      writes := writes + 1;
      if !ValidRecord(r) { return false; }
      var committed := false;
      for i := 0 to |audit|
        invariant committed <==> exists j | 0 <= j < i :: audit[j].id == r.id
      {
        if audit[i].id == r.id { committed := true; }
      }
      if !committed && w.Applied() { audit := audit + [r]; }
      ok := w.Confirmed?;
    }

    // ----- persistTerminalTransition -----

    ghost predicate TermAt(sid: string, pc: TermPc, t: Transition)
      reads this
    {
      TermInv(sid, AsState(SliceOf(sid), minted), pc, t)
    }

    /** The last part: the policy without its degraded flag, then the journal. */
    method ConfirmTerminal(sid: string, t: Transition) returns (ok: bool)
      requires Valid() && TermAt(sid, TFinal, t)
      modifies this`policies, this`journal, this`writes
      ensures Valid() && policies - {sid} == old(policies) - {sid} && journal - {sid} == old(journal) - {sid}
      ensures (SliceOf(sid), if ok then TOk else TFail, writes)
           == TermRun(sid, old(SliceOf(sid)), TFinal, t, script, old(writes))
      ensures ok ==> sid in policies && policies[sid] == Closed(t).policy.(degraded := false) && sid !in journal
                     && RecordOf(sid, t) in audit
    {
      hide DiskOk, TermInv, DrawnIds, LastFor, FreshIds, DiskInv, MintInv, Good, ValidRecord, AuditAfter;
      ghost var end := TermRun(sid, SliceOf(sid), TFinal, t, script, writes);
      ghost var p, j := policies, journal;
      var final := Upsert(sid, Closed(t).policy.(degraded := false));
      TermTaken(sid, minted, TFinal, t, final, p, j, audit, policies, journal, audit);
      if !final.Confirmed? { return false; }
      assert end == TermRun(sid, SliceOf(sid), TClear, t, script, writes);
      p := policies;
      ghost var w := script(writes);
      var cleared := RemoveTransition(sid);
      TermTaken(sid, minted, TClear, t, w, p, j, audit, policies, journal, audit);
      j := journal;
      if !cleared.Confirmed? {
        var degrade := Upsert(sid, Closed(t).policy);
        TermTaken(sid, minted, TDegrade, t, degrade, p, j, audit, policies, journal, audit);
        return false;
      }
      TermEnd(sid, t, SliceOf(sid), minted);
      return true;
    }

    /** The degraded policy, and the rest. */
    method RecordTerminal(sid: string, t: Transition) returns (ok: bool)
      requires Valid() && TermAt(sid, TState, t)
      modifies this`policies, this`journal, this`audit, this`writes
      ensures Valid() && policies - {sid} == old(policies) - {sid} && journal - {sid} == old(journal) - {sid}
      ensures (SliceOf(sid), if ok then TOk else TFail, writes)
           == TermRun(sid, old(SliceOf(sid)), TState, t, script, old(writes))
      ensures audit == old(audit) || audit == old(audit) + [RecordOf(sid, t)]
      ensures ok ==> sid in policies && policies[sid] == Closed(t).policy.(degraded := false) && sid !in journal
                     && RecordOf(sid, t) in audit
    {
      hide DiskOk, TermInv, DrawnIds, LastFor, AuditAfter, AuditOk, FreshIds, DiskInv, MintInv, Good, ValidRecord;
      ghost var end := TermRun(sid, SliceOf(sid), TState, t, script, writes);
      ghost var p := policies;
      var state := Upsert(sid, Closed(t).policy);
      TermTaken(sid, minted, TState, t, state, p, journal, audit, policies, journal, audit);
      assert end == TermRun(sid, SliceOf(sid), TAudit(state.Confirmed?), t, script, writes);
      ok := AuditTerminal(sid, t, state.Confirmed?);
    }

    /** The audit record, whatever became of the policy write, and the rest. */
    method AuditTerminal(sid: string, t: Transition, stateOk: bool) returns (ok: bool)
      requires Valid() && TermAt(sid, TAudit(stateOk), t)
      modifies this`policies, this`journal, this`audit, this`writes
      ensures Valid() && policies - {sid} == old(policies) - {sid} && journal - {sid} == old(journal) - {sid}
      ensures (SliceOf(sid), if ok then TOk else TFail, writes)
           == TermRun(sid, old(SliceOf(sid)), TAudit(stateOk), t, script, old(writes))
      ensures audit == old(audit) || audit == old(audit) + [RecordOf(sid, t)]
      ensures ok ==> sid in policies && policies[sid] == Closed(t).policy.(degraded := false) && sid !in journal
                     && RecordOf(sid, t) in audit
    {
      hide DiskOk, TermInv, DrawnIds, LastFor, AuditAfter, AuditOk, FreshIds, DiskInv, MintInv, Good, ValidRecord;
      ghost var a, w := audit, script(writes);
      var recorded := AppendAudit(sid, t);
      TermTaken(sid, minted, TAudit(stateOk), t, w, policies, journal, a, policies, journal, audit);
      if !stateOk || !recorded { return false; }
      ok := ConfirmTerminal(sid, t);
    }

    method PersistTerminalTransition(sid: string, t: Transition, put: bool) returns (ok: bool)
      requires Valid() && Good(sid, minted, t)
      requires !put ==> sid in journal
      modifies this`policies, this`journal, this`audit, this`writes
      ensures Valid() && policies - {sid} == old(policies) - {sid} && journal - {sid} == old(journal) - {sid}
      ensures (SliceOf(sid), if ok then TOk else TFail, writes)
           == TermRun(sid, old(SliceOf(sid)), if put then TPut else TState, t, script, old(writes))
      ensures audit == old(audit) || audit == old(audit) + [RecordOf(sid, t)]
      ensures ok ==> sid in policies && policies[sid] == Closed(t).policy.(degraded := false) && sid !in journal
                     && RecordOf(sid, t) in audit
    {
      TermStart(sid, put, t, SliceOf(sid), minted);
      hide DiskOk, TermInv, DrawnIds, LastFor, FreshIds;
      if put {
        ghost var j := journal;
        var w := PutTransition(sid, Closed(t));
        TermTaken(sid, minted, TPut, t, w, policies, j, audit, policies, journal, audit);
        if !w.Confirmed? { return false; }
      }
      ok := RecordTerminal(sid, t);
    }

    /** newBackgroundTransition. */
    method NewTransition(sid: string, policy: Policy, action: Action) returns (t: Transition)
      requires Valid()
      modifies this`events, this`minted
      ensures Valid() && t == Transition(policy, action, t.id) && t.id == eventId(old(events))
      ensures t.id !in old(minted) && minted == old(minted)[t.id := RecordOf(sid, t)]
      ensures !HasId(audit, t.id)
    {
      t := Transition(policy, action, eventId(events));
      events := events + 1;
      minted := minted[t.id := RecordOf(sid, t)];
      forall other: string ensures DiskInv(other, SliceOf(other)) {
        assert DiskInv(other, Slicing(policies, journal, audit, other));
      }
    }

    /** persistTerminal. */
    method PersistTerminal(sid: string, policy: Policy, action: Action) returns (ok: bool)
      requires Valid() && policy.state == StateAfter(action)
      modifies this`policies, this`journal, this`audit, this`writes, this`events, this`minted
      ensures Valid() && policies - {sid} == old(policies) - {sid} && journal - {sid} == old(journal) - {sid}
      ensures old(audit) <= audit && old(writes) <= writes
      ensures ok ==> sid in policies && policies[sid] == policy.(enabled := false, degraded := false) && sid !in journal
      ensures ok ==> Audited(sid, policies, audit) && Auditable(sid, policy)
      ensures ok ==> RecordedAs(sid, policy, policy.state, policy.outcome, policy.updatedAt, action)
      ensures OthersLast(sid, old(audit), audit)
      ensures !old(SliceOf(sid)).Enabled() ==> !SliceOf(sid).Enabled()
      ensures Untroubled(script, old(writes), eventId) ==> Storable(sid, policy, action) ==> ok
    {
      var t := NewTransition(sid, policy, action);
      hide DiskOk, FreshIds, DrawnIds;
      ghost var d, n := SliceOf(sid), writes;
      TermRunDisables(sid, d, TPut, t, script, n);
      TermRunIsValid(sid, d, TPut, t, script, n);
      if Faultless(script, writes) && ValidRecord(RecordOf(sid, t)) { FaultlessTermRun(sid, d, TPut, t, script, n); }
      TermRunAdvances(sid, d, TPut, t, script, n);
      ghost var a := audit;
      ok := PersistTerminalTransition(sid, t, true);
      NewLast(sid, a, RecordOf(sid, t), audit);
      if ok { assert Matches(sid, policies[sid], RecordOf(sid, t)); }
    }

    /** recordingFailure, then persistTerminal. */
    method PersistFailure(sid: string, policy: Policy, outcome: Outcome) returns (ok: bool)
      requires Valid()
      modifies this`policies, this`journal, this`audit, this`writes, this`events, this`minted
      ensures Valid() && policies - {sid} == old(policies) - {sid} && journal - {sid} == old(journal) - {sid}
      ensures old(audit) <= audit && old(writes) <= writes && OthersLast(sid, old(audit), audit)
      ensures ok ==> RecordedAs(sid, policy, Failed, outcome, now, Error)
      ensures Untroubled(script, old(writes), eventId) ==>
        Auditable(sid, policy) && now != 0 && OutcomeAllowed(Error, outcome) ==> ok
    {
      var failed := policy.(enabled := false, state := Failed, outcome := outcome, updatedAt := now);
      ok := PersistTerminal(sid, failed, Error);
    }

    method PersistBeforeLaunch(sid: string, policy: Policy, action: Action) returns (ok: bool)
      requires Valid() && policy.enabled && policy.state == StateAfter(action) && !action.Terminal()
      requires action.Resume? ==> sid in policies && policies[sid].enabled
      modifies this`policies, this`journal, this`audit, this`writes, this`events, this`minted
      ensures Valid() && policies - {sid} == old(policies) - {sid} && journal - {sid} == old(journal) - {sid}
      ensures old(audit) <= audit && old(writes) <= writes && OthersLast(sid, old(audit), audit)
      ensures ok ==> LaunchedAs(sid, policy, action)
      ensures Untroubled(script, old(writes), eventId) ==> Storable(sid, policy, action) ==> ok
      ensures Storable(sid, policy, action) && now != 0 ==> FailureRecorded(sid, policy, old(writes), 0, ok)
    {
      var t := NewTransition(sid, policy, action);
      LaunchStart(sid, t, SliceOf(sid), minted);
      if Untroubled(script, writes, eventId) { UntroubledLater(script, writes, eventId, events - 1); }
      hide DiskOk, LaunchInv, DrawnIds, FreshIds, Untroubled, FailureRecorded;
      ghost var n := writes;
      ok := PersistLaunch(sid, t);
      if Storable(sid, policy, action) { DrawnIdFails(sid, t, n, ok); }
    }

    /** Where a single write fails no event id is blank. */
    lemma DrawnIdFails(sid: string, t: Transition, from: nat, ok: bool)
      requires Storable(sid, t.policy, t.action) && exists k: nat :: t.id == eventId(k)
      requires ValidRecord(RecordOf(sid, t)) && now != 0 ==> FailureRecorded(sid, t.policy, from, 0, ok)
      ensures now != 0 ==> FailureRecorded(sid, t.policy, from, 0, ok)
    {
      hide RecordedAs;
    }

    /** The journal entry of a launch. */
    method PutLaunch(sid: string, t: Transition) returns (w: Write)
      requires Valid() && LaunchInv(sid, AsState(SliceOf(sid), minted), LPut, t)
      modifies this`journal, this`writes
      ensures Valid() && w == script(old(writes)) && writes == old(writes) + 1
      ensures journal == if w.Applied() then old(journal)[sid := t] else old(journal)
      ensures w.Confirmed? ==> LaunchInv(sid, AsState(SliceOf(sid), minted), LState, t)
    {
      hide DiskOk, LaunchInv, DrawnIds, FreshIds;
      ghost var j := journal;
      w := PutTransition(sid, t);
      LaunchTaken(sid, minted, LPut, t, w, policies, j, audit, policies, journal, audit);
    }

    /** The policy of a launch. */
    method UpsertLaunched(sid: string, t: Transition) returns (w: Write)
      requires Valid() && LaunchInv(sid, AsState(SliceOf(sid), minted), LState, t)
      modifies this`policies, this`writes
      ensures Valid() && w == script(old(writes)) && writes == old(writes) + 1
      ensures policies == if w.Applied() then old(policies)[sid := t.policy] else old(policies)
      ensures w.Confirmed? ==> LaunchInv(sid, AsState(SliceOf(sid), minted), LAudit, t)
    {
      hide DiskOk, LaunchInv, DrawnIds, FreshIds;
      ghost var p := policies;
      w := Upsert(sid, t.policy);
      LaunchTaken(sid, minted, LState, t, w, p, journal, audit, policies, journal, audit);
    }

    /** The audit record of a launch. */
    method AuditLaunch(sid: string, t: Transition) returns (ok: bool)
      requires Valid() && LaunchInv(sid, AsState(SliceOf(sid), minted), LAudit, t)
      modifies this`audit, this`writes
      ensures Valid() && writes == old(writes) + 1 && old(audit) <= audit && OthersLast(sid, old(audit), audit)
      ensures ok == AuditOk(RecordOf(sid, t), script(old(writes)))
      ensures ok ==> LaunchInv(sid, AsState(SliceOf(sid), minted), LClear, t)
                     && LastFor(audit, sid) == Some(RecordOf(sid, t))
    {
      hide DiskOk, DrawnIds, FreshIds;
      ghost var a, w := audit, script(writes);
      ok := AppendAudit(sid, t);
      OneMoreLast(sid, a, RecordOf(sid, t), audit);
      LaunchTaken(sid, minted, LAudit, t, w, policies, journal, a, policies, journal, audit);
    }

    /** The journal entry goes when the launch is recorded. */
    method ClearLaunch(sid: string, t: Transition) returns (w: Write)
      requires Valid() && LaunchInv(sid, AsState(SliceOf(sid), minted), LClear, t)
      modifies this`journal, this`writes
      ensures Valid() && w == script(old(writes)) && writes == old(writes) + 1
      ensures journal == if w.Applied() then old(journal) - {sid} else old(journal)
    {
      hide DiskOk, DrawnIds, FreshIds;
      ghost var j := journal;
      w := RemoveTransition(sid);
      LaunchTaken(sid, minted, LClear, t, w, policies, j, audit, policies, journal, audit);
    }

    /** The journal entry, then the policy. */
    method PersistLaunch(sid: string, t: Transition) returns (ok: bool)
      requires Valid() && LaunchInv(sid, AsState(SliceOf(sid), minted), LPut, t)
      modifies this`policies, this`journal, this`audit, this`writes, this`events, this`minted
      ensures Valid() && policies - {sid} == old(policies) - {sid} && journal - {sid} == old(journal) - {sid}
      ensures old(audit) <= audit && old(writes) <= writes && OthersLast(sid, old(audit), audit)
      ensures ok ==> sid in policies && policies[sid] == t.policy && sid !in journal
      ensures ok ==> LastFor(audit, sid) == Some(RecordOf(sid, t))
      ensures Untroubled(script, old(writes), eventId) ==> ValidRecord(RecordOf(sid, t)) ==> ok
      ensures ValidRecord(RecordOf(sid, t)) && now != 0 ==> FailureRecorded(sid, t.policy, old(writes), 0, ok)
    {
      StillUntroubled(script, writes, eventId);
      hide Valid, LaunchInv, Untroubled, ValidRecord, FailureRecorded, RecordedAs, LastFor;
      ghost var n := writes;
      var put := PutLaunch(sid, t);
      if !put.Confirmed? {
        var recorded := PersistFailure(sid, t.policy, StateWriteFailed);
        FailsHere(sid, t, n, 0, recorded);
        return false;
      }
      ok := StoreLaunch(sid, t);
      FailsLater(sid, t, n, 0, ok);
    }

    method StoreLaunch(sid: string, t: Transition) returns (ok: bool)
      requires Valid() && LaunchInv(sid, AsState(SliceOf(sid), minted), LState, t)
      modifies this`policies, this`journal, this`audit, this`writes, this`events, this`minted
      ensures Valid() && policies - {sid} == old(policies) - {sid} && journal - {sid} == old(journal) - {sid}
      ensures old(audit) <= audit && old(writes) <= writes && OthersLast(sid, old(audit), audit)
      ensures ok ==> sid in policies && policies[sid] == t.policy && sid !in journal
      ensures ok ==> LastFor(audit, sid) == Some(RecordOf(sid, t))
      ensures Untroubled(script, old(writes), eventId) ==> ValidRecord(RecordOf(sid, t)) ==> ok
      ensures ValidRecord(RecordOf(sid, t)) && now != 0 ==> FailureRecorded(sid, t.policy, old(writes), 1, ok)
    {
      StillUntroubled(script, writes, eventId);
      hide Valid, LaunchInv, Untroubled, ValidRecord, FailureRecorded, RecordedAs, LastFor;
      ghost var n := writes;
      var stored := UpsertLaunched(sid, t);
      if !stored.Confirmed? {
        var recorded := PersistFailure(sid, t.policy, StateWriteFailed);
        FailsHere(sid, t, n, 1, recorded);
        return false;
      }
      ok := RecordLaunch(sid, t);
      FailsLater(sid, t, n, 1, ok);
    }

    /** The end of persistBeforeLaunch: the audit record, then the journal. */
    method RecordLaunch(sid: string, t: Transition) returns (ok: bool)
      requires Valid() && LaunchInv(sid, AsState(SliceOf(sid), minted), LAudit, t)
      modifies this`policies, this`journal, this`audit, this`writes, this`events, this`minted
      ensures Valid() && policies - {sid} == old(policies) - {sid} && journal - {sid} == old(journal) - {sid}
      ensures old(audit) <= audit && old(writes) <= writes && OthersLast(sid, old(audit), audit)
      ensures ok ==> policies == old(policies) && sid !in journal
      ensures ok ==> LastFor(audit, sid) == Some(RecordOf(sid, t))
      ensures Untroubled(script, old(writes), eventId) ==> ValidRecord(RecordOf(sid, t)) ==> ok
      ensures ValidRecord(RecordOf(sid, t)) && now != 0 ==> FailureRecorded(sid, t.policy, old(writes), 2, ok)
    {
      StillUntroubled(script, writes, eventId);
      hide Valid, LaunchInv, Untroubled, FailureRecorded, RecordedAs, LastFor;
      ghost var n := writes;
      var recorded := AuditLaunch(sid, t);
      if !recorded {
        var closed := PersistFailure(sid, t.policy, AuditAppendFailed);
        if ValidRecord(RecordOf(sid, t)) { FailsHere(sid, t, n, 2, closed); }
        return false;
      }
      ok := ConfirmLaunch(sid, t);
      FailsLater(sid, t, n, 2, ok);
    }

    method ConfirmLaunch(sid: string, t: Transition) returns (ok: bool)
      requires Valid() && LaunchInv(sid, AsState(SliceOf(sid), minted), LClear, t)
      requires LastFor(audit, sid) == Some(RecordOf(sid, t))
      modifies this`policies, this`journal, this`audit, this`writes, this`events, this`minted
      ensures Valid() && policies - {sid} == old(policies) - {sid} && journal - {sid} == old(journal) - {sid}
      ensures old(audit) <= audit && old(writes) <= writes && OthersLast(sid, old(audit), audit)
      ensures ok ==> policies == old(policies) && sid !in journal
      ensures ok ==> LastFor(audit, sid) == Some(RecordOf(sid, t))
      ensures Untroubled(script, old(writes), eventId) ==> ok
      ensures ValidRecord(RecordOf(sid, t)) && now != 0 ==> FailureRecorded(sid, t.policy, old(writes), 3, ok)
    {
      StillUntroubled(script, writes, eventId);
      hide Valid, LaunchInv, Untroubled, ValidRecord, FailureRecorded, RecordedAs, LastFor;
      ghost var n := writes;
      var cleared := ClearLaunch(sid, t);
      if !cleared.Confirmed? {
        var recorded := PersistFailure(sid, t.policy, StateWriteFailed);
        FailsHere(sid, t, n, 3, recorded);
        return false;
      }
      FailsNowhere(sid, t.policy, n + 1, true);
      FailsLater(sid, t, n, 3, true);
      return true;
    }

    // ----- reservations -----

    method ReserveTransition(sid: string) returns (r: Reservation)
      requires Valid()
      modifies this`transitions, this`transitionLease, this`locks
      ensures Valid()
      ensures r == if closed then Closing else if sid in old(transitions) || sid in old(locks) then Busy else Taken
      ensures r.Taken? ==> transitions == old(transitions) + {sid} && transitionLease == old(transitionLease) + {sid}
      ensures !r.Taken?
          ==> transitions == old(transitions) && transitionLease == old(transitionLease) && locks == old(locks)
    {
      hide DiskOk, FreshIds, DrawnIds;
      if closed { return Closing; }
      if sid in transitions { return Busy; }
      if sid in locks { return Busy; }
      locks := locks + {sid};
      transitionLease := transitionLease + {sid};
      transitions := transitions + {sid};
      return Taken;
    }

    method ReleaseTransition(sid: string)
      requires Valid()
      modifies this`transitions, this`transitionLease, this`locks
      ensures Valid() && transitions == old(transitions) - {sid} && transitionLease == old(transitionLease) - {sid}
    {
      hide DiskOk, FreshIds, DrawnIds;
      transitions := transitions - {sid};
      if sid in transitionLease {
        transitionLease := transitionLease - {sid};
        locks := locks - {sid};
      }
    }

    /** launchLocked: the lease goes from the transition to the worker. */
    method LaunchLocked(sid: string, policy: Policy)
      requires Valid() && sid in transitionLease
      modifies this`transitions, this`transitionLease, this`active
      ensures Valid() && active == old(active)[sid := policy]
      ensures transitions == old(transitions) - {sid} && transitionLease == old(transitionLease) - {sid}
    {
      hide DiskOk, FreshIds, DrawnIds;
      active := active[sid := policy];
      transitionLease := transitionLease - {sid};
      transitions := transitions - {sid};
    }

    // ----- Start, Stop and the end of a worker -----

    /** Start, while the session is live and its profile resolves to the same answer throughout. */
    method Start(sid: string, profileName: string, acknowledged: bool) returns (e: StartEnd)
      requires Valid()
      modifies this`policies, this`journal, this`audit, this`writes, this`events, this`minted,
               this`transitions, this`transitionLease, this`locks, this`active
      ensures Valid() && transitions == old(transitions) && old(audit) <= audit
      ensures policies - {sid} == old(policies) - {sid} && journal - {sid} == old(journal) - {sid}
      ensures e.StartRefused? || e.AlreadyRunning?
          ==> policies == old(policies) && journal == old(journal) && audit == old(audit)
      ensures !e.Launched? ==> active == old(active)
      ensures e.Launched?
          ==> sid in policies && active == old(active)[sid := policies[sid]] && sid !in old(active) && sid !in journal
      ensures e.Launched? ==>
        var p := policies[sid];
        && LaunchedAs(sid, p, Action.Start)
        && p.profile == profileName && profile(profileName) == Trusted(p.hash) && p.version == POLICY_VERSION
        && p.enabled && !p.degraded && p.state.Running? && p.outcome.Started?
        && p.acknowledgedAt == now && p.startedAt == now && p.updatedAt == now
      ensures e.Launched? && now != 0 ==> Unblocked(policies[sid], session(sid), profile(profileName))
      ensures e.AlreadyRunning?
          ==> sid in active && active[sid].profile == profileName && profile(profileName) == Trusted(active[sid].hash)
      ensures e.StartBlocked? ==> old(Blockable(sid, profileName, acknowledged))
      ensures e.StartBlocked? && !old(SliceOf(sid)).Enabled() ==> !SliceOf(sid).Enabled()
      ensures e.StartBlocked? && e.recorded ==>
        && sid in policies && !Blank(profile(profileName).hash)
        && RecordedAs(sid, policies[sid], Blocked, ProfileUntrusted, now, Block)
        && var p := policies[sid];
           && p.profile == profileName && p.hash == profile(profileName).hash && p.version == POLICY_VERSION
           && p.acknowledgedAt == now && p.startedAt == 0
      ensures e.StartBlocked? <== old(Blockable(sid, profileName, acknowledged))
      ensures Untroubled(script, old(writes), eventId) && now != 0 && e.StartBlocked?
              ==> (e.recorded <==> !Blank(profile(profileName).hash))
      ensures e.Launched? || e.StartFailed? <== old(Startable(sid, profileName, acknowledged))
      ensures e.Launched? ==> old(Startable(sid, profileName, acknowledged))
      ensures Untroubled(script, old(writes), eventId) && now != 0 && old(Startable(sid, profileName, acknowledged))
          ==> e.Launched?
      ensures now != 0 && old(Startable(sid, profileName, acknowledged)) ==>
        FailureRecorded(sid, StartPolicy(profileName, profile(profileName).hash, now), old(writes), 0, e.Launched?)
    {
      hide DiskOk, FreshIds, DrawnIds, Untroubled, LastFor, Blank, Audited, FailureRecorded;
      if !acknowledged || Blank(sid) || Blank(profileName) || closed || !session(sid).Live? { return StartRefused; }
      var resolved := profile(profileName);
      if resolved.Unknown? || sid in transitions { return StartRefused; }
      if sid in active {
        var same := active[sid].profile == profileName && resolved == Trusted(active[sid].hash);
        return if same then AlreadyRunning else StartRefused;
      }
      var r := ReserveTransition(sid);
      if !r.Taken? { return StartRefused; }
      if resolved.Untrusted? || Blank(resolved.hash) {
        var recorded := PersistTerminal(sid, BlockedPolicy(profileName, resolved.hash, now), Block);
        ReleaseTransition(sid);
        return StartBlocked(recorded);
      }
      var ok := LaunchReserved(sid, StartPolicy(profileName, resolved.hash, now), Action.Start);
      return if ok then Launched else StartFailed;
    }

    /** Persist, then launch or give the reservation back. */
    method LaunchReserved(sid: string, policy: Policy, action: Action) returns (ok: bool)
      requires Valid() && sid in transitionLease && sid in transitions
      requires policy.enabled && policy.state == StateAfter(action) && !action.Terminal()
      requires action.Resume? ==> sid in policies && policies[sid].enabled
      modifies this`policies, this`journal, this`audit, this`writes, this`events, this`minted,
               this`transitions, this`transitionLease, this`locks, this`active
      ensures Valid() && old(audit) <= audit && old(writes) <= writes && OthersLast(sid, old(audit), audit)
      ensures transitions == old(transitions) - {sid} && transitionLease == old(transitionLease) - {sid}
      ensures policies - {sid} == old(policies) - {sid} && journal - {sid} == old(journal) - {sid}
      ensures active == if ok then old(active)[sid := policy] else old(active)
      ensures ok ==> LaunchedAs(sid, policy, action)
      ensures Untroubled(script, old(writes), eventId) ==> Untroubled(script, writes, eventId)
      ensures Untroubled(script, old(writes), eventId) ==> Storable(sid, policy, action) ==> ok
      ensures Storable(sid, policy, action) && now != 0 ==> FailureRecorded(sid, policy, old(writes), 0, ok)
    {
      hide DiskOk, FreshIds, DrawnIds, Untroubled, LastFor, OthersLast, FailureRecorded;
      ghost var n := writes;
      ok := PersistBeforeLaunch(sid, policy, action);
      if Untroubled(script, n, eventId) { StaysUntroubled(script, n, writes, eventId); }
      if ok { LaunchLocked(sid, policy); } else { ReleaseTransition(sid); }
    }

    /** What a Start needs to come to its profile's trust. */
    ghost predicate Admitted(sid: string, profileName: string, acknowledged: bool)
      reads this
    {
      && acknowledged && !Blank(sid) && !Blank(profileName) && !closed && session(sid).Live?
      && !profile(profileName).Unknown? && sid !in transitions && sid !in locks
    }

    /** What a Start needs. */
    ghost predicate Startable(sid: string, profileName: string, acknowledged: bool)
      reads this
    {
      Admitted(sid, profileName, acknowledged) && profile(profileName).Trusted? && !Blank(profile(profileName).hash)
    }

    /** What a Start records as blocked. */
    ghost predicate Blockable(sid: string, profileName: string, acknowledged: bool)
      reads this
    {
      Admitted(sid, profileName, acknowledged) && (profile(profileName).Untrusted? || Blank(profile(profileName).hash))
    }

    /** What is recorded when a worker ends: its failure, that its session was canceled, or that its queue is
        drained. */
    ghost predicate ExitRecorded(sid: string, launched: Policy, end: WorkerEnd)
      reads this`policies, this`journal, this`audit
    {
      && (end.DrainFailed? ==> RecordedAs(sid, launched, Failed, end.outcome, now, Error))
      && (end.SessionCanceled? ==> RecordedAs(sid, launched, Disabled, Outcome.Stopped, now, Action.Stop))
      && (end.QueueDrained? ==> RecordedAs(sid, launched, Disabled, Completed, now, Action.Stop))
    }

    /** workerDone for a worker that no Stop waits for. */
    method WorkerDone(sid: string, end: WorkerEnd) returns (persisted: bool)
      requires Valid() && sid in active && sid !in transitions
      modifies this`policies, this`journal, this`audit, this`writes, this`events, this`minted, this`locks, this`active
      ensures Valid() && active == old(active) - {sid} && locks == old(locks) - {sid} && old(audit) <= audit
      ensures policies - {sid} == old(policies) - {sid} && journal - {sid} == old(journal) - {sid}
      ensures end.ManagerClosed?
          ==> !persisted && policies == old(policies) && journal == old(journal) && audit == old(audit)
      ensures persisted ==> ExitRecorded(sid, old(active)[sid], end)
      ensures !old(SliceOf(sid)).Enabled() ==> !SliceOf(sid).Enabled()
      ensures Untroubled(script, old(writes), eventId) && now != 0 && Auditable(sid, old(active)[sid])
              ==> end.QueueDrained? || end.SessionCanceled? ==> persisted
    {
      hide DiskOk, FreshIds, DrawnIds, Untroubled, Audited, Auditable, RecordedAs;
      persisted := false;
      if !end.ManagerClosed? { persisted := PersistExit(sid, active[sid], end); }
      locks := locks - {sid};
      active := active - {sid};
    }

    /** What the exiting worker records about itself. */
    method PersistExit(sid: string, launched: Policy, end: WorkerEnd) returns (ok: bool)
      requires Valid() && !end.ManagerClosed?
      modifies this`policies, this`journal, this`audit, this`writes, this`events, this`minted
      ensures Valid() && policies - {sid} == old(policies) - {sid} && journal - {sid} == old(journal) - {sid}
          && old(audit) <= audit
      ensures ok ==> ExitRecorded(sid, launched, end)
      ensures !old(SliceOf(sid)).Enabled() ==> !SliceOf(sid).Enabled()
      ensures Untroubled(script, old(writes), eventId) && now != 0 && Auditable(sid, launched)
              ==> end.QueueDrained? || end.SessionCanceled? ==> ok
    {
      hide DiskOk, FreshIds, DrawnIds, Untroubled;
      var policy := launched.(enabled := false, updatedAt := now);
      var action := if end.DrainFailed? then Error else Action.Stop;
      policy := match end
        case DrainFailed(outcome) => policy.(state := Failed, outcome := outcome)
        case QueueDrained => policy.(state := Disabled, outcome := Completed)
        case _ => policy.(state := Disabled, outcome := Outcome.Stopped);
      ok := PersistTerminal(sid, policy, action);
    }

    /** Stop: the policy is disabled before the worker is told to stop; then the worker hands back its lease. */
    method Stop(sid: string, end: WorkerEnd) returns (e: StopEnd)
      requires Valid()
      modifies this`policies, this`journal, this`audit, this`writes, this`events, this`minted,
               this`transitions, this`transitionLease, this`locks, this`active
      ensures Valid() && transitions == old(transitions) && old(audit) <= audit
      ensures policies - {sid} == old(policies) - {sid} && journal - {sid} == old(journal) - {sid}
      ensures e.StopRefused?
          ==> policies == old(policies) && journal == old(journal) && audit == old(audit) && active == old(active)
      ensures e.StopRefused?
          <==> old(closed || sid in transitions || (sid !in active && sid in locks) || sid !in policies)
      ensures e.StopFailed? ==> active == old(active)
      ensures e.StopStopped? || e.StopDegraded?
          ==> active == old(active) - {sid} && sid !in locks && !SliceOf(sid).Enabled()
      ensures e.StopStopped? ==>
        if sid in old(active) && end.DrainFailed?
        then RecordedAs(sid, old(policies)[sid], Failed, end.outcome, now, Error)
        else RecordedAs(sid, old(policies)[sid], Disabled, Outcome.Stopped, now, Action.Stop)
      ensures e.StopStopped? ==> Audited(sid, policies, audit)
      ensures e.StopDegraded? ==> sid in old(active) && end.DrainFailed?
      ensures Untroubled(script, old(writes), eventId) && now != 0 && !e.StopRefused? ==>
        Auditable(sid, old(policies)[sid]) ==> !e.StopFailed? && (!end.DrainFailed? ==> e.StopStopped?)
      ensures !old(SliceOf(sid)).Enabled() ==> !SliceOf(sid).Enabled()
    {
      hide DiskOk, FreshIds, DrawnIds, Untroubled, Audited, LastFor;
      var taken := ReserveStopTransition(sid);
      if !taken { return StopRefused; }
      if sid !in policies {
        ReleaseTransition(sid);
        return StopRefused;
      }
      var policy := policies[sid].(enabled := false, state := Disabled, outcome := Outcome.Stopped, updatedAt := now);
      var ok := PersistTerminal(sid, policy, Action.Stop);
      if !ok {
        ReleaseTransition(sid);
        return StopFailed;
      }
      if sid in active { ok := CollectWorker(sid, policy, end); }
      ReleaseTransition(sid);
      return if ok then StopStopped else StopDegraded;
    }

    /** reserveStopTransition: with a worker the lease stays where it is. */
    method ReserveStopTransition(sid: string) returns (taken: bool)
      requires Valid()
      modifies this`transitions, this`transitionLease, this`locks
      ensures Valid() && (taken <==> !closed && sid !in old(transitions) && (sid in active || sid !in old(locks)))
      ensures transitions == if taken then old(transitions) + {sid} else old(transitions)
      ensures transitionLease == if taken && sid !in active then old(transitionLease) + {sid} else old(transitionLease)
      ensures locks == old(locks) + transitionLease
    {
      hide DiskOk, FreshIds, DrawnIds;
      if closed || sid in transitions || (sid !in active && sid in locks) { return false; }
      transitions := transitions + {sid};
      if sid !in active {
        locks := locks + {sid};
        transitionLease := transitionLease + {sid};
      }
      return true;
    }

    /** The end of a Stop that found a worker: the worker is told to stop, hands back its lease, and an error it
        ended with is recorded. */
    method CollectWorker(sid: string, policy: Policy, end: WorkerEnd) returns (ok: bool)
      requires Valid() && sid in active && sid in transitions && !policy.enabled && !SliceOf(sid).Enabled()
      requires Audited(sid, policies, audit) && !policies[sid].degraded && sid !in journal
      modifies this`policies, this`journal, this`audit, this`writes, this`events, this`minted, this`transitionLease,
          this`active
      ensures Valid() && active == old(active) - {sid} && sid in transitionLease && old(audit) <= audit
      ensures policies - {sid} == old(policies) - {sid} && journal - {sid} == old(journal) - {sid}
          && !SliceOf(sid).Enabled()
      ensures transitionLease == old(transitionLease) + {sid}
      ensures ok ==> Audited(sid, policies, audit) && !policies[sid].degraded && sid !in journal
      ensures !end.DrainFailed? ==> ok && policies == old(policies) && audit == old(audit) && journal == old(journal)
      ensures ok && end.DrainFailed? ==> RecordedAs(sid, policy, Failed, end.outcome, policy.updatedAt, Error)
    {
      hide DiskOk, FreshIds, DrawnIds, Untroubled, Matches, LastFor;
      transitionLease := transitionLease + {sid};
      active := active - {sid};
      ok := true;
      if end.DrainFailed? { ok := PersistTerminal(sid, policy.(state := Failed, outcome := end.outcome), Error); }
    }

    // ----- recovery -----

    /** The loop of reconcileTerminalAudit over the log, in order, keeping the last record of the session. */
    method LastRecord(sid: string) returns (last: Option<Record>)
      ensures last == LastFor(audit, sid)
    {
      last := None;
      for i := 0 to |audit|
        invariant last == LastFor(audit[..i], sid)
      {
        LastForAppend(audit[..i], audit[i], sid);
        assert audit[..i + 1] == audit[..i] + [audit[i]];
        if audit[i].session == sid { last := Some(audit[i]); }
      }
      assert audit[..|audit|] == audit;
    }

    /** reconcileTerminalAudit. */
    method ReconcileTerminalAudit(sid: string) returns (ok: bool)
      requires Valid() && Idle() && !closed && sid !in active
      modifies this`policies, this`writes, this`transitions, this`transitionLease, this`locks
      ensures Valid() && Idle() && old(writes) <= writes
      ensures policies.Keys == old(policies).Keys && policies - {sid} == old(policies) - {sid}
      ensures old(SliceOf(sid)).Enabled() && sid !in journal ==> policies == old(policies) && ok
      ensures !old(SliceOf(sid)).Enabled() ==> !SliceOf(sid).Enabled()
      ensures ok && sid in policies ==> TakesOver(sid, old(policies)[sid], LastFor(audit, sid), policies[sid])
      ensures Untroubled(script, old(writes), eventId) ==> ok && Untroubled(script, writes, eventId)
    {
      hide DiskOk, FreshIds, DrawnIds, Untroubled, TakesOver;
      var r := ReserveTransition(sid);
      ok := true;
      if sid in policies { ok := StoreTerminalAudit(sid); }
      ReleaseTransition(sid);
    }

    /** The policy takes over the session's last record if that is terminal and of the same profile. */
    method StoreTerminalAudit(sid: string) returns (ok: bool)
      requires Valid() && sid in policies
      modifies this`policies, this`writes
      ensures Valid() && old(writes) <= writes
      ensures policies.Keys == old(policies).Keys && policies - {sid} == old(policies) - {sid}
      ensures old(SliceOf(sid)).Enabled() && sid !in journal ==> policies == old(policies) && ok
      ensures !old(SliceOf(sid)).Enabled() ==> !SliceOf(sid).Enabled()
      ensures ok ==> TakesOver(sid, old(policies)[sid], LastFor(audit, sid), policies[sid])
      ensures Untroubled(script, old(writes), eventId) ==> ok && Untroubled(script, writes, eventId)
    {
      hide DiskOk, FreshIds, DrawnIds, Untroubled, DiskInv, MintInv, LastFor, Matches;
      AuditWriteIsSafe(sid, script(writes));
      StillUntroubled(script, writes, eventId);
      var policy := policies[sid];
      var last := LastRecord(sid);
      if last.None? || !last.value.action.Terminal() || last.value.profile != policy.profile
          || last.value.hash != policy.hash {
        return true;
      }
      ghost var before := policies;
      var w := Upsert(sid, PolicyFromRecord(policy, last.value));
      SessionChange(sid, minted, before, journal, audit, policies, journal, audit);
      ok := w.Confirmed?;
    }

    lemma AuditWriteIsSafe(sid: string, w: Write)
      requires Valid()
      ensures var d := ReconcileAuditStep(sid, SliceOf(sid), w); DiskInv(sid, d) && MintInv(sid, AsState(d, minted))
      ensures SliceOf(sid).Enabled() && sid !in journal ==> !AuditOverrides(sid, SliceOf(sid))
    {
      assert DiskInv(sid, Slicing(policies, journal, audit, sid));
      ReconcileAuditKeepsLive(sid, SliceOf(sid), w);
    }

    /** reconcileTransition. */
    method ReconcileTransition(sid: string) returns (ok: bool)
      requires Valid() && Idle() && !closed && sid !in active
      modifies this`policies, this`journal, this`audit, this`writes, this`transitions, this`transitionLease, this`locks
      ensures Valid() && Idle() && old(audit) <= audit && old(writes) <= writes
      ensures policies - {sid} == old(policies) - {sid} && journal - {sid} == old(journal) - {sid}
      ensures ok ==> sid !in journal
      ensures ok && sid in old(journal)
          ==> sid in policies && !policies[sid].enabled && RecordOf(sid, old(journal)[sid]) in audit
      ensures ok && sid in old(journal) ==>
        policies[sid] == Replay(old(journal)[sid])
      ensures Untroubled(script, old(writes), eventId) ==>
        (sid in old(journal) ==> ValidRecord(RecordOf(sid, old(journal)[sid]))) ==> ok
    {
      var r := ReserveTransition(sid);
      ok := true;
      if sid in journal {
        var t := journal[sid];
        ghost var d := SliceOf(sid);
        if Untroubled(script, writes, eventId) && ValidRecord(RecordOf(sid, t)) {
          FaultlessTermRun(sid, d, TState, t, script, writes);
        }
        TermRunAdvances(sid, d, TState, t, script, writes);
        assert Good(sid, minted, t);
        hide DiskOk, FreshIds, DrawnIds;
        ok := PersistTerminalTransition(sid, t, false);
      }
      ReleaseTransition(sid);
    }

    // ----- Resume -----

    /** Resume's decision for an enabled policy it has reserved: what keeps it from being relaunched. */
    method Obstacle(sid: string, policy: Policy) returns (o: Option<(Action, Outcome)>)
      ensures o.None? <==> Unblocked(policy, session(sid), profile(policy.profile))
      ensures o.Some? ==> o.value.0.Terminal() && OutcomeAllowed(o.value.0, o.value.1)
      ensures o.Some?
          ==> Reason(policy, session(sid), profile(policy.profile), StateAfter(o.value.0), o.value.1, o.value.0)
    {
      if policy.state != Running || policy.version != POLICY_VERSION || policy.acknowledgedAt == 0 {
        return Some((Block, PolicyInvalid));
      }
      match session(sid)
      case Missing => return Some((Block, SessionMissing));
      case Canceled => return Some((Action.Stop, BackgroundDisk.Stopped));
      case Live =>
        match profile(policy.profile)
        case Unknown => return Some((Block, ProfileMissing));
        case Untrusted(_) => return Some((Block, ProfileUntrusted));
        case Trusted(hash) =>
          if hash != policy.hash { return Some((Block, ProfileDrift)); }
          return None;
    }

    /** Resume is to launch this session. */
    ghost predicate Relaunches(sid: string, p: map<string, Policy>, j: map<string, Transition>) {
      sid in p && p[sid].enabled && sid !in j && Unblocked(p[sid], session(sid), profile(p[sid].profile))
    }

    /** The body of Resume's loop over the listed policies. */
    method ResumeSession(sid: string) returns (ok: bool)
      requires Valid() && Idle() && !closed && sid !in active && sid !in journal
      modifies this`policies, this`journal, this`audit, this`writes, this`events, this`minted,
               this`transitions, this`transitionLease, this`locks, this`active
      ensures Valid() && Idle() && old(audit) <= audit && old(writes) <= writes && OthersLast(sid, old(audit), audit)
      ensures policies - {sid} == old(policies) - {sid} && journal - {sid} == old(journal) - {sid}
      ensures active - {sid} == old(active)
      ensures ok && sid in old(policies) ==>
        sid in policies && ResumedTo(old(policies)[sid], policies[sid], session(sid),
            profile(old(policies)[sid].profile), now)
      ensures ok && sid in active ==>
        && sid in policies && active[sid] == policies[sid] && LaunchedAs(sid, policies[sid], Resume)
        && Unblocked(policies[sid], session(sid), profile(policies[sid].profile))
      ensures ok && sid in old(policies) && old(policies)[sid].enabled && sid !in active ==>
        exists action :: RecordedAs(sid, old(policies)[sid], policies[sid].state, policies[sid].outcome, now, action)
                         && Reason(old(policies)[sid], session(sid), profile(old(policies)[sid].profile),
                                   policies[sid].state, policies[sid].outcome, action)
      ensures var launch := Relaunches(sid, old(policies), map[]);
              && (ok ==> sid !in journal && (sid in active <==> launch) && (SliceOf(sid).Enabled() <==> launch))
              && (sid in active ==> launch)
      ensures Untroubled(script, old(writes), eventId) ==> Untroubled(script, writes, eventId)
      ensures Untroubled(script, old(writes), eventId) ==> AuditableIfEnabled(sid, old(policies)) && now != 0 ==> ok
      ensures Relaunches(sid, old(policies), map[]) && AuditableIfEnabled(sid, old(policies)) && now != 0 ==>
        FailureRecorded(sid, ResumedPolicy(old(policies)[sid], now), old(writes), 0, ok)
    {
      hide DiskOk, FreshIds, LastFor, OthersLast, FailureRecorded;
      OthersSame(sid, audit);
      var r := ReserveTransition(sid);
      if sid !in policies || !policies[sid].enabled {
        ReleaseTransition(sid);
        return true;
      }
      var policy := policies[sid];
      var obstacle := Obstacle(sid, policy);
      if obstacle.Some? {
        var (action, outcome) := obstacle.value;
        ok := PersistTerminal(sid, policy.(enabled := false, state := StateAfter(action), outcome := outcome,
            updatedAt := now), action);
        ReleaseTransition(sid);
        return;
      }
      ok := LaunchReserved(sid, ResumedPolicy(policy, now), Resume);
    }

    lemma SamePolicy(sid: string, p: map<string, Policy>, p': map<string, Policy>)
      requires sid in p && sid in p' && p[sid] == p'[sid]
      ensures Relaunches(sid, p, map[]) == Relaunches(sid, p', map[])
      ensures AuditableIfEnabled(sid, p) == AuditableIfEnabled(sid, p')
    {
    }

    /** First pass of Resume: reconcileTerminalAudits. */
    method ReconcileTerminalAudits() returns (ok: bool)
      requires Valid() && Idle() && !closed && active == map[]
      modifies this`policies, this`writes, this`transitions, this`transitionLease, this`locks
      ensures Valid() && Idle() && old(writes) <= writes && policies.Keys == old(policies).Keys
      ensures forall sid <- policies | old(policies)[sid].enabled && sid !in journal ::
                policies[sid] == old(policies)[sid]
      ensures forall sid <- policies :: !old(policies)[sid].enabled ==> !policies[sid].enabled
      ensures Untroubled(script, old(writes), eventId) ==> ok && Untroubled(script, writes, eventId)
    {
      hide DiskOk, FreshIds, DrawnIds, Untroubled;
      ghost var p0, n := policies, writes;
      var todo := policies.Keys;
      ok := true;
      while todo != {}
        invariant Valid() && Idle() && n <= writes && policies.Keys == p0.Keys && todo <= policies.Keys
        invariant forall sid <- policies :: p0[sid].enabled && sid !in journal ==> policies[sid] == p0[sid]
        invariant forall sid <- policies :: !p0[sid].enabled ==> !policies[sid].enabled
        invariant Untroubled(script, n, eventId) ==> ok && Untroubled(script, writes, eventId)
      {
        var sid :| sid in todo;
        todo := todo - {sid};
        ghost var before := policies;
        var done := ReconcileTerminalAudit(sid);
        SameElsewhere(before, policies, sid);
        ok := ok && done;
      }
    }

    /** Second pass: reconcileTransitions. */
    method ReconcileTransitions() returns (ok: bool)
      requires Valid() && Idle() && !closed && active == map[]
      modifies this`policies, this`journal, this`audit, this`writes, this`transitions, this`transitionLease, this`locks
      ensures Valid() && Idle() && old(writes) <= writes && old(audit) <= audit
      ensures forall sid | sid !in old(journal) ::
                (sid in policies <==> sid in old(policies)) && (sid in policies ==> policies[sid] == old(policies)[sid])
      ensures ok ==> journal == map[]
      ensures ok ==> forall sid <- old(journal) ::
                sid in policies && policies[sid] == Replay(old(journal)[sid])
                && RecordOf(sid, old(journal)[sid]) in audit
      ensures Untroubled(script, old(writes), eventId) ==>
        (forall sid <- old(journal) :: ValidRecord(RecordOf(sid, old(journal)[sid]))) ==>
          ok && Untroubled(script, writes, eventId)
    {
      hide DiskOk, FreshIds, DrawnIds, Untroubled, ValidRecord, Replayed;
      ghost var p0, j0, a0, n := policies, journal, audit, writes;
      var todo := journal.Keys;
      ok := true;
      ReplayedNothing(policies, journal, audit);
      while todo != {}
        invariant Valid() && Idle() && n <= writes && a0 <= audit
        invariant Replayed(todo, p0, j0, policies, journal, audit, ok)
        invariant Untroubled(script, n, eventId) ==> Untroubled(script, writes, eventId)
        invariant Untroubled(script, n, eventId) && (forall sid <- j0 :: ValidRecord(RecordOf(sid, j0[sid]))) ==> ok
      {
        var sid :| sid in todo;
        ghost var p, j, a, k := policies, journal, audit, writes;
        ReplayedAt(todo, p0, j0, p, j, a, ok, sid);
        var done := ReconcileTransition(sid);
        if Untroubled(script, k, eventId) { StaysUntroubled(script, k, writes, eventId); }
        ReplayedOne(todo, p0, j0, p, j, a, ok, sid, policies, journal, audit, done);
        ok, todo := ok && done, todo - {sid};
      }
      ReplayedAll(p0, j0, policies, journal, audit, ok);
    }

    /** The second pass with todo still to do: what it started from and what it has now. */
    static ghost predicate Replayed(todo: set<string>, p0: map<string, Policy>, j0: map<string, Transition>,
                                    p: map<string, Policy>, j: map<string, Transition>, a: seq<Record>, ok: bool) {
      && todo <= j0.Keys
      && (forall sid | sid !in j0 :: (sid in p <==> sid in p0) && (sid in p ==> p[sid] == p0[sid]))
      && (forall sid | sid in todo || sid !in j0 :: (sid in j <==> sid in j0) && (sid in j ==> j[sid] == j0[sid]))
      && (ok ==> forall sid | sid in j0 && sid !in todo ::
            sid !in j && sid in p && p[sid] == Replay(j0[sid]) && RecordOf(sid, j0[sid]) in a)
    }

    static lemma ReplayedNothing(p: map<string, Policy>, j: map<string, Transition>, a: seq<Record>)
      ensures Replayed(j.Keys, p, j, p, j, a, true)
    {}

    static lemma ReplayedAt(todo: set<string>, p0: map<string, Policy>, j0: map<string, Transition>,
                            p: map<string, Policy>, j: map<string, Transition>, a: seq<Record>, ok: bool, sid: string)
      requires Replayed(todo, p0, j0, p, j, a, ok) && sid in todo
      ensures sid in j0 && sid in j && j[sid] == j0[sid]
    {}

    static lemma ReplayedOne(todo: set<string>, p0: map<string, Policy>, j0: map<string, Transition>,
                             p: map<string, Policy>, j: map<string, Transition>, a: seq<Record>, ok: bool, sid: string,
                             p': map<string, Policy>, j': map<string, Transition>, a': seq<Record>, done: bool)
      requires Replayed(todo, p0, j0, p, j, a, ok) && sid in todo && a <= a'
      requires p' - {sid} == p - {sid} && j' - {sid} == j - {sid}
      requires done ==> sid !in j' && sid in j && sid in p' && p'[sid] == Replay(j[sid]) && RecordOf(sid, j[sid]) in a'
      ensures Replayed(todo - {sid}, p0, j0, p', j', a', ok && done)
    {
      SameElsewhere(p, p', sid);
      SameElsewhere(j, j', sid);
    }

    static lemma ReplayedAll(p0: map<string, Policy>, j0: map<string, Transition>,
                             p: map<string, Policy>, j: map<string, Transition>, a: seq<Record>, ok: bool)
      requires Replayed({}, p0, j0, p, j, a, ok)
      ensures forall sid | sid !in j0 :: (sid in p <==> sid in p0) && (sid in p ==> p[sid] == p0[sid])
      ensures ok ==> j == map[] && forall sid <- j0 ::
          sid in p && p[sid] == Replay(j0[sid]) && RecordOf(sid, j0[sid]) in a
    {
      if ok {
        assert forall sid :: sid !in j;
      }
    }

    /** The third pass with todo still to do: p0 and p are the policies at its start and now. */
    ghost predicate Pass(todo: set<string>, p0: map<string, Policy>, p: map<string, Policy>,
                         live: map<string, Policy>) {
      && todo <= p0.Keys && p.Keys == p0.Keys
      && (forall sid | sid in todo || sid !in p0 :: sid !in live)
      && (forall sid <- todo :: p[sid] == p0[sid])
      && (forall sid <- p0 | sid !in todo :: Passed(sid, p0, p, live))
    }

    /** What the pass made of a session: it runs exactly if it was to be relaunched, under the policy stored. */
    ghost predicate Passed(sid: string, p0: map<string, Policy>, p: map<string, Policy>, live: map<string, Policy>)
      requires sid in p0 && sid in p
    {
      && (sid in live <==> Relaunches(sid, p0, map[])) && (p[sid].enabled <==> sid in live)
      && ResumedTo(p0[sid], p[sid], session(sid), profile(p0[sid].profile), now)
      && (sid in live ==> live[sid] == p[sid])
    }

    lemma PassStep(sid: string, todo: set<string>, p0: map<string, Policy>, p: map<string, Policy>,
                   live: map<string, Policy>, p': map<string, Policy>, live': map<string, Policy>)
      requires Pass(todo, p0, p, live) && sid in todo && p' - {sid} == p - {sid} && live' - {sid} == live - {sid}
      requires sid in p' && Passed(sid, p, p', live')
      ensures Pass(todo - {sid}, p0, p', live')
    {
      SameElsewhere(p, p', sid);
      SameElsewhere(live, live', sid);
      SamePolicy(sid, p, p0);
      hide Relaunches, ResumedTo;
      forall x <- p0 | x !in todo - {sid} ensures Passed(x, p0, p', live') {
        if x != sid { assert Passed(x, p0, p, live); }
      }
    }

    lemma PassedOne(sid: string, p: map<string, Policy>, q: map<string, Policy>, live: map<string, Policy>)
      requires sid in p && sid in q && (sid in live <==> Relaunches(sid, p, map[])) && (q[sid].enabled <==> sid in live)
      requires ResumedTo(p[sid], q[sid], session(sid), profile(p[sid].profile), now)
      requires sid in live ==> live[sid] == q[sid]
      ensures Passed(sid, p, q, live)
    {
      hide Relaunches, ResumedTo;
    }

    lemma PassFacts(todo: set<string>, p0: map<string, Policy>, p: map<string, Policy>, live: map<string, Policy>)
      requires Pass(todo, p0, p, live)
      ensures forall sid <- live :: Relaunches(sid, p0, map[])
      ensures forall sid <- todo :: sid in p0 && sid in p && p[sid] == p0[sid] && sid !in live
      ensures todo == {} ==> forall sid ::
                (sid in live <==> Relaunches(sid, p0, map[])) && (sid in p && p[sid].enabled <==> sid in live)
      ensures p.Keys == p0.Keys && (todo == {} ==> forall sid <- p0 :: Passed(sid, p0, p, live))
    {
      hide ResumedTo;
      forall sid <- live ensures Relaunches(sid, p0, map[]) {
        assert Passed(sid, p0, p, live);
      }
    }

    /** One turn of the third pass. */
    method ResumeNext(sid: string, ghost todo: set<string>, ghost p0: map<string, Policy>) returns (done: bool)
      requires Valid() && Idle() && !closed && journal == map[] && Pass(todo, p0, policies, active) && sid in todo
      modifies this`policies, this`journal, this`audit, this`writes, this`events, this`minted,
               this`transitions, this`transitionLease, this`locks, this`active
      ensures Valid() && Idle() && old(audit) <= audit
      ensures done ==> journal == map[] && Pass(todo - {sid}, p0, policies, active)
      ensures forall x <- active :: Relaunches(x, p0, map[])
      ensures Untroubled(script, old(writes), eventId) ==> Untroubled(script, writes, eventId)
      ensures Untroubled(script, old(writes), eventId) ==> AuditableIfEnabled(sid, p0) && now != 0 ==> done
    {
      hide DiskOk, FreshIds, Relaunches, AuditableIfEnabled, Untroubled, Pass, Passed, ResumedTo;
      ghost var p, j, live := policies, journal, active;
      PassFacts(todo, p0, p, live);
      SamePolicy(sid, p, p0);
      done := ResumeSession(sid);
      SameElsewhere(live, active, sid);
      if done {
        SameElsewhere(j, journal, sid);
        assert Passed(sid, p, policies, active) by { PassedOne(sid, p, policies, active); }
        PassStep(sid, todo, p0, p, live, policies, active);
      }
    }

    /** Third pass: the loop over the listed policies. */
    method ResumePolicies() returns (ok: bool)
      requires Valid() && Idle() && !closed && active == map[] && journal == map[]
      modifies this`policies, this`journal, this`audit, this`writes, this`events, this`minted,
               this`transitions, this`transitionLease, this`locks, this`active
      ensures Valid() && Idle() && old(audit) <= audit
      ensures ok ==> journal == map[] && forall sid :: sid in active <==> Relaunches(sid, old(policies), map[])
      ensures forall sid <- active :: Relaunches(sid, old(policies), map[])
      ensures ok ==> forall sid :: SliceOf(sid).Enabled() <==> sid in active
      ensures ok ==> policies.Keys == old(policies).Keys
      ensures ok ==> forall sid <- policies :: Passed(sid, old(policies), policies, active)
      ensures Untroubled(script, old(writes), eventId)
              ==> now != 0 && (forall sid <- old(policies) :: AuditableIfEnabled(sid, old(policies))) ==> ok
    {
      assert Pass(policies.Keys, policies, policies, active);
      hide DiskOk, FreshIds, Relaunches, AuditableIfEnabled, Untroubled, Pass, Passed, ResumedTo;
      ghost var p0, a0, n := policies, audit, writes;
      var todo := policies.Keys;
      while todo != {}
        invariant Valid() && Idle() && a0 <= audit && journal == map[] && Pass(todo, p0, policies, active)
        invariant Untroubled(script, n, eventId) ==> Untroubled(script, writes, eventId)
      {
        var sid :| sid in todo;
        var done := ResumeNext(sid, todo, p0);
        if !done { return false; }
        todo := todo - {sid};
      }
      PassFacts(todo, p0, policies, active);
      return true;
    }

    /** A successful Resume leaves no journal entry. Each session it found journaled is disabled and not
        running, with the entry's record in the log; every other session runs exactly if it was enabled
        and unblocked; and what is enabled is what runs. With no failing write it succeeds. */
    method ResumeAll() returns (ok: bool)
      requires Valid() && Idle() && active == map[]
      modifies this
      ensures Valid() && Idle() && UniqueIds(audit)
      ensures ok ==> journal == map[]
      ensures ok ==> forall sid <- old(journal) ::
                && sid !in active && sid in policies && policies[sid] == Replay(old(journal)[sid])
                && RecordOf(sid, old(journal)[sid]) in audit
      ensures ok ==> forall sid :: sid in active <==> Relaunches(sid, old(policies), old(journal))
      ensures ok ==> forall sid :: SliceOf(sid).Enabled() <==> sid in active
      ensures ok ==> forall sid <- active :: sid in policies && active[sid] == policies[sid]
      ensures ok ==> forall sid <- old(policies) | old(policies)[sid].enabled && sid !in old(journal) ::
                sid in policies
                && ResumedTo(old(policies)[sid], policies[sid], session(sid), profile(old(policies)[sid].profile), now)
      ensures Untroubled(script, old(writes), eventId) && !old(closed) && now != 0
              ==> AllAuditable(old(policies), old(journal)) ==> ok
    {
      ValidMeansUnique();
      if closed { return false; }
      hide DiskOk, FreshIds, DrawnIds, Untroubled, Unblocked, ResumedTo, LastFor, Audited, Replay;
      ok := ReconcileTerminalAudits();
      ghost var j := journal;
      if ok { ok := ReconcileTransitions(); }
      ReplayIsDisabled(j);
      ghost var p := policies;
      if ok { ok := ResumePolicies(); }
      DisabledStay(p);
      ValidMeansUnique();
    }

    lemma ReplayIsDisabled(j: map<string, Transition>)
      ensures forall sid <- j :: !Replay(j[sid]).enabled
    {}

    lemma DisabledStay(p: map<string, Policy>)
      ensures forall sid <- p | !p[sid].enabled :: !Relaunches(sid, p, map[])
      ensures forall sid <- p | !p[sid].enabled && sid in policies && Passed(sid, p, policies, active) ::
                policies[sid] == p[sid]
    {}

    lemma ValidMeansUnique()
      requires Valid()
      ensures UniqueIds(audit)
    {
      assert DiskInv("", Slicing(policies, journal, audit, ""));
    }
  }

  /** A daemon's start after another one ended: a new manager on the same files, which resumes before it serves
      requests. It keeps running what was enabled, and nothing else. */
  method Restart(m: BackgroundManager, script: nat -> Write, eventId: nat -> string, now: nat)
    returns (next: BackgroundManager, ok: bool)
    requires m.Valid() && FreshIds(eventId, 0, m.minted)
    ensures fresh(next) && next.Valid() && next.session == m.session && next.profile == m.profile && next.now == now
    ensures ok ==> forall sid :: sid in next.active <==> next.Relaunches(sid, m.policies, m.journal)
    ensures ok ==> forall sid <- next.active ::
              sid in m.policies && sid in next.policies && next.active[sid] == next.policies[sid]
              && next.policies[sid]
                 == m.policies[sid].(state := Running, outcome := Resumed, startedAt := now, updatedAt := now)
  {
    hide DiskOk, FreshIds, DrawnIds;
    assert DiskOk(m.policies, m.journal, m.audit, m.minted);
    next := new BackgroundManager(m.policies, m.journal, m.audit, script, eventId, m.session, m.profile, now, m.minted);
    ok := next.ResumeAll();
  }

  /** What Start launched runs again after a restart, whenever Resume succeeds. The next manager draws other ids. */
  method StartThenRestart(m: BackgroundManager, sid: string, profileName: string, acknowledged: bool,
                          script: nat -> Write, eventId: nat -> string, now: nat)
    returns (e: StartEnd, next: BackgroundManager, ok: bool)
    requires m.Valid()
    requires (forall j: nat, k: nat :: eventId(j) != m.eventId(k)) && (forall k: nat :: eventId(k) !in m.minted0)
    requires forall j: nat, k: nat :: j != k ==> eventId(j) != eventId(k)
    modifies m
    ensures e.Launched? && m.now != 0 && ok ==> sid in next.active
    ensures e.Launched? && m.now != 0 && ok ==>
      && next.active[sid].profile == profileName && next.profile(profileName) == Trusted(next.active[sid].hash)
      && next.active[sid].acknowledgedAt == m.now
  {
    e := m.Start(sid, profileName, acknowledged);
    OtherIdsAreFresh(m.minted0, m.minted, m.eventId, eventId);
    next, ok := Restart(m, script, eventId, now);
  }

  lemma OtherIdsAreFresh(before: map<string, Record>, minted: map<string, Record>, drawn: nat -> string,
                         eventId: nat -> string)
    requires DrawnIds(before, minted, drawn)
    requires (forall j: nat, k: nat :: eventId(j) != drawn(k)) && (forall k: nat :: eventId(k) !in before)
    requires forall j: nat, k: nat :: j != k ==> eventId(j) != eventId(k)
    ensures FreshIds(eventId, 0, minted)
  {}
}
