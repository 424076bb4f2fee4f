/** The durable state of the background drain manager, seen from one session, and the sub-steps that
    change it: one step is one durable write, so a crash can fall between any two of them. */
module BackgroundDisk {
  import opened Prelude

  datatype PolicyState = Running | Blocked | Failed | Disabled

  datatype Outcome =
    | Started | Resumed | Stopped | ProfileUntrusted | ProfileDrift | ProfileMissing | SessionMissing
    | PolicyInvalid | WorkerError | WorkerPanic | Completed | StateWriteFailed | AuditAppendFailed

  datatype Action = Start | Resume | Block | Error | Stop {
    predicate Terminal() { Block? || Error? || Stop? }
  }

  const POLICY_VERSION := 1

  /** Times are numbers; 0 is the zero time. */
  datatype Policy = Policy(
    profile: string, hash: string, version: int, acknowledgedAt: nat, enabled: bool,
    state: PolicyState, outcome: Outcome, degraded: bool, startedAt: nat, updatedAt: nat)

  /** A write-ahead journal entry. The session it belongs to is the key it is stored under. */
  datatype Transition = Transition(policy: Policy, action: Action, id: string)

  datatype Record = Record(
    id: string, at: nat, action: Action, session: string, profile: string, hash: string, outcome: Outcome)

  /** What the disk says about one session: its policy, its journal entry, and the whole audit log. */
  datatype Slice = Slice(policy: Option<Policy>, journal: Option<Transition>, audit: seq<Record>) {
    predicate Enabled() { policy.Some? && policy.value.enabled }
  }

  /** The state an audit action leaves a policy in. A start or resume that recovery closed leaves the
      state "running" on a disabled policy. */
  function StateAfter(action: Action): PolicyState {
    match action
    case Start => Running
    case Resume => Running
    case Block => Blocked
    case Error => Failed
    case Stop => Disabled
  }

  predicate OutcomeAllowed(action: Action, outcome: Outcome) {
    match action
    case Start => outcome.Started?
    case Resume => outcome.Resumed?
    case Block => outcome in {ProfileUntrusted, ProfileDrift, ProfileMissing, SessionMissing, PolicyInvalid}
    case Error => outcome in {WorkerError, WorkerPanic, StateWriteFailed, AuditAppendFailed}
    case Stop => outcome in {Stopped, Completed}
  }

  predicate ValidRecord(r: Record) {
    && !Blank(r.id) && !Blank(r.session) && !Blank(r.profile) && !Blank(r.hash)
    && r.at != 0
    && OutcomeAllowed(r.action, r.outcome)
  }

  function RecordOf(sid: string, t: Transition): Record {
    Record(t.id, t.policy.updatedAt, t.action, sid, t.policy.profile, t.policy.hash, t.policy.outcome)
  }

  /** The form in which a terminal transition is journaled and first stored. */
  function Closed(t: Transition): Transition {
    t.(policy := t.policy.(enabled := false, degraded := true))
  }

  predicate HasId(audit: seq<Record>, id: string) {
    exists i | 0 <= i < |audit| :: audit[i].id == id
  }

  /** Append skips a record whose id is already in the log, and refuses an invalid one. */
  ghost function AuditAfter(audit: seq<Record>, r: Record, w: Write): seq<Record> {
    if !ValidRecord(r) || HasId(audit, r.id) || !w.Applied() then audit else audit + [r]
  }

  predicate AuditOk(r: Record, w: Write) {
    ValidRecord(r) && w.Confirmed?
  }

  /** The last record of a session. */
  function LastFor(audit: seq<Record>, sid: string): Option<Record> {
    if audit == [] then None
    else if audit[|audit| - 1].session == sid then Some(audit[|audit| - 1])
    else LastFor(audit[..|audit| - 1], sid)
  }

  // ----- persistTerminalTransition, one write at a time -----

  /** TState is the first policy write (degraded), TFinal the second (not degraded), TDegrade the
      third, made only after the journal could not be cleared. */
  datatype TermPc = TPut | TState | TAudit(stateOk: bool) | TFinal | TClear | TDegrade | TOk | TFail {
    predicate Over() { TOk? || TFail? }
  }

  ghost function TermStep(sid: string, d: Slice, pc: TermPc, t: Transition, w: Write): (Slice, TermPc)
    requires !pc.Over()
  {
    var closed := Closed(t);
    var final := closed.policy.(degraded := false);
    match pc
    case TPut =>
      (if w.Applied() then d.(journal := Some(closed)) else d, if w.Confirmed? then TState else TFail)
    case TState =>
      (if w.Applied() then d.(policy := Some(closed.policy)) else d, TAudit(w.Confirmed?))
    case TAudit(stateOk) =>
      (d.(audit := AuditAfter(d.audit, RecordOf(sid, t), w)),
       if stateOk && AuditOk(RecordOf(sid, t), w) then TFinal else TFail)
    case TFinal =>
      (if w.Applied() then d.(policy := Some(final)) else d, if w.Confirmed? then TClear else TFail)
    case TClear =>
      if d.journal.None? then (d, TOk)
      else (if w.Applied() then d.(journal := None) else d, if w.Confirmed? then TOk else TDegrade)
    case TDegrade =>
      (if w.Applied() then d.(policy := Some(closed.policy)) else d, TFail)
  }

  // ----- persistBeforeLaunch, one write at a time -----

  datatype LaunchPc = LPut | LState | LAudit | LClear | LOk | LFail(outcome: Outcome) {
    predicate Over() { LOk? || LFail? }
  }

  ghost function LaunchStep(sid: string, d: Slice, pc: LaunchPc, t: Transition, w: Write): (Slice, LaunchPc)
    requires !pc.Over()
  {
    match pc
    case LPut =>
      (if w.Applied() then d.(journal := Some(t)) else d, if w.Confirmed? then LState else LFail(StateWriteFailed))
    case LState =>
      (if w.Applied() then d.(policy := Some(t.policy)) else d,
          if w.Confirmed? then LAudit else LFail(StateWriteFailed))
    case LAudit =>
      (d.(audit := AuditAfter(d.audit, RecordOf(sid, t), w)),
       if AuditOk(RecordOf(sid, t), w) then LClear else LFail(AuditAppendFailed))
    case LClear =>
      if d.journal.None? then (d, LOk)
      else (if w.Applied() then d.(journal := None) else d, if w.Confirmed? then LOk else LFail(StateWriteFailed))
  }

  /** The policy that reconcileTerminalAudit stores for a terminal record of the same profile. */
  function PolicyFromRecord(p: Policy, r: Record): Policy {
    p.(enabled := false, degraded := false, outcome := r.outcome, updatedAt := r.at, state := StateAfter(r.action))
  }

  /** Whether reconcileTerminalAudit rewrites this session's policy. */
  predicate AuditOverrides(sid: string, d: Slice) {
    var last := LastFor(d.audit, sid);
    && d.policy.Some? && last.Some? && last.value.action.Terminal()
    && last.value.profile == d.policy.value.profile && last.value.hash == d.policy.value.hash
  }

  ghost function ReconcileAuditStep(sid: string, d: Slice, w: Write): Slice {
    if AuditOverrides(sid, d) && w.Applied()
    then d.(policy := Some(PolicyFromRecord(d.policy.value, LastFor(d.audit, sid).value)))
    else d
  }

  // ----- what every reachable disk satisfies -----

  ghost predicate UniqueIds(audit: seq<Record>) {
    forall i, j | 0 <= i < j < |audit| :: audit[i].id != audit[j].id
  }

  ghost predicate Matches(sid: string, p: Policy, r: Record) {
    && r.session == sid && r.profile == p.profile && r.hash == p.hash
    && r.outcome == p.outcome && r.at == p.updatedAt && StateAfter(r.action) == p.state
  }

  /** A disabled policy that is not flagged degraded has its audit record committed. */
  ghost predicate DisabledIsAudited(sid: string, d: Slice) {
    d.policy.Some? && !d.policy.value.enabled && !d.policy.value.degraded
    ==> exists r <- d.audit :: Matches(sid, d.policy.value, r)
  }

  /** An enabled policy with no journal entry is the session's last audited launch. */
  ghost predicate LiveIsAudited(sid: string, d: Slice) {
    d.Enabled() && d.journal.None?
    ==> LastFor(d.audit, sid).Some? && !LastFor(d.audit, sid).value.action.Terminal()
  }

  ghost predicate DiskInv(sid: string, d: Slice) {
    UniqueIds(d.audit) && DisabledIsAudited(sid, d) && LiveIsAudited(sid, d)
  }

  // ----- lemmas about the log -----

  lemma LastForAppend(audit: seq<Record>, r: Record, sid: string)
    ensures LastFor(audit + [r], sid) == if r.session == sid then Some(r) else LastFor(audit, sid)
  {
    assert (audit + [r])[..|audit|] == audit;
  }

  lemma {:induction false} LastForIsIn(audit: seq<Record>, sid: string)
    ensures LastFor(audit, sid).Some? ==> LastFor(audit, sid).value in audit && LastFor(audit, sid).value.session == sid
    ensures LastFor(audit, sid).None? ==> forall r <- audit :: r.session != sid
  {
    if audit != [] {
      LastForIsIn(audit[..|audit| - 1], sid);
      assert audit == audit[..|audit| - 1] + [audit[|audit| - 1]];
    }
  }

  lemma AuditAfterKeeps(audit: seq<Record>, r: Record, w: Write)
    requires UniqueIds(audit)
    ensures UniqueIds(AuditAfter(audit, r, w))
    ensures audit <= AuditAfter(audit, r, w)
    ensures AuditOk(r, w) ==> HasId(AuditAfter(audit, r, w), r.id)
  {
    var after := AuditAfter(audit, r, w);
    if after != audit {
      assert after[|audit|] == r;
    }
  }

  /** Audit-driven reconciliation never disables a live policy, and keeps the disk invariant. */
  lemma ReconcileAuditKeepsLive(sid: string, d: Slice, w: Write)
    requires DiskInv(sid, d)
    ensures d.Enabled() && d.journal.None? ==> ReconcileAuditStep(sid, d, w) == d
    ensures DiskInv(sid, ReconcileAuditStep(sid, d, w))
  {
    LastForIsIn(d.audit, sid);
    if AuditOverrides(sid, d) && w.Applied() {
      var r := LastFor(d.audit, sid).value;
      assert Matches(sid, PolicyFromRecord(d.policy.value, r), r);
    }
  }
}
