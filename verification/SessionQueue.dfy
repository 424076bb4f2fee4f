/** What each store operation does to one session record: its prompt queue and its cancellation latch. */
module SessionQueue {
  import opened Prelude

  datatype PromptStatus = Pending | Running | Completed | Failed | Canceled

  datatype Prompt = Prompt(id: string, text: string, status: PromptStatus, started: bool, result: string)

  datatype SessionStatus = SessionQueued | SessionRunning | SessionCompleted | CancelRequested | SessionCanceled

  datatype Session = Session(acpId: string, status: SessionStatus, queue: seq<Prompt>, turns: seq<string>)

  datatype Error = NoSession | NoPrompt | CancelIsRequested | NotPending | MissingId | WriteFailed

  /** What a mutation asks its transaction to do. */
  datatype Change = Refused(error: Error) | Unchanged | Changed(session: Session)

  predicate Latched(status: SessionStatus) { status.CancelRequested? || status.SessionCanceled? }

  function PreserveLatch(existing: SessionStatus, update: SessionStatus): SessionStatus {
    match existing
    case SessionCanceled => SessionCanceled
    case CancelRequested =>
      if update.SessionCompleted? || update.SessionCanceled? then SessionCanceled else CancelRequested
    case _ => update
  }

  /** The first prompt with this id, or the length of the queue. */
  function Find(q: seq<Prompt>, id: string): (k: nat)
    ensures k <= |q| && (k < |q| ==> q[k].id == id) && (forall i | 0 <= i < k :: q[i].id != id)
  {
    if q == [] || q[0].id == id then 0 else 1 + Find(q[1..], id)
  }

  /** The first pending prompt, or the length of the queue. */
  function NextPending(q: seq<Prompt>): (k: nat)
    ensures k <= |q| && (k < |q| ==> q[k].status.Pending?) && (forall i | 0 <= i < k :: !q[i].status.Pending?)
  {
    if q == [] || q[0].status.Pending? then 0 else 1 + NextPending(q[1..])
  }

  function CountOf(q: seq<Prompt>, status: PromptStatus): nat {
    if q == [] then 0 else CountOf(q[..|q| - 1], status) + if q[|q| - 1].status == status then 1 else 0
  }

  function CancelPendingPrompt(p: Prompt): Prompt { if p.status.Pending? then p.(status := Canceled) else p }

  function CancelPendingPrompts(q: seq<Prompt>): seq<Prompt> {
    seq(|q|, i requires 0 <= i < |q| => CancelPendingPrompt(q[i]))
  }

  function RecoverPrompt(p: Prompt, latched: bool): Prompt {
    if latched && (p.status.Running? || p.status.Pending?) then p.(status := Canceled, started := false)
    else if p.status.Running? then p.(status := Pending, started := false)
    else p
  }

  function RecoverPrompts(q: seq<Prompt>, latched: bool): seq<Prompt> {
    seq(|q|, i requires 0 <= i < |q| => RecoverPrompt(q[i], latched))
  }

  /** The store operations, as the mutations of their transactions. */
  datatype Op =
    | AppendPrompt(acpId: string, id: string, text: string)
    | MarkRunning(id: string)
    | Finish(id: string, ok: bool, result: string)
    | CancelPending
    | Recover
    | RequestCancel
    | Lifecycle(acpId: string, status: SessionStatus, turn: Option<string>, terminal: bool)
    | SetAcpId(acpId: string)

  function Appended(s: Option<Session>, acpId: string, id: string, text: string): Change {
    var base := if s.None? then Session(acpId, SessionQueued, [], [])
                else if acpId != "" then s.value.(acpId := acpId) else s.value;
    if Latched(base.status) then Refused(CancelIsRequested)
    else Changed(base.(status := SessionQueued, queue := base.queue + [Prompt(id, text, Pending, false, "")]))
  }

  function MarkedRunning(s: Session, id: string): Change {
    var k := Find(s.queue, id);
    if Latched(s.status) then Refused(CancelIsRequested)
    else if k == |s.queue| then Refused(NoPrompt)
    else if !s.queue[k].status.Pending? then Refused(NotPending)
    else Changed(s.(status := SessionRunning, queue := s.queue[k := s.queue[k].(status := Running, started := true)]))
  }

  function Finished(s: Session, id: string, ok: bool, result: string): Change {
    var k := Find(s.queue, id);
    if k == |s.queue| then Refused(NoPrompt)
    else if Latched(s.status) then
      Changed(s.(status := SessionCanceled, queue := s.queue[k := s.queue[k].(status := Canceled)]))
    else
      var p := s.queue[k].(status := if ok then Completed else Failed, result := result);
      Changed(s.(status := SessionCompleted, queue := s.queue[k := p],
          turns := if ok then s.turns + [result] else s.turns))
  }

  function PendingCanceled(s: Session): Change {
    var running, count := CountOf(s.queue, Running) > 0, CountOf(s.queue, Pending);
    if count == 0 && (running || s.status != CancelRequested) then Unchanged
    else Changed(s.(status := if running then s.status else SessionCanceled, queue := CancelPendingPrompts(s.queue)))
  }

  function RecoverCount(s: Session): nat {
    CountOf(s.queue, Running) + if Latched(s.status) then CountOf(s.queue, Pending) else 0
  }

  function Recovered(s: Session): Change {
    if RecoverCount(s) == 0 && !Latched(s.status) then Unchanged
    else Changed(s.(status := if Latched(s.status) then SessionCanceled else SessionQueued,
                    queue := RecoverPrompts(s.queue, Latched(s.status))))
  }

  function CancelAsked(s: Option<Session>): Change {
    if s.None? then Changed(Session("", CancelRequested, [], []))
    else Changed(s.value.(status := if s.value.status.SessionCanceled? then SessionCanceled else CancelRequested))
  }

  function LifecycleUpdated(s: Option<Session>, acpId: string, status: SessionStatus, turn: Option<string>,
                            terminal: bool): Change {
    var added := if turn.None? then [] else [turn.value];
    if s.None? then Changed(Session(acpId, status, [], added))
    else if Latched(s.value.status) && !terminal then Refused(CancelIsRequested)
    else Changed(Session(if acpId == "" then s.value.acpId else acpId, PreserveLatch(s.value.status, status),
                         s.value.queue, s.value.turns + added))
  }

  function AcpIdSet(s: Option<Session>, acpId: string): Change {
    if acpId == "" then Unchanged
    else if s.None? then Refused(NoSession)
    else if s.value.acpId != "" then Unchanged
    else Changed(s.value.(acpId := acpId))
  }

  function Apply(op: Op, s: Option<Session>): Change {
    match op
    case AppendPrompt(acpId, id, text) => Appended(s, acpId, id, text)
    case RequestCancel => CancelAsked(s)
    case Lifecycle(acpId, status, turn, terminal) => LifecycleUpdated(s, acpId, status, turn, terminal)
    case MarkRunning(id) => if s.None? then Refused(NoSession) else MarkedRunning(s.value, id)
    case Finish(id, ok, result) => if s.None? then Refused(NoSession) else Finished(s.value, id, ok, result)
    case CancelPending => if s.None? then Refused(NoSession) else PendingCanceled(s.value)
    case Recover => if s.None? then Refused(NoSession) else Recovered(s.value)
    case SetAcpId(acpId) => AcpIdSet(s, acpId)
  }

  function After(op: Op, s: Option<Session>): Option<Session> {
    var c := Apply(op, s);
    if c.Changed? then Some(c.session) else s
  }

  function RunOps(ops: seq<Op>, s: Option<Session>): Option<Session> {
    if ops == [] then s else RunOps(ops[1..], After(ops[0], s))
  }

  lemma {:induction false} CountOfZero(q: seq<Prompt>, status: PromptStatus)
    ensures CountOf(q, status) == 0 <==> forall i | 0 <= i < |q| :: q[i].status != status
  {
    if q != [] {
      var n := |q| - 1;
      CountOfZero(q[..n], status);
      assert forall i | 0 <= i < n :: q[..n][i] == q[i];
    }
  }

  /** A latched session after more operations: the same prompts, each with its old status or canceled. */
  predicate OnlyCanceledFurther(before: Session, after: Session) {
    && Latched(after.status) && (before.status.SessionCanceled? ==> after.status.SessionCanceled?)
    && |after.queue| == |before.queue|
    && (forall i | 0 <= i < |before.queue| :: CanceledFurther(before.queue[i], after.queue[i]))
  }

  predicate CanceledFurther(p: Prompt, p': Prompt) {
    && p'.id == p.id && p'.text == p.text && p'.result == p.result
    && (p'.status == p.status || p'.status.Canceled?)
  }

  lemma LatchedStep(op: Op, s: Session)
    requires Latched(s.status)
    ensures var r := After(op, Some(s)); r.Some? && OnlyCanceledFurther(s, r.value)
    ensures op.MarkRunning? || op.AppendPrompt? ==> Apply(op, Some(s)) == Refused(CancelIsRequested)
    ensures op.Finish? && Find(s.queue, op.id) < |s.queue| ==>
      After(op, Some(s)).value.queue[Find(s.queue, op.id)].status.Canceled?
  {
  }

  /** The latch never opens, canceled is final, and from then on no run of operations lets a prompt become
      running, completed or failed: every prompt keeps its status or is canceled. */
  lemma {:induction false} LatchIsForever(ops: seq<Op>, s: Session)
    requires Latched(s.status)
    ensures var r := RunOps(ops, Some(s)); r.Some? && OnlyCanceledFurther(s, r.value)
    decreases |ops|
  {
    if ops != [] {
      LatchedStep(ops[0], s);
      var t := After(ops[0], Some(s)).value;
      LatchIsForever(ops[1..], t);
    }
  }

  /** What closes the latch of an open session, exactly. */
  lemma LatchClosesIff(op: Op, s: Session)
    requires !Latched(s.status)
    ensures Latched(After(op, Some(s)).value.status) <==>
      || op.RequestCancel?
      || (op.CancelPending? && (exists i :: 0 <= i < |s.queue| && s.queue[i].status.Pending?)
          && (forall i :: 0 <= i < |s.queue| ==> !s.queue[i].status.Running?))
      || (op.Lifecycle? && Latched(op.status))
  {
    CountOfZero(s.queue, Pending);
    CountOfZero(s.queue, Running);
  }

  /** Recovery after a crash undoes the start of a prompt. */
  lemma RecoverUndoesMarkRunning(s: Session, id: string)
    requires !Latched(s.status) && (forall p <- s.queue :: !p.status.Running? && (p.status.Pending? ==> !p.started))
    requires Apply(MarkRunning(id), Some(s)).Changed?
    ensures RunOps([MarkRunning(id), Recover], Some(s)) == Some(s.(status := SessionQueued))
  {
    var t := After(MarkRunning(id), Some(s)).value;
    var k := Find(s.queue, id);
    CountOfZero(t.queue, Running);
    assert t.queue[k].status.Running?;
    assert RecoverPrompts(t.queue, false) == s.queue;
    assert After(Recover, Some(t)) == Some(s.(status := SessionQueued));
    var ops := [MarkRunning(id), Recover];
    assert ops[1..] == [Recover] && ops[1..][1..] == [];
    assert RunOps(ops, Some(s)) == RunOps([Recover], Some(t)) == RunOps([], After(Recover, Some(t)));
  }
}
