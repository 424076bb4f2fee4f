/** What the store operations mean for the prompts, the turns and the agent's session id of a record. */
module SessionLaws {
  import opened Prelude
  import opened SessionQueue

  function QueueOf(s: Option<Session>): seq<Prompt> { if s.Some? then s.value.queue else [] }

  /** An append is refused exactly under the latch; accepted, it leaves the old queue as it is and adds one pending
      prompt with the given id and text. */
  lemma AppendAddsPrompt(s: Option<Session>, acpId: string, id: string, text: string)
    ensures var c := Apply(AppendPrompt(acpId, id, text), s);
      && !c.Unchanged?
      && (c.Refused? <==> s.Some? && Latched(s.value.status))
      && (c.Refused? ==> c.error == CancelIsRequested)
      && (c.Changed? ==>
            var q, q' := QueueOf(s), c.session.queue;
            && |q'| == |q| + 1 && q <= q' && q'[|q|].id == id && q'[|q|].text == text
            && q'[|q|].status.Pending? && !q'[|q|].started && q'[|q|].result == "")
  {}

  /** Why an operation may change the status of the i-th prompt from one to another. */
  predicate MayTurn(op: Op, s: Session, i: nat, before: PromptStatus, after: PromptStatus) {
    match op
    case MarkRunning(id) => Find(s.queue, id) == i && !Latched(s.status) && before.Pending? && after.Running?
    case Finish(id, ok, _) =>
      Find(s.queue, id) == i && after == if Latched(s.status) then Canceled else if ok then Completed else Failed
    case CancelPending => before.Pending? && after.Canceled?
    case Recover =>
      if Latched(s.status) then (before.Pending? || before.Running?) && after.Canceled?
      else before.Running? && after.Pending?
    case _ => false
  }

  /** No operation moves a prompt, renames it or changes its text; its status and result change only for a reason. */
  lemma PromptsStay(op: Op, s: Session)
    ensures var y := After(op, Some(s)).value;
      && |s.queue| <= |y.queue|
      && (|s.queue| < |y.queue| ==> op.AppendPrompt? && |y.queue| == |s.queue| + 1)
      && (forall i | 0 <= i < |s.queue| ::
            var p, p' := s.queue[i], y.queue[i];
            && p'.id == p.id && p'.text == p.text
            && (p'.started == p.started
                || (op.MarkRunning? && Find(s.queue, op.id) == i && p'.started)
                || (op.Recover? && p'.status != p.status && !p'.started))
            && (p'.status == p.status || MayTurn(op, s, i, p.status, p'.status))
            && (p'.result == p.result
                || (op.Finish? && Find(s.queue, op.id) == i && !Latched(s.status) && p'.result == op.result)))
  {}

  /** What the operations do where there is no record yet: three of them make one. */
  lemma OnMissingRecord(op: Op)
    ensures var c := Apply(op, None);
      match op
      case AppendPrompt(acpId, _, _) => c.Changed? && c.session.acpId == acpId && c.session.turns == []
                                        && c.session.status.SessionQueued?
      case RequestCancel => c.Changed? && c.session == Session("", CancelRequested, [], [])
      case Lifecycle(acpId, status, turn, _) =>
        c.Changed? && c.session == Session(acpId, status, [], if turn.Some? then [turn.value] else [])
      case SetAcpId(acpId) => if acpId == "" then c.Unchanged? else c == Refused(NoSession)
      case _ => c == Refused(NoSession)
  {}

  /** What an accepted operation must have turned. */
  lemma PromptsTurn(op: Op, s: Session)
    ensures var c := Apply(op, Some(s)); c.Changed? ==>
      var q, q' := s.queue, c.session.queue;
      && (op.MarkRunning? ==>
            var k := Find(q, op.id); k < |q| && q[k].status.Pending? && q'[k].status.Running? && q'[k].started)
      && (op.Finish? ==>
            var k := Find(q, op.id);
            && k < |q|
            && (Latched(s.status) ==> q'[k].status.Canceled?)
            && (!Latched(s.status) && op.ok ==> q'[k].status.Completed? && q'[k].result == op.result)
            && (!Latched(s.status) && !op.ok ==> q'[k].status.Failed? && q'[k].result == op.result))
      && (op.CancelPending? ==> forall i | 0 <= i < |q| :: !q'[i].status.Pending?)
      && (op.Recover? ==> forall i | 0 <= i < |q| ::
            && !q'[i].status.Running? && (Latched(s.status) ==> !q'[i].status.Pending?)
            && (q'[i].status != q[i].status ==> !q'[i].started))
  {}

  /** What an operation adds to the turns: the answer of a prompt recorded completed, or the turn of a lifecycle
      update. */
  function Turned(op: Op, s: Session): seq<string> {
    match op
    case Finish(id, ok, result) => if ok && !Latched(s.status) && Find(s.queue, id) < |s.queue| then [result] else []
    case Lifecycle(_, _, turn, terminal) =>
      if turn.Some? && (terminal || !Latched(s.status)) then [turn.value] else []
    case _ => []
  }

  lemma TurnsGrow(op: Op, s: Session)
    ensures After(op, Some(s)).value.turns == s.turns + Turned(op, s)
  {
    assert s.turns + [] == s.turns;
  }

  /** The agent's session id changes only to a given one that is not empty, and SetAcpId gives it once. */
  lemma AcpIdStays(op: Op, s: Session)
    ensures var y := After(op, Some(s)).value;
      && (y.acpId != s.acpId ==>
            match op
            case AppendPrompt(acpId, _, _) => acpId != "" && y.acpId == acpId
            case Lifecycle(acpId, _, _, _) => acpId != "" && y.acpId == acpId
            case SetAcpId(acpId) => s.acpId == "" && y.acpId == acpId
            case _ => false)
      && (op.SetAcpId? && s.acpId == "" ==> y.acpId == op.acpId)
      && ((op.AppendPrompt? || op.Lifecycle?) && op.acpId != "" && Apply(op, Some(s)).Changed? ==> y.acpId == op.acpId)
  {}

  /** The status an accepted operation leaves an open session in. */
  lemma OpenStatus(op: Op, s: Session)
    requires !Latched(s.status) && Apply(op, Some(s)).Changed?
    ensures Apply(op, Some(s)).session.status ==
      match op
      case AppendPrompt(_, _, _) => SessionQueued
      case MarkRunning(_) => SessionRunning
      case Finish(_, _, _) => SessionCompleted
      case Recover => SessionQueued
      case RequestCancel => CancelRequested
      case Lifecycle(_, status, _, _) => status
      case SetAcpId(_) => s.status
      case CancelPending => if exists p <- s.queue :: p.status.Running? then s.status else SessionCanceled
  {
    CountOfZero(s.queue, Running);
  }

  /** The status any operation leaves a latched session in: canceled is final, and cancel-requested becomes canceled
      when nothing is left to cancel, when recovery or a finishing prompt finds it, or by a final lifecycle status. */
  lemma LatchedStatus(op: Op, s: Session)
    requires Latched(s.status)
    ensures var status := After(op, Some(s)).value.status;
      && (s.status.SessionCanceled? ==> status.SessionCanceled?)
      && (s.status.CancelRequested? ==>
            (status.SessionCanceled? <==>
               || op.Recover?
               || (op.CancelPending? && !exists p <- s.queue :: p.status.Running?)
               || (op.Finish? && Find(s.queue, op.id) < |s.queue|)
               || (op.Lifecycle? && op.terminal && (op.status.SessionCompleted? || op.status.SessionCanceled?))))
      && (status.SessionCanceled? || status.CancelRequested?)
  {
    CountOfZero(s.queue, Running);
  }

  function TurnedBy(ops: seq<Op>, s: Session): seq<string>
    decreases |ops|
  {
    if ops == [] then [] else Turned(ops[0], s) + TurnedBy(ops[1..], After(ops[0], Some(s)).value)
  }

  /** Over any run of operations the prompts stay where they are with their ids and texts, and the turns are the
      answers recorded completed and the lifecycle turns, in order. */
  lemma {:induction false} RunKeepsPrompts(ops: seq<Op>, s: Session)
    ensures var r := RunOps(ops, Some(s));
      && r.Some? && |s.queue| <= |r.value.queue| && r.value.turns == s.turns + TurnedBy(ops, s)
      && (forall i | 0 <= i < |s.queue| ::
            r.value.queue[i].id == s.queue[i].id && r.value.queue[i].text == s.queue[i].text)
    decreases |ops|
  {
    hide Apply, Turned, MayTurn;
    if ops == [] {
      assert s.turns + [] == s.turns;
    } else {
      PromptsStay(ops[0], s);
      TurnsGrow(ops[0], s);
      var t := After(ops[0], Some(s)).value;
      RunKeepsPrompts(ops[1..], t);
      assert s.turns + Turned(ops[0], s) + TurnedBy(ops[1..], t) == s.turns
          + (Turned(ops[0], s) + TurnedBy(ops[1..], t));
    }
  }
}
