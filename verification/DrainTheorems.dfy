/** The promises of the prompt queue, over all runs of the drain machine. */
module DrainTheorems {
  import opened Prelude
  import opened SessionQueue
  import opened DrainRace

  /** Actions that write neither the session nor an event. */
  predicate OnlyMoves(a: Act) {
    a.Acquire? || a.AcquireOther? || a.Release? || a.Crash? || a.Again? || a.Check? || a.StopLoop? || a.Pick?
    || a.Admit?
  }

  lemma MoveKeepsInv(s: State, a: Act)
    requires Inv(s) && OnlyMoves(a) && Do(s, a).Some?
    ensures Inv(Do(s, a).value)
  {
    hide Ordered, UniquePromptIds, EventsInv;
    if a.Pick? && s.session.Some? {
      var q := s.session.value.queue;
      if NextPending(q) < |q| {
        assert NoneRunning(q) && EarlierTerminal(q, NextPending(q));
      }
    }
  }

  lemma OtherKeepsInv(s: State, op: Op, w: Write)
    requires Inv(s) && OtherMay(s, op)
    ensures Inv(s.(session := Stored(s, op, w)))
  {
    hide Ordered, EventsInv;
    var t := s.(session := Stored(s, op, w));
    if s.session.None? {
      if t.session.Some? { NewSession(op, t.session.value); }
    } else if t.session != s.session {
      var x, y := s.session.value, t.session.value;
      OtherIsOtherStep(s, op);
      OtherStepKeeps(x, y, s.events);
      if s.holder.Drain? {
        if s.holder.pc.Admitted? { StaysOpen(s, op, s.holder.pc.i); }
        OtherStepKeepsDrain(x, y, s.holder.pc);
      }
    }
  }

  lemma NewSession(op: Op, y: Session)
    requires After(op, None) == Some(y)
    ensures UniquePromptIds(y.queue) && Ordered(y.queue) && EventsInv(y.queue, []) && NoneRunning(y.queue)
  {
  }

  /** Nothing another process may do during launch admission closes the latch. */
  lemma StaysOpen(s: State, op: Op, i: nat)
    requires s.session.Some? && At(s, Admitted(i)) && DrainInv(s.session.value, Admitted(i)) && OtherMay(s, op)
    ensures !Latched(After(op, s.session).value.status)
  {
    LatchClosesIff(op, s.session.value);
  }

  lemma RecoverKeepsInv(s: State, w: Write, pc: Pc)
    requires Inv(s) && s.session.Some? && (pc.Ended? || (pc.Loop? && Accepted(s, Recover, w)))
    ensures Inv(Goto(s.(session := Stored(s, Recover, w)), pc))
  {
    hide Ordered, UniquePromptIds, EventsInv;
    RecoverKeeps(s.session.value, s.events);
    if Accepted(s, Recover, w) { assert Stored(s, Recover, w) == After(Recover, s.session); }
  }

  lemma MarkKeepsInv(s: State, w: Write)
    requires Inv(s) && Do(s, Mark(w)).Some?
    ensures Inv(Do(s, Mark(w)).value)
  {
    hide Ordered, UniquePromptIds, EventsInv, InHand;
    MarkKeeps(s.session.value, s.holder.pc.i, s.events);
  }

  lemma StartKeepsInv(s: State, ok: bool)
    requires Inv(s) && Do(s, StartRunner(ok)).Some?
    ensures Inv(Do(s, StartRunner(ok)).value)
  {
    hide Ordered, UniquePromptIds, InHand;
  }

  lemma SendKeepsInv(s: State)
    requires Inv(s) && Do(s, Send).Some?
    ensures Inv(Do(s, Send).value)
  {
    hide Ordered, UniquePromptIds;
    EventsBefore(s.session.value, s.holder.pc.i, s.events);
  }

  /** What recording the answer of the prompt in hand does to the state. */
  lemma EndFacts(s: State, ok: bool, result: string, w: Write)
    requires s.session.Some? && s.holder.Drain? && s.holder.pc.Sent? && s.holder.pc.i < |s.session.value.queue|
    ensures var x, i := s.session.value, s.holder.pc.i; var c := Apply(Finish(x.queue[i].id, ok, result), s.session);
      var t := DoEndPrompt(s, ok, result, w).value;
      c.Changed? ==>
        && t.session == (if w.Applied() then Some(c.session) else s.session)
        && t.events == (if w.Applied() && !Latched(x.status) then s.events + [PromptEnded(i)] else s.events)
        && t.holder.Drain? && (t.holder.pc.Ended? || (t.holder.pc.Loop? && w.Applied()))
  {
    hide Apply;
  }

  lemma SentFacts(s: State)
    requires Inv(s) && s.holder.Drain? && s.holder.pc.Sent?
    ensures s.session.Some? && s.holder.pc.i < |s.session.value.queue|
    ensures var x := s.session.value;
      UniquePromptIds(x.queue) && Ordered(x.queue) && EventsInv(x.queue, s.events) && InHand(x, s.holder.pc.i)
  {
    hide UniquePromptIds, Ordered, EventsInv;
  }

  lemma EndedInv(s: State, t: State)
    requires Inv(s) && s.session.Some? && t.holder.Drain?
    requires t.session.Some? && (t.holder.pc.Ended? || t.holder.pc.Loop?)
    requires
      || (t.session == s.session && t.events == s.events && t.holder.pc.Ended?)
      || (UniquePromptIds(t.session.value.queue) && Ordered(t.session.value.queue)
          && EventsInv(t.session.value.queue, t.events) && NoneRunning(t.session.value.queue))
    ensures Inv(t)
  {
    hide UniquePromptIds, Ordered, EventsInv, NoneRunning;
  }

  lemma EndKeepsInv(s: State, ok: bool, result: string, w: Write)
    requires Inv(s) && Do(s, EndPrompt(ok, result, w)).Some?
    ensures Inv(Do(s, EndPrompt(ok, result, w)).value)
  {
    var t := DoEndPrompt(s, ok, result, w).value;
    SentFacts(s);
    EndFacts(s, ok, result, w);
    hide Inv, Ordered, UniquePromptIds, EventsInv, InHand, NoneRunning, Apply, DoEndPrompt, Latched;
    FinishKeeps(s.session.value, s.holder.pc.i, ok, result, s.events);
    EndedInv(s, t);
  }

  lemma CancelOutKeepsInv(s: State, w: Write)
    requires Inv(s) && Do(s, CancelOut(w)).Some?
    ensures Inv(Do(s, CancelOut(w)).value)
  {
    hide Ordered, UniquePromptIds, EventsInv;
    OtherKeepsInv(s, CancelPending, w);
  }

  lemma StoreAcpIdKeepsInv(s: State, acpId: string, w: Write)
    requires Inv(s) && Do(s, StoreAcpId(acpId, w)).Some?
    ensures Inv(Do(s, StoreAcpId(acpId, w)).value)
  {
    hide Ordered, UniquePromptIds, EventsInv, InHand;
    OtherKeepsInv(s, SetAcpId(acpId), w);
  }

  lemma StepKeepsInv(s: State, a: Act)
    requires Inv(s) && Do(s, a).Some?
    ensures Inv(Do(s, a).value)
  {
    if OnlyMoves(a) {
      MoveKeepsInv(s, a);
    } else {
      hide Inv, Stored, Accepted, OtherMay;
      match a
      case DrainRecover(w) => RecoverStep(s, a, w);
      case RecoverOut(w) => RecoverStep(s, a, w);
      case WatchRecover(w) => RecoverStep(s, a, w);
      case Mark(w) => MarkKeepsInv(s, w);
      case StartRunner(ok) => StartKeepsInv(s, ok);
      case Send => SendKeepsInv(s);
      case EndPrompt(ok, result, w) => EndKeepsInv(s, ok, result, w);
      case CancelOut(w) => CancelOutKeepsInv(s, w);
      case StoreAcpId(acpId, w) => StoreAcpIdKeepsInv(s, acpId, w);
      case Other(op, w) => OtherKeepsInv(s, op, w);
    }
  }

  lemma RecoverStep(s: State, a: Act, w: Write)
    requires Inv(s) && a in {DrainRecover(w), RecoverOut(w), WatchRecover(w)} && Do(s, a).Some?
    ensures Inv(Do(s, a).value)
  {
    hide Ordered, UniquePromptIds, EventsInv;
    if s.session.Some? {
      RecoverKeepsInv(s, w, Ended);
      if Accepted(s, Recover, w) { RecoverKeepsInv(s, w, Loop); }
    }
  }

  lemma {:induction false} RunKeepsInv(s: State, acts: seq<Act>)
    requires Inv(s) && Run(s, acts).Some?
    ensures Inv(Run(s, acts).value)
    decreases acts
  {
    hide Inv, Do;
    if acts != [] {
      StepKeepsInv(s, acts[0]);
      RunKeepsInv(Do(s, acts[0]).value, acts[1..]);
    }
  }

  /** In every reachable state at most one prompt is running, and every prompt before a running, completed
      or failed one is completed, failed or canceled. */
  lemma PromptsRunInQueueOrder(acts: seq<Act>)
    requires Run(INITIAL, acts).Some? && Run(INITIAL, acts).value.session.Some?
    ensures var q := Run(INITIAL, acts).value.session.value.queue;
      && Ordered(q)
      && (forall i, j | 0 <= i < j < |q| :: !(q[i].status.Running? && q[j].status.Running?))
  {
    RunKeepsInv(INITIAL, acts);
    var q := Run(INITIAL, acts).value.session.value.queue;
    forall i, j | 0 <= i < j < |q| && q[j].status.Running? ensures !q[i].status.Running? {
      assert EarlierTerminal(q, j) && Terminal(q[i]);
    }
  }

  /** After a prompt has ended, no run sends or ends it or an earlier one again. */
  lemma EndedPromptsAreNeverSentAgain(acts: seq<Act>)
    requires Run(INITIAL, acts).Some?
    ensures var events := Run(INITIAL, acts).value.events;
      forall a, b | 0 <= a < b < |events| && events[a].PromptEnded? ::
        events[b] == RunnerStarted || (events[b].i > events[a].i)
  {
    RunKeepsInv(INITIAL, acts);
  }

  /** A drain starts its runner only while the latch is open. */
  lemma RunnerStartsUnlatched(acts: seq<Act>, ok: bool)
    requires Run(INITIAL, acts).Some? && Do(Run(INITIAL, acts).value, StartRunner(ok)).Some?
    ensures !IsLatched(Run(INITIAL, acts).value) && Run(INITIAL, acts).value.session.Some?
  {
    RunKeepsInv(INITIAL, acts);
  }

  /** The prompt that a drain is about to send whatever happens to the latch. */
  function Committed(s: State): Option<nat> {
    if s.holder.Drain? && (s.holder.pc.Started? || s.holder.pc.Ready?) then Some(s.holder.pc.i) else None
  }

  /** What a step may do to a latched session. */
  predicate LatchedTo(s: State, t: State) {
    && s.session.Some? && t.session.Some? && OnlyCanceledFurther(s.session.value, t.session.value)
    && (|| (t.events == s.events && (Committed(t).None?
        || (Committed(t) == Committed(s) && t.holder.prompt == s.holder.prompt)))
        || (Committed(s).Some? && t.events == s.events + [PromptSent(Committed(s).value, s.holder.prompt)]
            && Committed(t).None?))
  }

  lemma LatchedStored(s: State, op: Op, w: Write)
    requires IsLatched(s)
    ensures var t := Stored(s, op, w); t.Some? && OnlyCanceledFurther(s.session.value, t.value)
  {
    LatchedStep(op, s.session.value);
    hide Apply;
  }

  lemma LatchedMove(s: State, a: Act)
    requires Inv(s) && IsLatched(s) && OnlyMoves(a) && Do(s, a).Some?
    ensures LatchedTo(s, Do(s, a).value)
  {
    hide Ordered, UniquePromptIds, EventsInv;
  }

  lemma LatchedTurn(s: State, a: Act)
    requires Inv(s) && IsLatched(s) && (a.Mark? || a.StartRunner? || a.Send?) && Do(s, a).Some?
    ensures LatchedTo(s, Do(s, a).value)
  {
    if a.Mark? {
      LatchedStep(MarkRunning(IdAt(s, s.holder.pc.i)), s.session.value);
    }
    hide Ordered, UniquePromptIds, EventsInv, InHand, Apply;
  }

  lemma LatchedRecord(s: State, a: Act)
    requires IsLatched(s) && (a.StoreAcpId? || a.EndPrompt? || a.Other?) && Do(s, a).Some?
    ensures LatchedTo(s, Do(s, a).value)
  {
    hide Stored, Accepted, OnlyCanceledFurther, Apply;
    match a
    case StoreAcpId(acpId, w) => LatchedStored(s, SetAcpId(acpId), w);
    case EndPrompt(ok, result, w) => LatchedStored(s, Finish(IdAt(s, s.holder.pc.i), ok, result), w);
    case Other(op, w) => LatchedStored(s, op, w);
  }

  lemma LatchedClear(s: State, a: Act)
    requires IsLatched(s) && (a.DrainRecover? || a.RecoverOut? || a.WatchRecover? || a.CancelOut?) && Do(s, a).Some?
    ensures LatchedTo(s, Do(s, a).value)
  {
    hide Stored, Accepted, OnlyCanceledFurther, Apply;
    LatchedStored(s, if a.CancelOut? then CancelPending else Recover, a.w);
  }

  lemma LatchedDo(s: State, a: Act)
    requires Inv(s) && IsLatched(s) && Do(s, a).Some?
    ensures LatchedTo(s, Do(s, a).value)
  {
    hide Do, Inv, LatchedTo, IsLatched;
    if OnlyMoves(a) {
      LatchedMove(s, a);
    } else if a.Mark? || a.StartRunner? || a.Send? {
      LatchedTurn(s, a);
    } else if a.StoreAcpId? || a.EndPrompt? || a.Other? {
      LatchedRecord(s, a);
    } else {
      LatchedClear(s, a);
    }
  }

  /** Once the latch is closed, whatever runs next: the session stays latched, every prompt keeps its status or is
      canceled, no runner starts, no prompt is recorded completed or failed, and none is sent but the one that a
      drain had its runner started for, once. */
  lemma {:induction false} NothingHappensAfterTheLatch(s: State, acts: seq<Act>)
    requires Inv(s) && IsLatched(s) && Run(s, acts).Some?
    ensures LatchedTo(s, Run(s, acts).value)
    decreases acts
  {
    hide Inv, Do;
    if acts != [] {
      LatchedDo(s, acts[0]);
      StepKeepsInv(s, acts[0]);
      NothingHappensAfterTheLatch(Do(s, acts[0]).value, acts[1..]);
    }
  }
}
