/** Which prompts a drain sends again and which it counts as completed, over all runs of the drain machine. */
module DrainSends {
  import opened Prelude
  import opened SessionQueue
  import opened DrainRace
  import opened DrainTheorems

  // ---- What happened to a prompt stays ----

  /** Prompts keep their places, terminal ones their status, and the latch stays closed. */
  predicate Settled(x: Session, y: Session) {
    && |x.queue| <= |y.queue| && (Latched(x.status) ==> Latched(y.status))
    && (forall k | 0 <= k < |x.queue| && Terminal(x.queue[k]) :: y.queue[k].status == x.queue[k].status)
  }

  lemma StoredSettles(x: Session, op: Op, w: Write)
    requires op.Finish? ==> var k := Find(x.queue, op.id); k == |x.queue| || InHand(x, k)
    ensures var r := if w.Applied() then After(op, Some(x)) else Some(x); r.Some? && Settled(x, r.value)
  {
    hide EarlierTerminal, LaterUntouched;
  }

  lemma FinishSettles(s: State, ok: bool, result: string, w: Write)
    requires Inv(s) && s.session.Some? && Do(s, EndPrompt(ok, result, w)).Some?
    ensures var t := Do(s, EndPrompt(ok, result, w)).value; t.session.Some? && Settled(s.session.value, t.session.value)
  {
    var x, i := s.session.value, s.holder.pc.i;
    FindUnique(x.queue, i);
    hide Ordered, UniquePromptIds, EventsInv, InHand, Settled;
    StoredSettles(x, Finish(x.queue[i].id, ok, result), w);
    hide Apply;
  }

  lemma StepSettles(s: State, a: Act)
    requires Inv(s) && s.session.Some? && Do(s, a).Some?
    ensures var t := Do(s, a).value; t.session.Some? && Settled(s.session.value, t.session.value)
  {
    if a.EndPrompt? {
      FinishSettles(s, a.ok, a.result, a.w);
    } else {
      hide Inv, Settled, Apply, Accepted, Ordered, Find;
      assert Settled(s.session.value, s.session.value) by { StoredSettles(s.session.value, Recover, NotApplied); }
      match a
      case DrainRecover(w) => StoredSettles(s.session.value, Recover, w);
      case RecoverOut(w) => StoredSettles(s.session.value, Recover, w);
      case WatchRecover(w) => StoredSettles(s.session.value, Recover, w);
      case CancelOut(w) => StoredSettles(s.session.value, CancelPending, w);
      case Mark(w) => StoredSettles(s.session.value, MarkRunning(IdAt(s, s.holder.pc.i)), w);
      case StoreAcpId(acpId, w) => StoredSettles(s.session.value, SetAcpId(acpId), w);
      case Other(op, w) => StoredSettles(s.session.value, op, w);
      case _ =>
    }
  }

  lemma Later(s: State, a: Act)
    requires Do(s, a).Some?
    ensures var t := Do(s, a).value;
      || t.events == s.events
      || (a.Send? && s.holder.Drain? && s.holder.pc.Ready?
          && t.events == s.events + [PromptSent(s.holder.pc.i, s.holder.prompt)])
      || (!a.Send? && exists e: Event :: !e.PromptSent? && t.events == s.events + [e])
  {
    hide Stored, Accepted, Apply, OtherMay;
    if a.EndPrompt? { assert !PromptEnded(s.holder.pc.i).PromptSent?; }
    assert !RunnerStarted.PromptSent?;
  }

  /** Every prompt before a sent one is terminal. */
  predicate SentInv(s: State) {
    forall a | 0 <= a < |s.events| && s.events[a].PromptSent? ::
      s.session.Some? && s.events[a].i < |s.session.value.queue|
      && EarlierTerminal(s.session.value.queue, s.events[a].i)
  }

  lemma EarlierSettled(x: Session, y: Session, i: nat)
    requires Settled(x, y) && i < |x.queue| && EarlierTerminal(x.queue, i)
    ensures i < |y.queue| && EarlierTerminal(y.queue, i)
  {
    forall k | 0 <= k < i ensures Terminal(y.queue[k]) { assert Terminal(x.queue[k]); }
  }

  lemma SentIsPlaced(s: State, i: nat)
    requires Inv(s) && s.holder.Drain? && s.holder.pc == Ready(i) && s.session.Some?
    ensures i < |s.session.value.queue| && EarlierTerminal(s.session.value.queue, i)
  {
    hide EarlierTerminal, Ordered, UniquePromptIds, EventsInv;
  }

  lemma StepKeepsSent(s: State, a: Act)
    requires Inv(s) && SentInv(s) && Do(s, a).Some?
    ensures SentInv(Do(s, a).value)
  {
    Later(s, a);
    var t := Do(s, a).value;
    if s.session.None? {
      assert s.events == [] && !a.Send?;
    } else {
      StepSettles(s, a);
      var x, y := s.session.value, t.session.value;
      if a.Send? { SentIsPlaced(s, s.holder.pc.i); }
      hide Inv, Do, Settled, EarlierTerminal;
      forall k | 0 <= k < |t.events| && t.events[k].PromptSent?
        ensures t.events[k].i < |y.queue| && EarlierTerminal(y.queue, t.events[k].i)
      {
        var i := t.events[k].i;
        assert i < |x.queue| && EarlierTerminal(x.queue, i);
        EarlierSettled(x, y, i);
      }
    }
  }

  lemma {:induction false} RunKeepsSent(s: State, acts: seq<Act>)
    requires Inv(s) && SentInv(s) && Run(s, acts).Some?
    ensures SentInv(Run(s, acts).value)
    decreases acts
  {
    hide Inv, SentInv, Do;
    if acts != [] {
      StepKeepsInv(s, acts[0]);
      StepKeepsSent(s, acts[0]);
      RunKeepsSent(Do(s, acts[0]).value, acts[1..]);
    }
  }

  // ---- Which prompts can be sent again ----

  /** The latch is open and the prompt is pending or running, or a drain has its runner started for it. */
  predicate CanBeSent(s: State, i: nat) {
    || (s.session.Some? && !IsLatched(s) && i < |s.session.value.queue|
        && (s.session.value.queue[i].status.Pending? || s.session.value.queue[i].status.Running?))
    || Committed(s) == Some(i)
  }

  /** The prompt was sent. */
  predicate Sends(events: seq<Event>, i: nat) {
    exists k :: 0 <= k < |events| && events[k].PromptSent? && events[k].i == i
  }

  ghost predicate IsSentLater(s: State, i: nat) {
    exists t :: Reaches(s, t) && s.events <= t.events && Sends(t.events[|s.events|..], i)
  }

  lemma CommitsOnlyOpen(s: State, a: Act, i: nat)
    requires Inv(s) && Do(s, a).Some? && Committed(Do(s, a).value) == Some(i) && Committed(s) != Some(i)
    ensures CanBeSent(s, i)
  {
    hide Ordered, UniquePromptIds, EventsInv, LaterUntouched, EarlierTerminal;
    if a.Mark? && s.session.Some? {
      FindUnique(s.session.value.queue, i) by { assert UniquePromptIds(s.session.value.queue); }
    }
  }

  lemma StaysUnsendable(s: State, a: Act, i: nat)
    requires Inv(s) && s.session.Some? && i < |s.session.value.queue| && !CanBeSent(s, i) && Do(s, a).Some?
    ensures var t := Do(s, a).value;
      && t.session.Some? && i < |t.session.value.queue| && !CanBeSent(t, i)
      && s.events <= t.events && !Sends(t.events[|s.events|..], i)
  {
    var t := Do(s, a).value;
    StepSettles(s, a);
    Later(s, a);
    if Committed(t) == Some(i) { CommitsOnlyOpen(s, a, i); }
    hide Inv, Do;
  }

  lemma {:induction false} NeverSentAgain(s: State, acts: seq<Act>, i: nat)
    requires Inv(s) && s.session.Some? && i < |s.session.value.queue| && !CanBeSent(s, i) && Run(s, acts).Some?
    ensures var t := Run(s, acts).value; s.events <= t.events && !Sends(t.events[|s.events|..], i)
    decreases acts
  {
    hide Inv, Do, CanBeSent;
    if acts != [] {
      var t, u := Do(s, acts[0]).value, Run(s, acts).value;
      StaysUnsendable(s, acts[0], i);
      StepKeepsInv(s, acts[0]);
      NeverSentAgain(t, acts[1..], i);
      assert u.events[|s.events|..] == t.events[|s.events|..] + u.events[|t.events|..];
    }
  }

  // ---- A run that sends it ----

  ghost predicate Reaches(s: State, t: State) { exists acts :: Run(s, acts) == Some(t) }

  lemma {:induction false} RunAppend(s: State, xs: seq<Act>, ys: seq<Act>)
    requires Run(s, xs).Some?
    ensures Run(s, xs + ys) == Run(Run(s, xs).value, ys)
    decreases xs
  {
    hide Do;
    if xs == [] {
      assert xs + ys == ys;
    } else {
      assert (xs + ys)[1..] == xs[1..] + ys;
      RunAppend(Do(s, xs[0]).value, xs[1..], ys);
    }
  }

  lemma Extend(s: State, t: State, a: Act)
    requires Reaches(s, t) && Do(t, a).Some?
    ensures Reaches(s, Do(t, a).value)
  {
    hide Do;
    var acts :| Run(s, acts) == Some(t);
    RunAppend(s, acts, [a]);
    assert [a][1..] == [] && Run(s, acts + [a]) == Do(t, a);
  }

  predicate Open(s: State, i: nat) {
    && s.session.Some? && !IsLatched(s) && i < |s.session.value.queue|
    && UniquePromptIds(s.session.value.queue) && EarlierTerminal(s.session.value.queue, i)
    && (s.session.value.queue[i].status.Pending? || s.session.value.queue[i].status.Running?)
  }

  lemma RecoverOpens(s: State, i: nat)
    requires Open(s, i) && At(s, Leased)
    ensures DoDrainRecover(s, Confirmed).Some?
    ensures var t := DoDrainRecover(s, Confirmed).value;
      && Open(t, i) && t.session.value.queue[i].status.Pending? && t.holder == s.holder.(pc := Loop)
      && t.counted == s.counted && t.events == s.events
      && t.session.value.queue[i].text == s.session.value.queue[i].text
  {
    CountOfZero(s.session.value.queue, Running);
  }

  lemma OpenIsNext(s: State, i: nat)
    requires Open(s, i) && s.session.value.queue[i].status.Pending?
    ensures NextPending(s.session.value.queue) == i
  {
    assert NextPending(s.session.value.queue) >= i;
  }

  /** A new drain up to the moment it marks the prompt running. */
  lemma DrainPicks(s0: State, s: State, i: nat) returns (t: State)
    requires Reaches(s0, s) && Open(s, i) && s.holder.NoHolder?
    ensures Reaches(s0, t) && Open(t, i) && t.events == s.events && t.counted == s.counted
    ensures t.session.value.queue[i].text == s.session.value.queue[i].text
    ensures t.session.value.queue[i].status.Pending?
        && t.holder == Drain(Checked(i), false, s.session.value.queue[i].text)
  {
    hide Reaches, Apply, UniquePromptIds, EarlierTerminal, Stored, Accepted;
    Extend(s0, s, Acquire);
    t := DoAcquire(s).value;
    RecoverOpens(t, i);
    Extend(s0, t, DrainRecover(Confirmed));
    t := DoDrainRecover(t, Confirmed).value;
    Extend(s0, t, Check(false));
    t := DoCheck(t, false).value;
    OpenIsNext(t, i);
    Extend(s0, t, Pick);
    t := DoPick(t).value;
    Extend(s0, t, Check(false));
    t := DoCheck(t, false).value;
  }

  /** A committed drain sends. */
  lemma CommittedSends(s0: State, s: State, i: nat) returns (t: State)
    requires Reaches(s0, s) && Committed(s) == Some(i)
    ensures Reaches(s0, t) && t.events == s.events + [PromptSent(i, s.holder.prompt)] && t.session == s.session
    ensures t.holder == s.holder.(pc := Sent(i)) && t.counted == s.counted
  {
    hide Reaches;
    t := s;
    if s.holder.pc.Started? {
      Extend(s0, t, StoreAcpId("", Confirmed));
      t := DoStoreAcpId(t, "", Confirmed).value;
    }
    Extend(s0, t, Send);
    t := DoSend(t).value;
  }

  /** A new drain up to the moment it has sent the prompt. */
  lemma OpenSends(s0: State, s: State, i: nat) returns (t: State)
    requires Reaches(s0, s) && Open(s, i) && s.holder.NoHolder?
    ensures Reaches(s0, t) && Open(t, i)
        && t.events == s.events + [RunnerStarted, PromptSent(i, s.session.value.queue[i].text)]
    ensures t.session.value.queue[i].text == s.session.value.queue[i].text
    ensures t.holder == Drain(Sent(i), true, s.session.value.queue[i].text) && t.counted == s.counted
  {
    hide Reaches;
    t := DrainPicks(s0, s, i);
    FindUnique(t.session.value.queue, i);
    Extend(s0, t, Mark(Confirmed));
    t := DoMark(t, Confirmed).value;
    assert Open(t, i);
    Extend(s0, t, Admit);
    t := DoAdmit(t).value;
    Extend(s0, t, StartRunner(true));
    t := DoStartRunner(t, true).value;
    t := CommittedSends(s0, t, i);
  }

  lemma OpenIsSentLater(s: State, i: nat)
    requires Open(s, i)
    ensures IsSentLater(s, i)
  {
    assert Run(s, []) == Some(s);
    hide Reaches;
    Extend(s, s, Crash);
    var t := OpenSends(s, DoCrash(s).value, i);
    assert t.events[|s.events|..][1].PromptSent?;
  }

  lemma CommittedIsSentLater(s: State, i: nat)
    requires Committed(s) == Some(i)
    ensures IsSentLater(s, i)
  {
    assert Run(s, []) == Some(s);
    hide Reaches;
    var t := CommittedSends(s, s, i);
    assert t.events[|s.events|..][0].PromptSent?;
  }

  lemma SentIsOpenOrCommitted(s: State, i: nat)
    requires Inv(s) && SentInv(s) && Sends(s.events, i)
    ensures s.session.Some? && i < |s.session.value.queue|
    ensures CanBeSent(s, i) ==> Open(s, i) || Committed(s) == Some(i)
  {
    hide Ordered, EventsInv, DrainInv, EarlierTerminal, UniquePromptIds;
    var a :| 0 <= a < |s.events| && s.events[a].PromptSent? && s.events[a].i == i;
  }

  /** A prompt that was sent is sent again by some run if and only if the latch is open and the prompt is pending or
      running, or a drain has its runner started for it. So a prompt that is recorded as completed, failed or
      canceled is not, and one whose drain crashed before recording the reply can be. */
  lemma SentAgainIff(acts: seq<Act>, i: nat)
    requires Run(INITIAL, acts).Some? && Sends(Run(INITIAL, acts).value.events, i)
    ensures CanBeSent(Run(INITIAL, acts).value, i) <==> IsSentLater(Run(INITIAL, acts).value, i)
  {
    var s := Run(INITIAL, acts).value;
    RunKeepsInv(INITIAL, acts);
    RunKeepsSent(INITIAL, acts);
    SentIsOpenOrCommitted(s, i);
    hide Inv, SentInv, CanBeSent, Run, Open;
    if CanBeSent(s, i) {
      if Open(s, i) { OpenIsSentLater(s, i); } else { CommittedIsSentLater(s, i); }
    } else {
      forall more | Run(s, more).Some?
        ensures var t := Run(s, more).value; s.events <= t.events && !Sends(t.events[|s.events|..], i)
      {
        NeverSentAgain(s, more, i);
      }
    }
  }

  /** It happens: one run sends the same prompt twice. */
  lemma InterruptedPromptIsSentAgain()
    ensures exists s ::
              Reaches(INITIAL, s)
              && s.events == [RunnerStarted, PromptSent(0, "hi"), RunnerStarted, PromptSent(0, "hi")]
  {
    assert Run(INITIAL, []) == Some(INITIAL);
    hide Reaches;
    var append := Other(AppendPrompt("", "a", "hi"), Confirmed);
    Extend(INITIAL, INITIAL, append);
    var s := OpenSends(INITIAL, Do(INITIAL, append).value, 0);
    Extend(INITIAL, s, Crash);
    s := OpenSends(INITIAL, DoCrash(s).value, 0);
  }

  // ---- Which prompts a drain counts as completed ----

  /** A drain that counts the prompt in hand as completed has recorded it as completed if and only if the latch was
      open, and as canceled otherwise. */
  lemma CountedIsCompletedIff(s: State, result: string, w: Write)
    requires Inv(s) && Do(s, EndPrompt(true, result, w)).Some?
    ensures var t := Do(s, EndPrompt(true, result, w)).value; var i := s.holder.pc.i;
      t.counted == s.counted + [i] ==>
        && t.session.Some? && i < |t.session.value.queue|
        && t.session.value.queue[i].status == (if IsLatched(s) then Canceled else Completed)
  {
    hide Ordered, UniquePromptIds, EventsInv, LaterUntouched, EarlierTerminal;
    if s.session.Some? {
      FindUnique(s.session.value.queue, s.holder.pc.i) by { assert UniquePromptIds(s.session.value.queue); }
    }
  }

  predicate AtWork(pc: Pc) { pc.Marked? || pc.Admitted? || pc.Started? || pc.Ready? || pc.Sent? }

  function StatusOf(s: State, i: nat): Option<PromptStatus> {
    if s.session.Some? && i < |s.session.value.queue| then Some(s.session.value.queue[i].status) else None
  }

  /** No drain has a prompt at work, nor can one under the latch. */
  predicate Idle(s: State) { s.holder.Drain? ==> !AtWork(s.holder.pc) }

  /** The counted prompts are completed, but for the last, which may be canceled; in that case the latch is closed
      and no drain has a prompt at work. */
  predicate CountInv(s: State) {
    && (forall j, k | 0 <= j < k < |s.counted| :: s.counted[j] < s.counted[k])
    && (forall k | 0 <= k < |s.counted| - 1 :: StatusOf(s, s.counted[k]) == Some(Completed))
    && (s.counted != [] ==> LastCount(s))
  }

  predicate LastCount(s: State)
    requires s.counted != []
  {
    var status := StatusOf(s, s.counted[|s.counted| - 1]);
    status == Some(Completed) || (status == Some(Canceled) && IsLatched(s) && Idle(s))
  }

  lemma CountsOne(s: State, a: Act)
    requires Inv(s) && Do(s, a).Some?
    ensures var t := Do(s, a).value;
      || (t.counted == s.counted && (IsLatched(s) && Idle(s) ==> Idle(t)))
      || (s.session.Some? && a.EndPrompt? && a.ok && s.holder.Drain? && s.holder.pc.Sent?
          && t.counted == s.counted + [s.holder.pc.i] && Idle(t))
  {
    if a.Mark? && s.session.Some? && IsLatched(s) { LatchedStep(MarkRunning(IdAt(s, s.holder.pc.i)), s.session.value); }
    hide Ordered, UniquePromptIds, EventsInv, LaterUntouched, EarlierTerminal;
  }

  /** It happens that a counted prompt is canceled: cancellation is requested while the agent works on it. */
  lemma CountedPromptMayBeCanceled()
    ensures exists s :: Reaches(INITIAL, s) && s.counted == [0] && StatusOf(s, 0) == Some(Canceled)
  {
    assert Run(INITIAL, []) == Some(INITIAL);
    hide Reaches;
    var append := Other(AppendPrompt("", "a", "hi"), Confirmed);
    Extend(INITIAL, INITIAL, append);
    var s := OpenSends(INITIAL, Do(INITIAL, append).value, 0);
    AtWorkIsCanceled(INITIAL, s);
  }

  lemma AtWorkIsCanceled(s0: State, s: State)
    requires Reaches(s0, s) && Open(s, 0) && s.holder.Drain? && s.holder.pc == Sent(0) && s.counted == []
    ensures exists t :: Reaches(s0, t) && t.counted == [0] && StatusOf(t, 0) == Some(Canceled)
  {
    hide Reaches;
    FindUnique(s.session.value.queue, 0);
    Extend(s0, s, Other(RequestCancel, Confirmed));
    var t := DoOther(s, RequestCancel, Confirmed).value;
    FindUnique(t.session.value.queue, 0);
    Extend(s0, t, EndPrompt(true, "", Confirmed));
    t := DoEndPrompt(t, true, "", Confirmed).value;
    assert t.counted == [0] && StatusOf(t, 0) == Some(Canceled);
  }

  /** What is completed stands before the prompt at work. */
  lemma CompletedBefore(s: State, i: nat, k: nat)
    requires Inv(s) && s.session.Some? && s.holder.Drain? && s.holder.pc == Sent(i) && StatusOf(s, k) == Some(Completed)
    ensures k < i
  {
    hide Ordered, UniquePromptIds, EventsInv, EarlierTerminal;
  }

  lemma StatusSettled(s: State, a: Act, k: nat)
    requires Inv(s) && s.session.Some? && Do(s, a).Some? && StatusOf(s, k) in {Some(Completed), Some(Canceled)}
    ensures StatusOf(Do(s, a).value, k) == StatusOf(s, k) && (IsLatched(s) ==> IsLatched(Do(s, a).value))
  {
    StepSettles(s, a);
    hide Inv, Do;
  }

  lemma CountedNext(s: State, a: Act)
    requires Inv(s) && CountInv(s) && s.session.Some? && Do(s, a).Some? && Do(s, a).value.counted == s.counted
    requires IsLatched(s) && Idle(s) ==> Idle(Do(s, a).value)
    ensures CountInv(Do(s, a).value)
  {
    var t := Do(s, a).value;
    hide Inv, Do, IsLatched, Idle, StatusOf;
    forall k | 0 <= k < |s.counted| - 1 ensures StatusOf(t, s.counted[k])
        == Some(Completed) { StatusSettled(s, a, s.counted[k]); }
    if s.counted != [] { StatusSettled(s, a, s.counted[|s.counted| - 1]); }
  }

  lemma CountedOneMore(s: State, a: Act, i: nat)
    requires Inv(s) && CountInv(s) && s.session.Some? && Do(s, a).Some? && a.EndPrompt? && a.ok
    requires s.holder.Drain? && s.holder.pc == Sent(i) && Do(s, a).value.counted == s.counted + [i]
        && Idle(Do(s, a).value)
    ensures CountInv(Do(s, a).value)
  {
    var t := Do(s, a).value;
    CountedIsCompletedIff(s, a.result, a.w);
    assert IsLatched(s) ==> IsLatched(t) by { StepSettles(s, a); hide Inv, Do; }
    assert !Idle(s);
    hide Inv, Do, IsLatched, Idle;
    forall k | 0 <= k < |s.counted| ensures s.counted[k] < i && StatusOf(t, s.counted[k]) == Some(Completed) {
      CompletedBefore(s, i, s.counted[k]);
      StatusSettled(s, a, s.counted[k]);
    }
  }

  lemma StepKeepsCount(s: State, a: Act)
    requires Inv(s) && CountInv(s) && Do(s, a).Some?
    ensures CountInv(Do(s, a).value)
  {
    CountsOne(s, a);
    hide Inv, Do, IsLatched, Idle;
    if s.session.None? {
      assert s.counted == [];
    } else if Do(s, a).value.counted == s.counted {
      CountedNext(s, a);
    } else {
      CountedOneMore(s, a, s.holder.pc.i);
    }
  }

  lemma {:induction false} RunKeepsCount(s: State, acts: seq<Act>)
    requires Inv(s) && CountInv(s) && Run(s, acts).Some?
    ensures CountInv(Run(s, acts).value)
    decreases acts
  {
    hide Inv, CountInv, Do;
    if acts != [] {
      StepKeepsInv(s, acts[0]);
      StepKeepsCount(s, acts[0]);
      RunKeepsCount(Do(s, acts[0]).value, acts[1..]);
    }
  }

  function CompletedAmong(s: State, counted: seq<nat>): nat {
    if counted == [] then 0
    else CompletedAmong(s, counted[1..]) + if StatusOf(s, counted[0]) == Some(Completed) then 1 else 0
  }

  /** Over any run, the drains together count every prompt once at most, and as many as are recorded completed
      among them, or one more if and only if the last counted one was answered after the latch had closed. */
  lemma CountsAddUp(acts: seq<Act>)
    requires Run(INITIAL, acts).Some?
    ensures var s := Run(INITIAL, acts).value; var n := |s.counted|;
      && (forall j, k | 0 <= j < k < n :: s.counted[j] < s.counted[k])
      && n == CompletedAmong(s, s.counted) + (if n > 0 && StatusOf(s, s.counted[n - 1]) == Some(Canceled) then 1 else 0)
      && (n > 0 && StatusOf(s, s.counted[n - 1]) == Some(Canceled) ==> IsLatched(s))
  {
    RunKeepsInv(INITIAL, acts);
    RunKeepsCount(INITIAL, acts);
    hide Inv, Run, StatusOf;
    AllButLast(Run(INITIAL, acts).value, Run(INITIAL, acts).value.counted);
  }

  lemma {:induction false} AllButLast(s: State, counted: seq<nat>)
    requires forall k | 0 <= k < |counted| - 1 :: StatusOf(s, counted[k]) == Some(Completed)
    requires counted != [] ==> StatusOf(s, counted[|counted| - 1]) in {Some(Completed), Some(Canceled)}
    ensures |counted| == CompletedAmong(s, counted)
      + (if counted != [] && StatusOf(s, counted[|counted| - 1]) == Some(Canceled) then 1 else 0)
  {
    hide StatusOf;
    if |counted| > 1 { AllButLast(s, counted[1..]); }
  }
}
