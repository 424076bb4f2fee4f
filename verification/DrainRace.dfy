/** One session's queue drained by whoever holds the owner lease, while other processes append, cancel
    and crash. */
module DrainRace {
  import opened Prelude
  import opened SessionQueue

  /** Where the lease holder is in drainQueueOwned. An index stands for the queue id that was read there:
      ids are unique and a stored prompt never moves. */
  datatype Pc =
    | Leased                 // about to recover what a crashed owner left running
    | Loop                   // first cancellation check of a turn
    | Picking                // about to read the next pending prompt
    | Picked(i: nat)         // second cancellation check
    | Checked(i: nat)        // about to mark the prompt running
    | Cancelling             // a check asked to cancel the pending prompts
    | Marked(i: nat)         // no runner yet: about to take launch admission
    | Admitted(i: nat)       // inside launch admission, about to start the runner
    | StartRefused           // admission found the latch closed, or the runner did not start
    | Started(i: nat)        // about to store the agent's session id
    | Ready(i: nat)          // about to send the prompt
    | Sent(i: nat)           // the agent works on it
    | Ended                  // drainQueueOwned returned

  /** A drain has the text of the prompt it picked. */
  datatype Holder = NoHolder | OtherOwner | Drain(pc: Pc, hasRunner: bool, prompt: string)

  datatype Event = RunnerStarted | PromptSent(i: nat, text: string) | PromptEnded(i: nat)

  /** counted are the prompts that the drains counted as completed, in that order. */
  datatype State = State(session: Option<Session>, holder: Holder, events: seq<Event>, counted: seq<nat>)

  datatype Act =
    | Acquire
    | AcquireOther
    | Release
    | Crash
    | Again
    | DrainRecover(w: Write)
    | Check(asked: bool)
    | CancelOut(w: Write)
    | StopLoop
    | Pick
    | Mark(w: Write)
    | Admit
    | StartRunner(ok: bool)
    | StoreAcpId(acpId: string, w: Write)
    | RecoverOut(w: Write)
    | Send
    | EndPrompt(ok: bool, result: string, w: Write)
    | WatchRecover(w: Write)
    | Other(op: Op, w: Write)

  predicate IsLatched(s: State) { s.session.Some? && Latched(s.session.value.status) }

  /** The session after a store operation whose write ended as w. */
  function Stored(s: State, op: Op, w: Write): Option<Session> {
    if w.Applied() then After(op, s.session) else s.session
  }

  /** The store operation returned no error. */
  predicate Accepted(s: State, op: Op, w: Write) {
    var c := Apply(op, s.session);
    c.Unchanged? || (c.Changed? && w.Confirmed?)
  }

  predicate At(s: State, pc: Pc) { s.holder.Drain? && s.holder.pc == pc }

  function Goto(s: State, pc: Pc): State { if s.holder.Drain? then s.(holder := s.holder.(pc := pc)) else s }

  function DoAcquire(s: State): Option<State> {
    if s.holder.NoHolder? then Some(s.(holder := Drain(Leased, false, ""))) else None
  }

  function DoAcquireOther(s: State): Option<State> {
    if s.holder.NoHolder? then Some(s.(holder := OtherOwner)) else None
  }

  function DoRelease(s: State): Option<State> {
    if At(s, Ended) || s.holder.OtherOwner? then Some(s.(holder := NoHolder)) else None
  }

  function DoCrash(s: State): Option<State> { Some(s.(holder := NoHolder)) }

  /** WatchQueue starts another cycle under the same lease; the runner was closed. */
  function DoAgain(s: State): Option<State> {
    if At(s, Ended) then Some(s.(holder := Drain(Leased, false, ""))) else None
  }

  function DoDrainRecover(s: State, w: Write): Option<State> {
    if !At(s, Leased) then None
    else Some(Goto(s.(session := Stored(s, Recover, w)), if Accepted(s, Recover, w) then Loop else Ended))
  }

  /** A cancellation check; the caller's own callback may ask to cancel too. */
  function DoCheck(s: State, asked: bool): Option<State> {
    if !s.holder.Drain? || !(s.holder.pc.Loop? || s.holder.pc.Picked?) then None
    else if s.session.None? then Some(Goto(s, Ended))
    else if asked || IsLatched(s) then Some(Goto(s, Cancelling))
    else Some(Goto(s, if s.holder.pc.Loop? then Picking else Checked(s.holder.pc.i)))
  }

  function DoCancelOut(s: State, w: Write): Option<State> {
    if At(s, Cancelling) then Some(Goto(s.(session := Stored(s, CancelPending, w)), Ended)) else None
  }

  /** The limit is reached, or a read failed. */
  function DoStopLoop(s: State): Option<State> {
    if s.holder.Drain? && (s.holder.pc.Loop? || s.holder.pc.Picked?) then Some(Goto(s, Ended)) else None
  }

  function DoPick(s: State): Option<State> {
    if !At(s, Picking) then None
    else if s.session.None? || NextPending(s.session.value.queue) == |s.session.value.queue| then Some(Goto(s, Ended))
    else
      var k := NextPending(s.session.value.queue);
      Some(s.(holder := s.holder.(pc := Picked(k), prompt := s.session.value.queue[k].text)))
  }

  /** The queue id the drain read when it picked the prompt. */
  function IdAt(s: State, i: nat): string {
    if s.session.Some? && i < |s.session.value.queue| then s.session.value.queue[i].id else ""
  }

  function DoMark(s: State, w: Write): Option<State> {
    if !s.holder.Drain? || !s.holder.pc.Checked? then None
    else
      var i := s.holder.pc.i;
      var op := MarkRunning(IdAt(s, i));
      Some(Goto(s.(session := Stored(s, op, w)),
                if !Accepted(s, op, w) then Ended else if s.holder.hasRunner then Ready(i) else Marked(i)))
  }

  function DoAdmit(s: State): Option<State> {
    if !s.holder.Drain? || !s.holder.pc.Marked? then None
    else Some(Goto(s, if IsLatched(s) then StartRefused else Admitted(s.holder.pc.i)))
  }

  function DoStartRunner(s: State, ok: bool): Option<State> {
    if !s.holder.Drain? || !s.holder.pc.Admitted? then None
    else if !ok then Some(Goto(s, StartRefused))
    else Some(s.(holder := s.holder.(pc := Started(s.holder.pc.i), hasRunner := true),
        events := s.events + [RunnerStarted]))
  }

  function DoStoreAcpId(s: State, acpId: string, w: Write): Option<State> {
    if !s.holder.Drain? || !s.holder.pc.Started? then None
    else Some(Goto(s.(session := Stored(s, SetAcpId(acpId), w)),
                   if Accepted(s, SetAcpId(acpId), w) then Ready(s.holder.pc.i) else Ended))
  }

  function DoRecoverOut(s: State, w: Write): Option<State> {
    if At(s, StartRefused) then Some(Goto(s.(session := Stored(s, Recover, w)), Ended)) else None
  }

  function DoSend(s: State): Option<State> {
    if !s.holder.Drain? || !s.holder.pc.Ready? then None
    else Some(Goto(s.(events := s.events + [PromptSent(s.holder.pc.i, s.holder.prompt)]), Sent(s.holder.pc.i)))
  }

  /** The agent answered or failed. The event says that the queue now shows the prompt completed or failed; the
      drain counts a prompt as completed when recording the answer returns no error. */
  function DoEndPrompt(s: State, ok: bool, result: string, w: Write): Option<State> {
    if !s.holder.Drain? || !s.holder.pc.Sent? then None
    else
      var i := s.holder.pc.i;
      var op := Finish(IdAt(s, i), ok, result);
      var recorded := w.Applied() && Apply(op, s.session).Changed? && !IsLatched(s);
      Some(Goto(s.(session := Stored(s, op, w), events := if recorded then s.events + [PromptEnded(i)] else s.events,
                   counted := if ok && Accepted(s, op, w) then s.counted + [i] else s.counted),
                if ok && Accepted(s, op, w) then Loop else Ended))
  }

  /** WatchQueue recovers the queue when it finds the session latched. */
  function DoWatchRecover(s: State, w: Write): Option<State> {
    if At(s, Ended) && IsLatched(s) then Some(s.(session := Stored(s, Recover, w))) else None
  }

  /** What a process without the lease may do: append under a fresh id, cancel, update the record, and
      recover a latched session. Requesting cancellation takes launch admission. */
  predicate OtherMay(s: State, op: Op) {
    match op
    case AppendPrompt(_, id, _) => s.session.None? || Find(s.session.value.queue, id) == |s.session.value.queue|
    case CancelPending => true
    case RequestCancel => !(s.holder.Drain? && s.holder.pc.Admitted?)
    case Recover => IsLatched(s)
    case Lifecycle(_, status, _, _) => !Latched(status)
    case SetAcpId(_) => true
    case MarkRunning(_) => false
    case Finish(_, _, _) => false
  }

  function DoOther(s: State, op: Op, w: Write): Option<State> {
    if OtherMay(s, op) then Some(s.(session := Stored(s, op, w))) else None
  }

  function Do(s: State, a: Act): Option<State> {
    match a
    case Acquire => DoAcquire(s)
    case AcquireOther => DoAcquireOther(s)
    case Release => DoRelease(s)
    case Crash => DoCrash(s)
    case Again => DoAgain(s)
    case DrainRecover(w) => DoDrainRecover(s, w)
    case Check(asked) => DoCheck(s, asked)
    case CancelOut(w) => DoCancelOut(s, w)
    case StopLoop => DoStopLoop(s)
    case Pick => DoPick(s)
    case Mark(w) => DoMark(s, w)
    case Admit => DoAdmit(s)
    case StartRunner(ok) => DoStartRunner(s, ok)
    case StoreAcpId(acpId, w) => DoStoreAcpId(s, acpId, w)
    case RecoverOut(w) => DoRecoverOut(s, w)
    case Send => DoSend(s)
    case EndPrompt(ok, result, w) => DoEndPrompt(s, ok, result, w)
    case WatchRecover(w) => DoWatchRecover(s, w)
    case Other(op, w) => DoOther(s, op, w)
  }

  function Run(s: State, acts: seq<Act>): Option<State>
    decreases acts
  {
    if acts == [] then Some(s)
    else if Do(s, acts[0]).None? then None
    else Run(Do(s, acts[0]).value, acts[1..])
  }

  const INITIAL := State(None, NoHolder, [], [])

  // ---- What every step keeps ----

  predicate Terminal(p: Prompt) { p.status.Completed? || p.status.Failed? || p.status.Canceled? }

  predicate EarlierTerminal(q: seq<Prompt>, i: nat) { forall k | 0 <= k < i && k < |q| :: Terminal(q[k]) }

  predicate LaterUntouched(q: seq<Prompt>, i: nat) {
    forall k | i < k < |q| :: q[k].status.Pending? || q[k].status.Canceled?
  }

  /** Every prompt before a running, completed or failed one is completed, failed or canceled. */
  predicate Ordered(q: seq<Prompt>) {
    forall i | 0 <= i < |q| && (q[i].status.Running? || q[i].status.Completed? || q[i].status.Failed?) ::
        EarlierTerminal(q, i)
  }

  predicate NoneRunning(q: seq<Prompt>) { forall i | 0 <= i < |q| :: !q[i].status.Running? }

  predicate UniquePromptIds(q: seq<Prompt>) { forall i, j | 0 <= i < j < |q| :: q[i].id != q[j].id }

  /** The prompt a drain is working on. */
  predicate InHand(x: Session, i: nat) {
    && i < |x.queue| && EarlierTerminal(x.queue, i) && LaterUntouched(x.queue, i)
    && (x.queue[i].status.Running? || (x.queue[i].status.Canceled? && Latched(x.status)))
  }

  predicate DrainInv(x: Session, pc: Pc) {
    match pc
    case Leased => true
    case Ended => true
    case StartRefused => true
    case Loop => NoneRunning(x.queue)
    case Picking => NoneRunning(x.queue)
    case Cancelling => NoneRunning(x.queue)
    case Picked(i) => NoneRunning(x.queue) && i < |x.queue| && EarlierTerminal(x.queue, i)
    case Checked(i) => NoneRunning(x.queue) && i < |x.queue| && EarlierTerminal(x.queue, i)
    case Marked(i) => InHand(x, i)
    case Admitted(i) => InHand(x, i) && !Latched(x.status)
    case Started(i) => InHand(x, i)
    case Ready(i) => InHand(x, i)
    case Sent(i) => InHand(x, i)
  }

  /** A prompt that ended is stored so; whatever is sent or ends after it stands later in the queue. */
  predicate EventsInv(q: seq<Prompt>, events: seq<Event>) {
    && (forall a | 0 <= a < |events| && events[a].PromptEnded? ::
          events[a].i < |q| && (q[events[a].i].status.Completed? || q[events[a].i].status.Failed?))
    && InQueueOrder(events)
  }

  predicate InQueueOrder(events: seq<Event>) {
    forall a, b | 0 <= a < b < |events| && events[a].PromptEnded? && !events[b].RunnerStarted? ::
        events[a].i < events[b].i
  }

  predicate Inv(s: State) {
    if s.session.None? then
      && s.events == []
      && (s.holder.Drain? ==> s.holder.pc.Leased? || s.holder.pc.Ended?)
    else
      var x := s.session.value;
      && UniquePromptIds(x.queue) && Ordered(x.queue) && EventsInv(x.queue, s.events)
      && (s.holder.Drain? ==> DrainInv(x, s.holder.pc))
  }

  /** What the operations of other processes do to a session: prompts are appended, pending ones canceled,
      and running ones canceled too when the latch is closed. */
  predicate OtherStep(x: Session, y: Session) {
    && (Latched(x.status) ==> Latched(y.status)) && |x.queue| <= |y.queue| && UniquePromptIds(y.queue)
    && (forall i | 0 <= i < |x.queue| :: OtherPromptStep(x, x.queue[i], y.queue[i]))
    && (forall i | |x.queue| <= i < |y.queue| :: y.queue[i].status.Pending?)
  }

  predicate OtherPromptStep(x: Session, p: Prompt, p': Prompt) {
    && p'.id == p.id
    && (p'.status == p.status
        || (p'.status.Canceled? && (p.status.Pending? || (p.status.Running? && Latched(x.status)))))
  }

  lemma OtherIsOtherStep(s: State, op: Op)
    requires s.session.Some? && OtherMay(s, op) && UniquePromptIds(s.session.value.queue)
    ensures After(op, s.session).Some? && OtherStep(s.session.value, After(op, s.session).value)
  {
  }

  lemma OtherStepKeeps(x: Session, y: Session, events: seq<Event>)
    requires OtherStep(x, y) && Ordered(x.queue) && EventsInv(x.queue, events)
    ensures Ordered(y.queue) && EventsInv(y.queue, events)
  {
    forall i, k | 0 <= k < i < |y.queue|
        && (y.queue[i].status.Running? || y.queue[i].status.Completed? || y.queue[i].status.Failed?)
      ensures Terminal(y.queue[k])
    {
      assert OtherPromptStep(x, x.queue[i], y.queue[i]) && EarlierTerminal(x.queue, i);
      assert OtherPromptStep(x, x.queue[k], y.queue[k]);
    }
    forall a | 0 <= a < |events| && events[a].PromptEnded?
      ensures var i := events[a].i; i < |y.queue| && (y.queue[i].status.Completed? || y.queue[i].status.Failed?)
    {
      var i := events[a].i;
      assert OtherPromptStep(x, x.queue[i], y.queue[i]);
    }
  }

  lemma OtherStepKeepsDrain(x: Session, y: Session, pc: Pc)
    requires OtherStep(x, y) && DrainInv(x, pc) && (pc.Admitted? ==> !Latched(y.status))
    ensures DrainInv(y, pc)
  {
    hide UniquePromptIds;
    forall i | 0 <= i < |x.queue|
      ensures Terminal(x.queue[i]) ==> Terminal(y.queue[i])
      ensures !x.queue[i].status.Running? ==> !y.queue[i].status.Running?
    {
      assert OtherPromptStep(x, x.queue[i], y.queue[i]);
    }
    forall i | 0 <= i < |x.queue| && InHand(x, i) ensures InHand(y, i) {
      assert OtherPromptStep(x, x.queue[i], y.queue[i]);
      forall k | i < k < |y.queue| ensures y.queue[k].status.Pending? || y.queue[k].status.Canceled? {
        if k < |x.queue| { assert OtherPromptStep(x, x.queue[k], y.queue[k]); }
      }
    }
  }

  lemma RecoverKeeps(x: Session, events: seq<Event>)
    requires UniquePromptIds(x.queue) && Ordered(x.queue) && EventsInv(x.queue, events)
    ensures var r := After(Recover, Some(x)); r.Some? && var y := r.value;
      UniquePromptIds(y.queue) && Ordered(y.queue) && EventsInv(y.queue, events) && NoneRunning(y.queue)
  {
    var y := After(Recover, Some(x)).value;
    CountOfZero(x.queue, Running);
    assert forall i | 0 <= i < |x.queue| :: y.queue[i].id == x.queue[i].id;
    forall i, k | 0 <= k < i < |y.queue|
        && (y.queue[i].status.Running? || y.queue[i].status.Completed? || y.queue[i].status.Failed?)
      ensures Terminal(y.queue[k])
    {
      assert EarlierTerminal(x.queue, i) && Terminal(x.queue[k]);
    }
  }

  lemma FindUnique(q: seq<Prompt>, i: nat)
    requires UniquePromptIds(q) && i < |q|
    ensures Find(q, q[i].id) == i
  {
  }

  lemma MarkKeeps(x: Session, i: nat, events: seq<Event>)
    requires UniquePromptIds(x.queue) && Ordered(x.queue) && EventsInv(x.queue, events) && DrainInv(x, Checked(i))
    ensures var c := Apply(MarkRunning(x.queue[i].id), Some(x)); c.Changed? ==> var y := c.session;
      UniquePromptIds(y.queue) && Ordered(y.queue) && EventsInv(y.queue, events) && InHand(y, i)
  {
    FindUnique(x.queue, i);
    var c := Apply(MarkRunning(x.queue[i].id), Some(x));
    if c.Changed? {
      forall k | i < k < |x.queue| ensures x.queue[k].status.Pending? || x.queue[k].status.Canceled? {
        assert !Terminal(x.queue[i]) && !EarlierTerminal(x.queue, k);
      }
    }
  }

  /** The queue after the prompt in hand became terminal. */
  lemma EndedQueue(x: Session, i: nat, p: Prompt)
    requires UniquePromptIds(x.queue) && Ordered(x.queue) && InHand(x, i) && p.id == x.queue[i].id && Terminal(p)
    ensures var q := x.queue[i := p]; UniquePromptIds(q) && Ordered(q) && NoneRunning(q)
  {
    var q := x.queue[i := p];
    forall k | 0 <= k < |q| ensures !q[k].status.Running? {
      if k < i { assert Terminal(x.queue[k]); }
    }
    forall j, k | 0 <= k < j < |q|
        && (q[j].status.Running? || q[j].status.Completed? || q[j].status.Failed?) ensures Terminal(q[k]) {
      if k != i { assert EarlierTerminal(x.queue, if j == i then i else j); }
    }
  }

  lemma EndedEvents(x: Session, i: nat, p: Prompt, events: seq<Event>)
    requires EventsInv(x.queue, events) && InHand(x, i)
    ensures EventsInv(x.queue[i := p], events)
    ensures p.status.Completed? || p.status.Failed? ==> EventsInv(x.queue[i := p], events + [PromptEnded(i)])
  {
    EventsBefore(x, i, events);
    hide InHand;
  }

  lemma FinishKeeps(x: Session, i: nat, ok: bool, result: string, events: seq<Event>)
    requires UniquePromptIds(x.queue) && Ordered(x.queue) && EventsInv(x.queue, events) && InHand(x, i)
    ensures var c := Apply(Finish(x.queue[i].id, ok, result), Some(x)); c.Changed? && var y := c.session;
      && UniquePromptIds(y.queue) && Ordered(y.queue) && NoneRunning(y.queue)
      && EventsInv(y.queue, if Latched(x.status) then events else events + [PromptEnded(i)])
  {
    FindUnique(x.queue, i);
    hide UniquePromptIds, Ordered, NoneRunning, EventsInv;
    var p := Apply(Finish(x.queue[i].id, ok, result), Some(x)).session.queue[i];
    EndedQueue(x, i, p);
    EndedEvents(x, i, p, events);
  }

  /** Every prompt that has ended stands before the one in hand. */
  lemma EventsBefore(x: Session, i: nat, events: seq<Event>)
    requires EventsInv(x.queue, events) && InHand(x, i)
    ensures forall a | 0 <= a < |events| && events[a].PromptEnded? :: events[a].i < i
  {
    assert forall k | i <= k < |x.queue| :: !x.queue[k].status.Completed? && !x.queue[k].status.Failed?;
  }
}
