/** What a drain sends the agent, over all runs of the drain machine. */
module DrainTexts {
  import opened Prelude
  import opened SessionQueue
  import opened DrainRace
  import opened DrainTheorems
  import opened DrainSends

  /** The prompt comes from an append among these actions. */
  predicate AppendedBy(acts: seq<Act>, id: string, text: string) {
    exists k :: 0 <= k < |acts| && acts[k].Other? && acts[k].op.AppendPrompt? && acts[k].w.Applied()
             && acts[k].op.id == id && acts[k].op.text == text
  }

  function Hand(s: State): Option<nat> {
    if !s.holder.Drain? then None
    else match s.holder.pc
      case Picked(i) => Some(i)
      case Checked(i) => Some(i)
      case Marked(i) => Some(i)
      case Admitted(i) => Some(i)
      case Started(i) => Some(i)
      case Ready(i) => Some(i)
      case Sent(i) => Some(i)
      case _ => None
  }

  predicate TextAt(s: State, i: nat, text: string) {
    s.session.Some? && i < |s.session.value.queue| && s.session.value.queue[i].text == text
  }

  /** Every prompt comes from an append; a drain holds the text of its prompt, and what was sent is the text of the
      prompt that stands there. */
  predicate TextsInv(acts: seq<Act>, s: State) {
    && (s.session.Some? ==> forall p <- s.session.value.queue :: AppendedBy(acts, p.id, p.text))
    && (Hand(s).Some? ==> TextAt(s, Hand(s).value, s.holder.prompt))
    && (forall a | 0 <= a < |s.events| && s.events[a].PromptSent? :: TextAt(s, s.events[a].i, s.events[a].text))
  }

  /** A step keeps prompts, ids and texts; a new prompt is the one it appends. */
  predicate KeepsTexts(x: Session, y: Session, a: Act) {
    && |x.queue| <= |y.queue|
    && (forall k | 0 <= k < |x.queue| :: y.queue[k].id == x.queue[k].id && y.queue[k].text == x.queue[k].text)
    && (forall k | |x.queue| <= k < |y.queue| :: AppendedBy([a], y.queue[k].id, y.queue[k].text))
  }

  lemma StoredKeepsTexts(x: Session, op: Op, w: Write, a: Act)
    requires op.AppendPrompt? ==> a == Other(op, w)
    ensures var r := if w.Applied() then After(op, Some(x)) else Some(x); r.Some? && KeepsTexts(x, r.value, a)
  {
    if op.AppendPrompt? && w.Applied() { assert [a][0] == Other(op, w); }
  }

  lemma StepKeepsTexts(s: State, a: Act)
    requires s.session.Some? && Do(s, a).Some?
    ensures var t := Do(s, a).value; t.session.Some? && KeepsTexts(s.session.value, t.session.value, a)
  {
    var x := s.session.value;
    hide KeepsTexts, Apply, Accepted, Find;
    assert KeepsTexts(x, x, a) by { StoredKeepsTexts(x, Recover, NotApplied, a); }
    match a
    case DrainRecover(w) => StoredKeepsTexts(x, Recover, w, a);
    case RecoverOut(w) => StoredKeepsTexts(x, Recover, w, a);
    case WatchRecover(w) => StoredKeepsTexts(x, Recover, w, a);
    case CancelOut(w) => StoredKeepsTexts(x, CancelPending, w, a);
    case Mark(w) =>
      if s.holder.Drain? && s.holder.pc.Checked? {
        StoredKeepsTexts(x, MarkRunning(IdAt(s, s.holder.pc.i)), w, a);
      }
    case StoreAcpId(acpId, w) => StoredKeepsTexts(x, SetAcpId(acpId), w, a);
    case EndPrompt(ok, result, w) =>
      if s.holder.Drain? && s.holder.pc.Sent? {
        StoredKeepsTexts(x, Finish(IdAt(s, s.holder.pc.i), ok, result), w, a);
      }
    case Other(op, w) => StoredKeepsTexts(x, op, w, a);
    case _ =>
  }

  /** A drain goes on with the prompt it has, or picks one and takes its text. */
  lemma HandMoves(s: State, a: Act)
    requires Inv(s) && Do(s, a).Some? && Hand(Do(s, a).value).Some?
    ensures var t := Do(s, a).value;
      s.session.Some?
      && ((Hand(t) == Hand(s) && t.holder.prompt == s.holder.prompt)
          || (a.Pick? && t.session == s.session && TextAt(t, Hand(t).value, t.holder.prompt)))
  {
    hide Ordered, UniquePromptIds, EventsInv, InHand, EarlierTerminal, NoneRunning, Stored, Accepted, Apply;
  }

  /** The first prompt of a session. */
  lemma FirstTexts(s: State, a: Act)
    requires Inv(s) && s.session.None? && Do(s, a).Some? && Do(s, a).value.session.Some?
    ensures forall p <- Do(s, a).value.session.value.queue :: AppendedBy([a], p.id, p.text)
    ensures Do(s, a).value.events == []
  {
    hide Inv;
    NoneSentWithout(s);
    if a.Other? && a.op.AppendPrompt? { assert [a][0] == a; }
  }

  lemma AppendedLater(acts: seq<Act>, a: Act, id: string, text: string)
    requires AppendedBy(acts, id, text) || AppendedBy([a], id, text)
    ensures AppendedBy(acts + [a], id, text)
  {
    if AppendedBy(acts, id, text) {
      var k :| 0 <= k < |acts| && acts[k].Other? && acts[k].op.AppendPrompt? && acts[k].w.Applied()
        && acts[k].op.id == id && acts[k].op.text == text;
      assert (acts + [a])[k] == acts[k];
    } else {
      assert (acts + [a])[|acts|] == [a][0];
    }
  }

  lemma StepKeepsTextsInv(acts: seq<Act>, s: State, a: Act)
    requires Inv(s) && TextsInv(acts, s) && Do(s, a).Some?
    ensures TextsInv(acts + [a], Do(s, a).value)
  {
    var t := Do(s, a).value;
    Later(s, a);
    if Hand(t).Some? { HandMoves(s, a); }
    if s.session.Some? { StepKeepsTexts(s, a); } else if t.session.Some? { FirstTexts(s, a); }
    assert a.Send? ==> Hand(s) == Some(s.holder.pc.i);
    NoneSentWithout(s);
    hide Inv, Do, AppendedBy;
    if t.session.Some? {
      forall p <- t.session.value.queue ensures AppendedBy(acts + [a], p.id, p.text) {
        var k :| 0 <= k < |t.session.value.queue| && t.session.value.queue[k] == p;
        AppendedLater(acts, a, p.id, p.text);
      }
    }
  }

  lemma NoneSentWithout(s: State)
    requires Inv(s)
    ensures s.session.None? ==> s.events == []
  {}

  lemma {:induction false} RunKeepsTexts(done: seq<Act>, s: State, acts: seq<Act>)
    requires Inv(s) && TextsInv(done, s) && Run(s, acts).Some?
    ensures TextsInv(done + acts, Run(s, acts).value)
    decreases acts
  {
    hide Inv, TextsInv, Do;
    if acts == [] {
      assert done + acts == done;
    } else {
      StepKeepsInv(s, acts[0]);
      StepKeepsTextsInv(done, s, acts[0]);
      RunKeepsTexts(done + [acts[0]], Do(s, acts[0]).value, acts[1..]);
      assert done + [acts[0]] + acts[1..] == done + acts;
    }
  }

  /** Over any run, what a drain sends the agent for a prompt is the text that was appended under its id. */
  lemma WhatIsSentWasAppended(acts: seq<Act>)
    requires Run(INITIAL, acts).Some?
    ensures var s := Run(INITIAL, acts).value;
      forall a | 0 <= a < |s.events| && s.events[a].PromptSent? ::
        && TextAt(s, s.events[a].i, s.events[a].text)
        && AppendedBy(acts, s.session.value.queue[s.events[a].i].id, s.events[a].text)
  {
    RunKeepsTexts([], INITIAL, acts);
    assert [] + acts == acts;
    hide Run, AppendedBy;
    var s := Run(INITIAL, acts).value;
    forall a | 0 <= a < |s.events| && s.events[a].PromptSent?
      ensures TextAt(s, s.events[a].i, s.events[a].text)
      ensures AppendedBy(acts, s.session.value.queue[s.events[a].i].id, s.events[a].text)
    {
      assert s.session.value.queue[s.events[a].i] in s.session.value.queue;
    }
  }
}
