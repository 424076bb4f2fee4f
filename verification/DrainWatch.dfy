/** Draining and watching one queue while nobody else touches the store: what a drain completes, what its
    counters mean, and how many cycles a watch takes. */
module DrainWatch {
  import opened Prelude
  import opened SessionQueue
  import opened SessionStore

  datatype Reply = Reply(ok: bool, text: string)

  /** Everything outside the store: whether a runner starts and under which agent session id, its reply to
      the prompt at each queue position, and whether the caller asks to cancel at each check. */
  datatype World = World(starts: bool, acpId: string, reply: nat -> Reply, asks: nat -> bool)

  ghost predicate Calm(w: World) { w.starts && (forall i: nat :: w.reply(i).ok) && (forall i: nat :: !w.asks(i)) }

  datatype DrainResult = DrainResult(processed: nat, completed: nat, failed: nat, canceled: nat, remaining: nat)

  function Open(q: seq<Prompt>): nat { CountOf(q, Pending) + CountOf(q, Running) }

  function Min(a: nat, b: nat): nat { if a < b then a else b }

  predicate GoodQueue(q: seq<Prompt>) {
    && (forall i, j | 0 <= i < j < |q| :: q[i].id != q[j].id)
    && (forall i | 0 <= i < |q| :: q[i].id != "")
  }

  /** The queue in which the pending prompts before position b were answered. */
  function AnsweredTo(q: seq<Prompt>, b: nat, w: World): seq<Prompt> {
    seq(|q|, i requires 0 <= i < |q| => if i < b && q[i].status.Pending? then Replied(q[i], w.reply(i)) else q[i])
  }

  function Replied(p: Prompt, reply: Reply): Prompt {
    p.(status := if reply.ok then Completed else Failed, started := true, result := reply.text)
  }

  /** Of the pending prompts of q exactly those before b were answered; all replies were good, but for the last one
      if a prompt is counted failed. */
  ghost predicate Answered(q: seq<Prompt>, b: nat, w: World, r: DrainResult) {
    && b <= |q| && CountOf(q[..b], Pending) == r.processed
    && (forall i | 0 <= i < b && q[i].status.Pending? :: w.reply(i).ok || (r.failed == 1 && i == b - 1))
    && (r.failed == 1 ==> b > 0 && q[b - 1].status.Pending? && !w.reply(b - 1).ok)
  }

  /** What the queue shows after a drain: the answered prompts in their places, and the rest as it was, or canceled
      if the drain closed the latch. */
  ghost predicate Shown(q: seq<Prompt>, b: nat, w: World, y: Session) {
    y.queue == if Latched(y.status) then CancelPendingPrompts(AnsweredTo(q, b, w)) else AnsweredTo(q, b, w)
  }

  /** The replies to the pending prompts of q before b that were good, in order. */
  function Replies(q: seq<Prompt>, b: nat, w: World): seq<string>
    requires b <= |q|
  {
    if b == 0 then []
    else Replies(q, b - 1, w) + if q[b - 1].status.Pending? then TurnOf(w.reply(b - 1)) else []
  }

  function TurnOf(reply: Reply): seq<string> { if reply.ok then [reply.text] else [] }

  /** The session's turns grew by the good replies, and it has an agent session id if a runner started. */
  ghost predicate Told(x: Session, b: nat, w: World, r: DrainResult, y: Session) {
    && b <= |x.queue| && y.turns == x.turns + Replies(RecoverPrompts(x.queue, false), b, w)
    && y.acpId == if r.processed == 0 || x.acpId != "" then x.acpId else w.acpId
  }

  /** Answering one more prompt adds one more turn if its reply is good. */
  lemma {:induction false} RepliesNext(q: seq<Prompt>, b: nat, k: nat, w: World)
    requires b <= k < |q| && forall i | b <= i < k :: !q[i].status.Pending?
    ensures Replies(q, k, w) == Replies(q, b, w)
    ensures q[k].status.Pending? ==> Replies(q, k + 1, w) == Replies(q, b, w) + TurnOf(w.reply(k))
    decreases k
  {
    if b < k {
      RepliesNext(q, b, k - 1, w);
      assert Replies(q, k - 1, w) + [] == Replies(q, k - 1, w);
    }
  }

  lemma TurnTold(x: Session, b: nat, k: nat, w: World, r: DrainResult, r': DrainResult, y: Session, z: Session)
    requires Told(x, b, w, r, y) && b <= k && r'.processed == r.processed + 1
    requires var q := RecoverPrompts(x.queue, false);
      k < |q| && q[k].status.Pending? && forall i | b <= i < k :: !q[i].status.Pending?
    requires z.turns == y.turns + TurnOf(w.reply(k))
    requires z.acpId == if r.processed > 0 || y.acpId != "" then y.acpId else w.acpId
    ensures Told(x, k + 1, w, r', z)
  {
    hide RecoverPrompt, Replies;
    RepliesNext(RecoverPrompts(x.queue, false), b, k, w);
  }

  lemma {:induction false} CountSplit(q: seq<Prompt>, b: nat, status: PromptStatus)
    requires b <= |q|
    ensures CountOf(q, status) == CountOf(q[..b], status) + CountOf(q[b..], status)
    decreases |q|
  {
    if b < |q| {
      var n := |q| - 1;
      CountSplit(q[..n], b, status);
      assert q[..n][..b] == q[..b] && q[..n][b..] == q[b..n] && q[b..][..|q[b..]| - 1] == q[b..n];
    } else {
      assert q[..b] == q;
    }
  }

  lemma {:induction false} CountOne(q: seq<Prompt>, k: nat, p: Prompt, status: PromptStatus)
    requires k < |q|
    ensures CountOf(q[k := p], status) + (if q[k].status == status then 1 else 0)
         == CountOf(q, status) + (if p.status == status then 1 else 0)
  {
    var n := |q| - 1;
    if k == n {
      assert q[k := p][..n] == q[..n];
    } else {
      assert q[k := p][..n] == q[..n][k := p];
      CountOne(q[..n], k, p, status);
    }
  }

  /** Answering the next pending prompt moves the border past it. */
  lemma AnswerNext(q: seq<Prompt>, b: nat, w: World)
    requires b <= |q| && NextPending(AnsweredTo(q, b, w)) < |q|
    ensures var k := NextPending(AnsweredTo(q, b, w));
      && b <= k && q[k].status.Pending?
          && AnsweredTo(q, b, w)[k := Replied(q[k], w.reply(k))] == AnsweredTo(q, k + 1, w)
      && CountOf(q[..k + 1], Pending) == CountOf(q[..b], Pending) + 1
  {
    var r := AnsweredTo(q, b, w);
    var k := NextPending(r);
    AnsweredAt(q, b, w, k);
    hide AnsweredTo, NextPending;
    AnsweredMore(q, b, w, k);
    NonePendingBetween(q, b, k);
    CountOfTake(q, k, Pending);
  }

  /** The next pending prompt stands behind the border, and the prompts between are not pending. */
  lemma AnsweredAt(q: seq<Prompt>, b: nat, w: World, k: nat)
    requires b <= |q| && k == NextPending(AnsweredTo(q, b, w)) < |q|
    ensures b <= k && q[k].status.Pending? && forall i | b <= i < k :: !q[i].status.Pending?
  {
    var r := AnsweredTo(q, b, w);
    assert r[k].status.Pending? && !Replied(q[k], w.reply(k)).status.Pending?;
    assert forall i | b <= i < k :: r[i] == q[i];
  }

  lemma AnsweredMore(q: seq<Prompt>, b: nat, w: World, k: nat)
    requires b <= k < |q| && q[k].status.Pending? && forall i | b <= i < k :: !q[i].status.Pending?
    ensures AnsweredTo(q, b, w)[k := Replied(q[k], w.reply(k))] == AnsweredTo(q, k + 1, w)
  {}

  lemma NonePendingBetween(q: seq<Prompt>, b: nat, k: nat)
    requires b <= k <= |q| && forall i | b <= i < k :: !q[i].status.Pending?
    ensures CountOf(q[..k], Pending) == CountOf(q[..b], Pending)
  {
    CountSplit(q[..k], b, Pending);
    assert q[..k][..b] == q[..b] && q[..k][b..] == q[b..k];
    CountOfZero(q[b..k], Pending);
  }

  lemma NoNextPending(q: seq<Prompt>)
    ensures NextPending(q) == |q| <==> CountOf(q, Pending) == 0
  {
    CountOfZero(q, Pending);
  }

  lemma {:induction false} RecoverPromptsCounts(q: seq<Prompt>, latched: bool)
    ensures CountOf(RecoverPrompts(q, latched), Running) == 0
    ensures CountOf(RecoverPrompts(q, latched), Pending) == if latched then 0 else Open(q)
  {
    if q != [] {
      var n := |q| - 1;
      RecoverPromptsCounts(q[..n], latched);
      assert RecoverPrompts(q, latched)[..n] == RecoverPrompts(q[..n], latched);
    }
  }

  lemma CancelPromptsCounts(q: seq<Prompt>)
    ensures CountOf(CancelPendingPrompts(q), Pending) == 0
    ensures CountOf(q, Running) == 0 ==> CountOf(CancelPendingPrompts(q), Running) == 0
  {
    CountOfZero(CancelPendingPrompts(q), Pending);
    CountOfZero(CancelPendingPrompts(q), Running);
    CountOfZero(q, Running);
  }

  /** What recovery makes of an open session before a drain. */
  lemma RecoverBeforeDrain(x: Session)
    requires !Latched(x.status) && GoodQueue(x.queue)
    ensures var y := After(Recover, Some(x)).value;
      && !Latched(y.status) && y.queue == RecoverPrompts(x.queue, false) && GoodQueue(y.queue)
      && CountOf(y.queue, Running) == 0 && CountOf(y.queue, Pending) == Open(x.queue)
  {
    RecoverPromptsCounts(x.queue, false);
    CountOfZero(x.queue, Running);
    if CountOf(x.queue, Running) == 0 { assert RecoverPrompts(x.queue, false) == x.queue; }
  }

  lemma FindId(q: seq<Prompt>, k: nat)
    requires k < |q| && GoodQueue(q)
    ensures Find(q, q[k].id) == k
  {}

  function Started(p: Prompt): Prompt { p.(status := Running, started := true) }

  /** What the three store operations of a turn do to an open session. */
  lemma TurnOps(x: Session, k: nat, acpId: string, reply: Reply)
    requires !Latched(x.status) && GoodQueue(x.queue) && k < |x.queue|
    ensures x.queue[k].status.Pending? ==>
      Apply(MarkRunning(x.queue[k].id), Some(x))
      == Changed(x.(status := SessionRunning, queue := x.queue[k := Started(x.queue[k])]))
    ensures After(SetAcpId(acpId), Some(x)) == Some(x.(acpId := if x.acpId == "" then acpId else x.acpId))
    ensures x.queue[k].started ==>
      var c := Apply(Finish(x.queue[k].id, reply.ok, reply.text), Some(x));
      && c.Changed? && !Latched(c.session.status) && c.session.queue == x.queue[k := Replied(x.queue[k], reply)]
      && c.session.turns == x.turns + TurnOf(reply) && c.session.acpId == x.acpId
  {
    FindId(x.queue, k);
    assert x.turns + [] == x.turns;
  }

  function Unstarted(q: seq<Prompt>, k: nat): seq<Prompt>
    requires k < |q|
  {
    q[k := q[k].(started := false)]
  }

  /** A runner that does not start leaves the queue as it was, with as many pending prompts. */
  lemma TurnUndone(x: Session, k: nat)
    requires !Latched(x.status) && k < |x.queue| && x.queue[k].status.Pending? && CountOf(x.queue, Running) == 0
    requires GoodQueue(x.queue)
    ensures var y := x.(status := SessionRunning, queue := x.queue[k := Started(x.queue[k])]);
      var c := Apply(Recover, Some(y));
      && c.Changed? && !Latched(c.session.status) && GoodQueue(c.session.queue)
      && CountOf(c.session.queue, Running) == 0 && CountOf(c.session.queue, Pending) == CountOf(x.queue, Pending)
      && c.session.queue == Unstarted(x.queue, k) && c.session.turns == x.turns && c.session.acpId == x.acpId
  {
    var q := x.queue[k := Started(x.queue[k])];
    CountOfZero(x.queue, Running);
    assert RecoverPrompts(q, false) == Unstarted(x.queue, k);
    CountOne(x.queue, k, q[k], Running);
    CountOne(x.queue, k, q[k], Pending);
    RecoverPromptsCounts(q, false);
  }

  datatype TurnEnd = TurnAnswered | TurnFailed | NotStarted

  /** One turn of the drain loop: mark the next prompt running, start the runner if there is none yet, send
      the prompt and record the reply. */
  method DrainTurn(store: Store, id: string, k: nat, hasRunner: bool, w: World) returns (e: TurnEnd)
    requires id in store.sessions && !Latched(store.sessions[id].status) && GoodQueue(store.sessions[id].queue)
    requires k < |store.sessions[id].queue| && store.sessions[id].queue[k].status.Pending?
    requires CountOf(store.sessions[id].queue, Running) == 0
    modifies store
    ensures store.sessions - {id} == old(store.sessions) - {id}
    ensures id in store.sessions && !Latched(store.sessions[id].status)
    ensures e == if !hasRunner && !w.starts then NotStarted else if w.reply(k).ok then TurnAnswered else TurnFailed
    ensures !e.NotStarted? ==>
      store.sessions[id].queue == old(store.sessions[id].queue[k := Replied(store.sessions[id].queue[k], w.reply(k))])
    ensures !e.NotStarted? ==>
      && store.sessions[id].turns == old(store.sessions[id].turns) + TurnOf(w.reply(k))
      && store.sessions[id].acpId
         == if hasRunner || old(store.sessions[id].acpId) != "" then old(store.sessions[id].acpId) else w.acpId
    ensures e.NotStarted? ==>
      && store.sessions[id].queue == Unstarted(old(store.sessions[id].queue), k)
      && store.sessions[id].turns == old(store.sessions[id].turns)
      && store.sessions[id].acpId == old(store.sessions[id].acpId)
    ensures e.NotStarted? ==>
      CountOf(store.sessions[id].queue, Running) == 0 && GoodQueue(store.sessions[id].queue)
      && CountOf(store.sessions[id].queue, Pending) == CountOf(old(store.sessions[id].queue), Pending)
  {
    hide Apply, CountOf, Latched, Unstarted, TurnOf;
    ghost var before := store.sessions[id];
    TurnOps(before, k, "", w.reply(k));
    TurnUndone(before, k);
    var end := store.MarkQueueRunning(id, store.sessions[id].queue[k].id, Confirmed);
    if !hasRunner {
      if !w.starts {
        var _, _, _ := store.RecoverRunningQueueItems(id, Confirmed);
        return NotStarted;
      }
      OpenStaysOpen(before, k);
      TurnOps(store.sessions[id], k, w.acpId, w.reply(k));
      end := store.SetACPSessionID(id, w.acpId, Confirmed);
    }
    OpenStaysOpen(before, k);
    TurnOps(store.sessions[id], k, "", w.reply(k));
    var reply := w.reply(k);
    end := store.MarkQueueFinished(id, store.sessions[id].queue[k].id, reply.ok, reply.text, Confirmed);
    return if reply.ok then TurnAnswered else TurnFailed;
  }

  lemma OpenStaysOpen(x: Session, k: nat)
    requires GoodQueue(x.queue) && k < |x.queue|
    ensures !Latched(SessionRunning) && GoodQueue(x.queue[k := Started(x.queue[k])])
  {}

  /** A runner is needed for the first prompt and does not start. */
  predicate NoRunner(q: seq<Prompt>, w: World) { !w.starts && Open(q) > 0 && !w.asks(0) && !w.asks(1) }

  /** The queue after a drain that answered the prompts before b, or whose runner did not start for the first. */
  ghost predicate Left(q: seq<Prompt>, b: nat, w: World, y: Session, undone: bool) {
    if undone then NextPending(q) < |q| && y.queue == Unstarted(q, NextPending(q)) else Shown(q, b, w, y)
  }

  /** What a drain of an open session promises about its counters, its queue, its turns and its end. */
  ghost predicate Drained(x: Session, max: int, w: World, r: DrainResult, failed: bool, y: Session) {
    var q, n := x.queue, Open(x.queue);
    && r.completed + r.failed == r.processed && r.failed <= 1 && (max > 0 ==> r.processed <= max)
    && (failed <==> r.failed == 1 || NoRunner(q, w))
    && (failed && r.failed == 0 ==> r.canceled == 0)
    && (!failed ==> r.remaining == 0 || (max > 0 && r.processed == max))
    && (r.canceled > 0 ==> exists c :: w.asks(c))
    && (exists b :: Answered(RecoverPrompts(q, false), b, w, r) && Told(x, b, w, r, y)
          && Left(RecoverPrompts(q, false), b, w, y, NoRunner(q, w)))
    && (!(failed && r.failed == 0) ==> n == r.processed + r.canceled + r.remaining)
    && CountOf(y.queue, Running) == 0 && GoodQueue(y.queue)
    && (!Latched(y.status) && !(failed && r.failed == 0) ==>
          CountOf(y.queue, Pending) == r.remaining)
    && (Latched(y.status) ==> r.canceled > 0 && Open(y.queue) == 0)
    && (Calm(w) ==> !failed && r.failed == 0 && r.canceled == 0 && r.processed == if max <= 0 then n else Min(n, max))
  }

  /** Where the drain loop stands: the prompts up to border b were answered. */
  ghost predicate Underway(q: seq<Prompt>, b: nat, n: nat, w: World, r: DrainResult, y: Session) {
    && Answered(q, b, w, r) && y.queue == AnsweredTo(q, b, w)
    && CountOf(y.queue, Running) == 0 && CountOf(y.queue, Pending) + r.processed == n && !Latched(y.status)
    && GoodQueue(y.queue) && r.completed + r.failed == r.processed && r.canceled == 0
  }

  /** Where a drain of the session stands that found it as x. */
  ghost predicate Standing(x: Session, b: nat, w: World, r: DrainResult, y: Session) {
    Underway(RecoverPrompts(x.queue, false), b, Open(x.queue), w, r, y) && Told(x, b, w, r, y)
  }

  lemma StartUnderway(x: Session, w: World)
    requires !Latched(x.status) && GoodQueue(x.queue)
    ensures var y := After(Recover, Some(x)).value;
      Standing(x, 0, w, DrainResult(0, 0, 0, 0, 0), y)
  {
    assert x.turns + [] == x.turns;
    RecoverBeforeDrain(x);
    var y := After(Recover, Some(x)).value;
    assert AnsweredTo(y.queue, 0, w) == y.queue && y.queue[..0] == [];
  }

  lemma TurnUnderway(q: seq<Prompt>, b: nat, n: nat, w: World, r: DrainResult, y: Session, z: Session)
    requires Underway(q, b, n, w, r, y) && r.failed == 0 && NextPending(y.queue) < |y.queue| && !Latched(z.status)
    requires var k := NextPending(y.queue); z.queue == y.queue[k := Replied(y.queue[k], w.reply(k))]
    ensures var k := NextPending(y.queue); var ok := w.reply(k).ok;
      k < |q| && Underway(q, k + 1, n, w,
          r.(processed := r.processed + 1, completed := r.completed + (if ok then 1 else 0),
                              failed := r.failed + if ok then 0 else 1), z)
  {
    hide AnsweredTo, CountOf, GoodQueue, Answered, NextPending;
    var k := NextPending(y.queue);
    AnsweredSizes(q, b, w, r);
    AnswerNext(q, b, w);
    AnsweredAt(q, b, w, k);
    AnsweredPrompt(q, b, w, k);
    NextIsPending(y.queue);
    ReplyKeepsQueue(y.queue, k, w.reply(k));
    AnsweredOneMore(q, b, k, w, r);
  }

  function Counted(r: DrainResult, ok: bool): DrainResult {
    r.(processed := r.processed + 1, completed := r.completed + (if ok then 1 else 0),
       failed := r.failed + if ok then 0 else 1)
  }

  /** The turn of the next prompt. */
  lemma TurnStanding(x: Session, b: nat, w: World, r: DrainResult, y: Session, z: Session)
    requires Standing(x, b, w, r, y) && r.failed == 0 && NextPending(y.queue) < |y.queue| && !Latched(z.status)
    requires var k := NextPending(y.queue);
      && z.queue == y.queue[k := Replied(y.queue[k], w.reply(k))] && z.turns == y.turns + TurnOf(w.reply(k))
      && z.acpId == if r.processed > 0 || y.acpId != "" then y.acpId else w.acpId
    ensures var k := NextPending(y.queue); Standing(x, k + 1, w, Counted(r, w.reply(k).ok), z)
  {
    hide Underway, Told, RecoverPrompts, TurnOf;
    var q, k := RecoverPrompts(x.queue, false), NextPending(y.queue);
    TurnUnderway(q, b, Open(x.queue), w, r, y, z);
    PendingAhead(q, b, Open(x.queue), w, r, y);
    TurnTold(x, b, k, w, r, Counted(r, w.reply(k).ok), y, z);
  }

  lemma PendingAhead(q: seq<Prompt>, b: nat, n: nat, w: World, r: DrainResult, y: Session)
    requires Underway(q, b, n, w, r, y) && NextPending(y.queue) < |y.queue|
    ensures var k := NextPending(y.queue);
      b <= k < |q| && q[k].status.Pending? && forall i | b <= i < k :: !q[i].status.Pending?
  {
    AnsweredAt(q, b, w, NextPending(y.queue));
  }

  lemma StandingFacts(x: Session, b: nat, w: World, r: DrainResult, y: Session)
    requires Standing(x, b, w, r, y)
    ensures !Latched(y.status) && GoodQueue(y.queue) && CountOf(y.queue, Running) == 0
    ensures CountOf(y.queue, Pending) + r.processed == Open(x.queue)
    ensures r.completed + r.failed == r.processed && r.canceled == 0
    ensures NextPending(y.queue) < |y.queue| ==> y.queue[NextPending(y.queue)].status.Pending?
  {}

  lemma AnsweredSizes(q: seq<Prompt>, b: nat, w: World, r: DrainResult)
    requires Answered(q, b, w, r)
    ensures b <= |q| && |AnsweredTo(q, b, w)| == |q|
  {}

  lemma NextIsPending(q: seq<Prompt>)
    ensures NextPending(q) < |q| ==> q[NextPending(q)].status.Pending?
  {}

  lemma AnsweredOneMore(q: seq<Prompt>, b: nat, k: nat, w: World, r: DrainResult)
    requires Answered(q, b, w, r) && r.failed == 0 && b <= k < |q| && q[k].status.Pending?
    requires (forall i | b <= i < k :: !q[i].status.Pending?)
    requires CountOf(q[..k + 1], Pending) == CountOf(q[..b], Pending) + 1
    ensures Answered(q, k + 1, w,
        r.(processed := r.processed + 1, completed := r.completed + (if w.reply(k).ok then 1 else 0),
           failed := r.failed + if w.reply(k).ok then 0 else 1))
  {
    hide CountOf;
  }

  lemma AnsweredPrompt(q: seq<Prompt>, b: nat, w: World, k: nat)
    requires b <= k < |q|
    ensures AnsweredTo(q, b, w)[k] == q[k]
  {}

  lemma ReplyKeepsQueue(q: seq<Prompt>, k: nat, reply: Reply)
    requires k < |q| && q[k].status.Pending? && GoodQueue(q)
    ensures var z := q[k := Replied(q[k], reply)];
      GoodQueue(z) && CountOf(z, Pending) == CountOf(q, Pending) - 1 && CountOf(z, Running) == CountOf(q, Running)
  {
    CountOne(q, k, Replied(q[k], reply), Pending);
    CountOne(q, k, Replied(q[k], reply), Running);
  }

  lemma LoopEnds(x: Session, b: nat, max: int, w: World, r: DrainResult, y: Session)
    requires Standing(x, b, w, r, y) && r.failed == 0
    requires (max > 0 ==> r.processed <= max) && (r.processed > 0 ==> w.starts)
    requires CountOf(y.queue, Pending) == 0 || (max > 0 && r.processed == max)
    ensures Drained(x, max, w, r.(remaining := CountOf(y.queue, Pending)), false, y)
  {
    AnsweredAndShown(x, b, w, r, r.(remaining := CountOf(y.queue, Pending)), y);
    hide AnsweredTo, RecoverPrompts, GoodQueue, Told, Shown, Answered;
  }

  lemma PromptFails(x: Session, b: nat, max: int, w: World, r: DrainResult, y: Session)
    requires Standing(x, b, w, r, y) && r.failed == 1 && !Calm(w)
    requires (max > 0 ==> r.processed <= max) && w.starts
    ensures Drained(x, max, w, r.(remaining := CountOf(y.queue, Pending)), true, y)
  {
    AnsweredAndShown(x, b, w, r, r.(remaining := CountOf(y.queue, Pending)), y);
    hide AnsweredTo, RecoverPrompts, GoodQueue, Told, Shown, Answered;
  }

  lemma AnsweredAndShown(x: Session, b: nat, w: World, r: DrainResult, r': DrainResult, y: Session)
    requires Answered(RecoverPrompts(x.queue, false), b, w, r) && Told(x, b, w, r, y)
    requires r'.processed == r.processed && r'.failed == r.failed
    requires y.queue == AnsweredTo(RecoverPrompts(x.queue, false), b, w) && !Latched(y.status)
    ensures Answered(RecoverPrompts(x.queue, false), b, w, r') && Told(x, b, w, r', y)
    ensures Shown(RecoverPrompts(x.queue, false), b, w, y)
  {}

  lemma NotStartedEnds(x: Session, max: int, w: World, y: Session, z: Session)
    requires NoRunner(x.queue, w) && Standing(x, 0, w, DrainResult(0, 0, 0, 0, 0), y)
    requires NextPending(y.queue) < |y.queue| && z.queue == Unstarted(y.queue, NextPending(y.queue))
    requires CountOf(z.queue, Running) == 0 && GoodQueue(z.queue) && !Latched(z.status)
    requires z.turns == y.turns && z.acpId == y.acpId
    ensures Drained(x, max, w, DrainResult(0, 0, 0, 0, 0), true, z)
  {
    var q, r := RecoverPrompts(x.queue, false), DrainResult(0, 0, 0, 0, 0);
    assert AnsweredTo(q, 0, w) == q;
    NothingAnswered(q, w);
    assert Told(x, 0, w, r, z) && Left(q, 0, w, z, true);
    hide GoodQueue, RecoverPrompts, Told, Left, Answered, Underway, AnsweredTo;
  }

  lemma NothingAnswered(q: seq<Prompt>, w: World)
    ensures Answered(q, 0, w, DrainResult(0, 0, 0, 0, 0))
  {
    assert q[..0] == [];
  }

  /** Canceling what is pending latches an open session, unless nothing was pending. */
  lemma CancelOps(y: Session)
    requires !Latched(y.status) && CountOf(y.queue, Running) == 0 && GoodQueue(y.queue)
    ensures var c := Apply(CancelPending, Some(y)); var z := After(CancelPending, Some(y)).value;
      && !c.Refused? && (if CountOf(y.queue, Pending) == 0 then z == y else Latched(z.status) && Open(z.queue) == 0)
      && CountOf(z.queue, Pending) == 0 && CountOf(z.queue, Running) == 0 && GoodQueue(z.queue)
      && z.turns == y.turns && z.acpId == y.acpId
  {
    CancelPromptsCounts(y.queue);
    var z := After(CancelPending, Some(y)).value;
    assert |z.queue| == |y.queue| && forall i | 0 <= i < |y.queue| :: z.queue[i].id == y.queue[i].id;
  }

  lemma LoopCancels(x: Session, b: nat, max: int, w: World, r: DrainResult, y: Session)
    requires Standing(x, b, w, r, y) && r.failed == 0
    requires (exists c :: w.asks(c)) && !NoRunner(x.queue, w) && (max > 0 ==> r.processed <= max)
    ensures var c := Apply(CancelPending, Some(y)); var z := After(CancelPending, Some(y)).value;
      var count := CountOf(y.queue, Pending);
      !c.Refused? && Drained(x, max, w, r.(canceled := count, remaining := CountOf(z.queue, Pending)), false, z)
  {
    var q, z := RecoverPrompts(x.queue, false), After(CancelPending, Some(y)).value;
    var r' := r.(canceled := CountOf(y.queue, Pending), remaining := CountOf(z.queue, Pending));
    CancelOps(y);
    CanceledQueue(y);
    assert Answered(q, b, w, r') && Shown(q, b, w, z) && Told(x, b, w, r', z) by {
      hide GoodQueue, RecoverPrompts, CancelPendingPrompts, Replies;
    }
    hide Apply, RecoverPrompts, GoodQueue, AnsweredTo, Answered, Shown, CancelPendingPrompts, Told;
  }

  lemma CanceledQueue(y: Session)
    requires !Latched(y.status) && CountOf(y.queue, Running) == 0
    ensures var z := After(CancelPending, Some(y)).value;
      z.queue == if Latched(z.status) then CancelPendingPrompts(y.queue) else y.queue
  {}

  /** The loop of drainQueueOwned. A negative or zero limit is none. */
  method DrainLoop(store: Store, id: string, max: int, w: World, ghost x: Session)
                   returns (r: DrainResult, failed: bool)
    requires id in store.sessions && Standing(x, 0, w, DrainResult(0, 0, 0, 0, 0), store.sessions[id])
    modifies store
    ensures store.sessions - {id} == old(store.sessions) - {id}
    ensures id in store.sessions && Drained(x, max, w, r, failed, store.sessions[id])
  {
    hide Apply, CountOf, NextPending, Standing, Drained, Replied, Unstarted, TurnOf;
    r, failed := DrainResult(0, 0, 0, 0, 0), false;
    ghost var b := 0;
    var checks, hasRunner := 0, false;
    while max <= 0 || r.processed < max
      invariant store.sessions - {id} == old(store.sessions) - {id}
      invariant id in store.sessions && r.failed == 0 && r.remaining == 0 && checks == 2 * r.processed
      invariant (hasRunner ==> w.starts) && (hasRunner <==> r.processed > 0) && (!hasRunner ==> b == 0)
      invariant Standing(x, b, w, r, store.sessions[id]) && (max > 0 ==> r.processed <= max)
      decreases CountOf(store.sessions[id].queue, Pending)
    {
      ghost var y := store.sessions[id];
      StandingFacts(x, b, w, r, y);
      if w.asks(checks) || Latched(store.sessions[id].status) {
        LoopCancels(x, b, max, w, r, y);
        var _, canceled := store.CancelPendingQueue(id, Confirmed);
        r := r.(canceled := canceled);
        var remaining := store.CountQueue(id, false);
        return r.(remaining := remaining), false;
      }
      var next, _ := store.NextQueuedPrompt(id);
      NoNextPending(y.queue);
      if next.None? { break; }
      if w.asks(checks + 1) || Latched(store.sessions[id].status) {
        LoopCancels(x, b, max, w, r, y);
        var _, canceled := store.CancelPendingQueue(id, Confirmed);
        r := r.(canceled := canceled);
        var remaining := store.CountQueue(id, false);
        return r.(remaining := remaining), false;
      }
      checks := checks + 2;
      var e := DrainTurn(store, id, next.value, hasRunner, w);
      if e.NotStarted? {
        NotStartedEnds(x, max, w, y, store.sessions[id]);
        return r, true;
      }
      TurnStanding(x, b, w, r, y, store.sessions[id]);
      hasRunner, b := true, next.value + 1;
      r := r.(processed := r.processed + 1);
      if e.TurnFailed? {
        r := r.(failed := r.failed + 1);
        var remaining := store.CountQueue(id, false);
        PromptFails(x, b, max, w, r, store.sessions[id]);
        return r.(remaining := remaining), true;
      }
      r := r.(completed := r.completed + 1);
      StandingFacts(x, b, w, r, store.sessions[id]);
    }
    var remaining := store.CountQueue(id, false);
    LoopEnds(x, b, max, w, r, store.sessions[id]);
    r := r.(remaining := remaining);
  }

  /** Recovering a latched session cancels it and leaves nothing to cancel. */
  lemma LatchedDrain(x: Session)
    requires Latched(x.status)
    ensures var c := Apply(Recover, Some(x));
      && c.Changed? && c.session.status == SessionCanceled && Apply(CancelPending, Some(c.session)) == Unchanged
      && CountOf(c.session.queue, Pending) == 0
  {
    RecoverPromptsCounts(x.queue, true);
  }

  /** drainQueueOwned: recover what an earlier owner left running, then drain. */
  method DrainQueueOwned(store: Store, id: string, max: int, w: World) returns (r: DrainResult, failed: bool)
    requires id in store.sessions ==> GoodQueue(store.sessions[id].queue)
    modifies store
    ensures store.sessions - {id} == old(store.sessions) - {id}
    ensures id !in old(store.sessions) ==> failed && store.sessions == old(store.sessions)
    ensures id in old(store.sessions) ==> id in store.sessions
    ensures id in old(store.sessions) && Latched(old(store.sessions[id].status)) ==>
      !failed && r == DrainResult(0, 0, 0, RecoverCount(old(store.sessions[id])), 0)
      && store.sessions[id].status == SessionCanceled
      && Some(store.sessions[id]) == After(Recover, Some(old(store.sessions[id])))
    ensures id in old(store.sessions) && !Latched(old(store.sessions[id].status)) ==>
      Drained(old(store.sessions[id]), max, w, r, failed, store.sessions[id])
  {
    hide Drained, Standing, Apply, CountOf, RecoverCount;
    if id !in store.sessions { return DrainResult(0, 0, 0, 0, 0), true; }
    ghost var x := store.sessions[id];
    if Latched(x.status) {
      LatchedDrain(x);
    } else {
      StartUnderway(x, w);
    }
    var end, recovered, latched := store.RecoverRunningQueueItems(id, Confirmed);
    if latched {
      // The first check of the loop finds the latch closed; nothing is left to cancel.
      var _, canceled := store.CancelPendingQueue(id, Confirmed);
      var remaining := store.CountQueue(id, false);
      return DrainResult(0, 0, 0, recovered + canceled, remaining), false;
    }
    r, failed := DrainLoop(store, id, max, w, x);
  }

  /** failed: the drain of the cycle returned an error. */
  datatype WatchCycle = WatchCycle(pendingBefore: nat, drain: DrainResult, failed: bool)

  function Totals(cycles: seq<WatchCycle>): DrainResult {
    if cycles == [] then DrainResult(0, 0, 0, 0, 0)
    else
      var t, d := Totals(cycles[..|cycles| - 1]), cycles[|cycles| - 1].drain;
      DrainResult(t.processed + d.processed, t.completed + d.completed, t.failed + d.failed, t.canceled + d.canceled,
          d.remaining)
  }

  /** The totals are the sums over the cycles. */
  lemma TotalsAreSums(cycles: seq<WatchCycle>, c: WatchCycle)
    ensures Totals([]) == DrainResult(0, 0, 0, 0, 0)
    ensures var t, t' := Totals(cycles), Totals(cycles + [c]);
      && t'.processed == t.processed + c.drain.processed && t'.completed == t.completed + c.drain.completed
      && t'.failed == t.failed + c.drain.failed && t'.canceled == t.canceled + c.drain.canceled
      && t'.remaining == c.drain.remaining
  {
    assert (cycles + [c])[..|cycles|] == cycles;
  }

  /** How many cycles drain n prompts when one cycle drains up to m. */
  function CyclesFor(n: nat, m: nat): nat
    requires m > 0
  {
    if n == 0 then 0 else 1 + CyclesFor(n - Min(n, m), m)
  }

  lemma {:induction false} CyclesForBounds(n: nat, m: nat)
    requires m > 0
    ensures var c := CyclesFor(n, m); n <= m * c < n + m
  {
    if n > 0 {
      CyclesForBounds(n - Min(n, m), m);
      var c := CyclesFor(n, m);
      assert m * c == m * (c - 1) + m;
      if n < m {
        assert CyclesFor(0, m) == 0 && c == 1;
      }
    }
  }

  lemma {:induction false} OneMultipleApart(m: nat, lo: nat, hi: nat)
    requires lo < hi
    ensures m * hi >= m * lo + m
    decreases hi
  {
    assert m * hi == m * (hi - 1) + m;
    if lo < hi - 1 { OneMultipleApart(m, lo, hi - 1); }
  }

  lemma QuotientIs(a: nat, m: nat, c: nat)
    requires m > 0 && m * c <= a < m * c + m
    ensures a / m == c
  {
    var q := a / m;
    assert m * q <= a < m * q + m;
    if q > c { OneMultipleApart(m, c, q); }
    if q < c { OneMultipleApart(m, q, c); }
  }

  lemma CyclesForIsCeiling(n: nat, m: nat)
    requires m > 0
    ensures CyclesFor(n, m) == (n + m - 1) / m
  {
    CyclesForBounds(n, m);
    QuotientIs(n + m - 1, m, CyclesFor(n, m));
  }

  datatype WatchEnd = WatchFinished | WatchCanceled | ContextDone | WatchFailed

  predicate Balanced(c: WatchCycle) { c.pendingBefore == c.drain.processed + c.drain.canceled + c.drain.remaining }

  const IDLE := WatchCycle(0, DrainResult(0, 0, 0, 0, 0), false)

  /** A cycle reports an error exactly if a prompt failed in it or its runner did not start, and balances unless the
      runner did not start. Without an error it stops at its limit of m prompts or with nothing left, and it cancels
      prompts if it was asked to alone. */
  ghost predicate Honest(c: WatchCycle, m: nat, w: World) {
    && (c.failed <==> c.drain.failed == 1 || (!w.starts && c.pendingBefore > 0 && !w.asks(0) && !w.asks(1)))
    && (Balanced(c) || (c.failed && c.drain.failed == 0))
    && (c.drain.failed == 1 ==> exists i :: !w.reply(i).ok)
    && c.drain.processed <= m && (!c.failed ==> c.drain.remaining == 0 || c.drain.processed == m)
    && (c.drain.canceled > 0 ==> exists i :: w.asks(i))
  }

  /** Every cycle is honest, and each one but the last leaves its remaining prompts to the next and did not fail. */
  ghost predicate Honestly(log: seq<WatchCycle>, m: nat, w: nat -> World) {
    && (forall i | 0 <= i < |log| :: Honest(log[i], m, w(i)))
    && (forall i | 0 <= i < |log| - 1 :: !log[i].failed && log[i + 1].pendingBefore == log[i].drain.remaining)
  }

  /** A cycle of an open session: an idle one changes nothing, and any other is a drain. */
  ghost predicate Cycled(x: Session, m: nat, w: World, c: WatchCycle, y: Session) {
    && !Latched(x.status) && c.pendingBefore == Open(x.queue)
    && if Open(x.queue) == 0 then c == IDLE && y == x else Drained(x, m, w, c.drain, c.failed, y)
  }

  /** The session before the first cycle and after each one. */
  ghost predicate Chained(states: seq<Session>, log: seq<WatchCycle>, m: nat, w: nat -> World) {
    |states| == |log| + 1 && forall i | 0 <= i < |log| :: Cycled(states[i], m, w(i), log[i], states[i + 1])
  }

  lemma ChainedAppend(states: seq<Session>, log: seq<WatchCycle>, m: nat, w: nat -> World, log': seq<WatchCycle>,
                      y: Session)
    requires Chained(states, log, m, w) && |log'| == |log| + 1 && log == log'[..|log|]
    requires Cycled(states[|log|], m, w(|log|), log'[|log|], y)
    ensures Chained(states + [y], log', m, w)
  {
    hide Cycled;
    var states' := states + [y];
    forall i | 0 <= i < |log'| ensures Cycled(states'[i], m, w(i), log'[i], states'[i + 1]) {
      if i < |log| { assert log[i] == log'[i]; }
    }
  }

  lemma ChainedNothing(x: Session, m: nat, w: nat -> World)
    ensures Chained([x], [], m, w)
  {}

  /** What the last cycle left, or the queue that the watch found. */
  function LeftBy(log: seq<WatchCycle>, n: nat): nat { if log == [] then n else log[|log| - 1].drain.remaining }

  /** The cycles a calm watch takes that stops when the queue is empty: one more than needed to drain it. */
  function ExpectedCycles(n: nat, m: nat, maxCycles: int): nat
    requires m > 0
  {
    var full := CyclesFor(n, m) + 1;
    if 0 < maxCycles < full then maxCycles else full
  }

  /** What a watch keeps from cycle to cycle: the session's queue and the counters. */
  ghost predicate Watching(x: Session, m: nat, log: seq<WatchCycle>, w: nat -> World, r: DrainResult, y: Session) {
    && GoodQueue(y.queue) && Honestly(log, m, w) && (log != [] ==> !log[|log| - 1].failed)
    && (log != [] ==> log[0].pendingBefore == Open(x.queue))
    && r.(remaining := 0) == Totals(log).(remaining := 0)
    && (Latched(y.status) && log != [] ==> Open(y.queue) == 0 && log[|log| - 1].drain.canceled > 0)
    && (!Latched(y.status) ==> Open(y.queue) == LeftBy(log, Open(x.queue)))
    && (log != [] ==> r.remaining == LeftBy(log, 0))
  }

  function Plus(r: DrainResult, d: DrainResult): DrainResult {
    DrainResult(r.processed + d.processed, r.completed + d.completed, r.failed + d.failed, r.canceled + d.canceled,
        d.remaining)
  }

  lemma DrainedIsHonest(x: Session, m: nat, w: World, d: DrainResult, failed: bool, z: Session)
    requires m > 0 && Drained(x, m, w, d, failed, z)
    ensures Honest(WatchCycle(Open(x.queue), d, failed), m, w) && GoodQueue(z.queue)
    ensures !failed && !Latched(z.status) ==> Open(z.queue) == d.remaining
    ensures Latched(z.status) ==> Open(z.queue) == 0 && d.canceled > 0
  {
    hide GoodQueue, CountOf, RecoverPrompts, Left, Told;
    if d.failed == 1 {
      var b: nat :| Answered(RecoverPrompts(x.queue, false), b, w, d);
      assert !w.reply(b - 1).ok;
    }
  }

  lemma HonestlyAppend(log: seq<WatchCycle>, m: nat, w: nat -> World, c: WatchCycle, n: nat)
    requires Honestly(log, m, w) && Honest(c, m, w(|log|)) && (log != [] ==> !log[|log| - 1].failed)
    requires c.pendingBefore == LeftBy(log, n)
    ensures Honestly(log + [c], m, w)
  {
    hide Honest;
    var log' := log + [c];
    forall i | 0 <= i < |log'| ensures Honest(log'[i], m, w(i)) {
      if i < |log| { assert log'[i] == log[i]; }
    }
  }

  lemma TotalsAppend(log: seq<WatchCycle>, c: WatchCycle, r: DrainResult)
    requires r.(remaining := 0) == Totals(log).(remaining := 0)
    ensures Plus(r, c.drain) == Totals(log + [c])
  {
    assert (log + [c])[..|log|] == log;
  }

  lemma CycleKeepsWatching(x: Session, m: nat, w: nat -> World, log: seq<WatchCycle>, r: DrainResult, y: Session,
                           d: DrainResult, failed: bool, z: Session)
    requires m > 0 && Watching(x, m, log, w, r, y) && !Latched(y.status) && Drained(y, m, w(|log|), d, failed, z)
    ensures var log' := log + [WatchCycle(Open(y.queue), d, failed)];
      && Plus(r, d) == Totals(log') && Honestly(log', m, w) && log'[0].pendingBefore == Open(x.queue)
      && (!failed ==> Watching(x, m, log', w, Plus(r, d), z))
  {
    hide GoodQueue, CountOf, Drained, Honest, Totals, Honestly, Open, Latched;
    var c := WatchCycle(Open(y.queue), d, failed);
    DrainedIsHonest(y, m, w(|log|), d, failed, z);
    HonestlyAppend(log, m, w, c, Open(x.queue));
    TotalsAppend(log, c, r);
    assert (log + [c])[|log|] == c && (log != [] ==> (log + [c])[0] == log[0]);
  }

  lemma IdleKeepsWatching(x: Session, m: nat, w: nat -> World, log: seq<WatchCycle>, r: DrainResult, y: Session)
    requires m > 0 && Watching(x, m, log, w, r, y) && !Latched(y.status) && Open(y.queue) == 0
    ensures Watching(x, m, log + [IDLE], w, r.(remaining := 0), y)
  {
    hide GoodQueue, CountOf, Totals, Honestly, Honest, Open, Latched;
    IdleIsHonest(m, w(|log|));
    HonestlyAppend(log, m, w, IDLE, Open(x.queue));
    TotalsAppend(log, IDLE, r);
    assert Plus(r, IDLE.drain) == r.(remaining := 0);
  }

  lemma IdleIsHonest(m: nat, w: World)
    ensures Honest(IDLE, m, w)
  {}

  /** finalizeWatchCancellation: recovers the queue of a latched session. */
  method FinalizeWatchCancellation(store: Store, id: string, r: DrainResult) returns (r': DrainResult, e: WatchEnd)
    requires id in store.sessions
    modifies store
    ensures store.sessions - {id} == old(store.sessions) - {id}
    ensures id in store.sessions
    ensures !Latched(old(store.sessions[id].status)) ==>
      e.WatchFinished? && r' == r && store.sessions == old(store.sessions)
    ensures Latched(old(store.sessions[id].status)) ==>
      e.WatchCanceled?
      && r' == r.(canceled := r.canceled + RecoverCount(old(store.sessions[id])),
                  remaining := CountOf(store.sessions[id].queue, Pending))
      && Some(store.sessions[id]) == After(Recover, Some(old(store.sessions[id])))
  {
    hide Apply;
    if !Latched(store.sessions[id].status) { return r, WatchFinished; }
    var _, recovered, _ := store.RecoverRunningQueueItems(id, Confirmed);
    var remaining := store.CountQueue(id, false);
    return r.(canceled := r.canceled + recovered, remaining := remaining), WatchCanceled;
  }

  /** One cycle of a watch of an open session. */
  method RunCycle(store: Store, id: string, m: nat, ghost x: Session, log: seq<WatchCycle>, r: DrainResult,
                  w: nat -> World)
    returns (r': DrainResult, log': seq<WatchCycle>)
    requires m > 0 && id in store.sessions && Watching(x, m, log, w, r, store.sessions[id])
    requires !Latched(store.sessions[id].status)
    modifies store
    ensures store.sessions - {id} == old(store.sessions) - {id}
    ensures id in store.sessions && |log'| == |log| + 1 && log == log'[..|log|]
    ensures log'[|log|].pendingBefore == Open(old(store.sessions[id].queue))
    ensures r' == Totals(log') && Honestly(log', m, w) && log'[0].pendingBefore == Open(x.queue)
    ensures !log'[|log|].failed ==> Watching(x, m, log', w, r', store.sessions[id])
    ensures r'.remaining == LeftBy(log', 0)
    ensures Cycled(old(store.sessions[id]), m, w(|log|), log'[|log|], store.sessions[id])
  {
    hide Apply, Drained, RecoverPrompts, GoodQueue, CountOf, Totals, Honestly, Latched, Watching;
    ghost var y := store.sessions[id];
    WatchingFacts(x, m, log, w, r, y);
    var work := store.CountQueue(id, true);
    if work == 0 {
      IdleKeepsWatching(x, m, w, log, r, y);
      WatchingFacts(x, m, log + [IDLE], w, r.(remaining := 0), y);
      return r.(remaining := 0), log + [IDLE];
    }
    var d, failed := DrainQueueOwned(store, id, m, w(|log|));
    CycleKeepsWatching(x, m, w, log, r, y, d, failed, store.sessions[id]);
    return Plus(r, d), log + [WatchCycle(work, d, failed)];
  }

  lemma WatchingFacts(x: Session, m: nat, log: seq<WatchCycle>, w: nat -> World, r: DrainResult, y: Session)
    requires Watching(x, m, log, w, r, y)
    ensures GoodQueue(y.queue) && Honestly(log, m, w) && (log != [] ==> !log[|log| - 1].failed)
    ensures log != [] ==> log[0].pendingBefore == Open(x.queue)
    ensures log != [] ==> r == Totals(log) && r.remaining == LeftBy(log, 0)
    ensures r.(remaining := 0) == Totals(log).(remaining := 0)
    ensures Latched(y.status) && log != [] ==> RecoverCount(y) == 0 && log[|log| - 1].drain.canceled > 0
  {
    hide GoodQueue, Honestly, Latched;
  }

  /** No cycle found nothing to do when that was to stop the watch. */
  predicate Restless(log: seq<WatchCycle>, stopWhenEmpty: bool) {
    forall i | 0 <= i < |log| :: !(stopWhenEmpty && log[i].pendingBefore == 0)
  }

  lemma RestlessNothing(stopWhenEmpty: bool)
    ensures Restless([], stopWhenEmpty)
  {}

  lemma RestlessNext(log: seq<WatchCycle>, log': seq<WatchCycle>, stopWhenEmpty: bool)
    requires Restless(log, stopWhenEmpty) && |log'| == |log| + 1 && log == log'[..|log|]
    ensures Restless(log'[..|log'| - 1], stopWhenEmpty)
    ensures !(stopWhenEmpty && log'[|log|].pendingBefore == 0) ==> Restless(log', stopWhenEmpty)
  {
    if !(stopWhenEmpty && log'[|log|].pendingBefore == 0) {
      forall i | 0 <= i < |log'| ensures !(stopWhenEmpty && log'[i].pendingBefore == 0) {
        if i < |log| { assert log[i] == log'[i]; }
      }
    }
  }

  /** How a watch may end: it fails exactly with its last cycle; it is canceled behind a cycle that canceled prompts,
      or before the first one; it is done with its context before the first cycle or after the given sleeps; it
      finishes when it was to stop and found nothing, or at its cycle limit, and goes on otherwise. */
  predicate EndsAs(e: WatchEnd, log: seq<WatchCycle>, maxCycles: int, stopWhenEmpty: bool, ctxDone: bool, sleeps: nat) {
    && (e.WatchFailed? <==> log != [] && log[|log| - 1].failed)
    && (ctxDone ==> e.ContextDone? && log == [])
    && (e.ContextDone? && !ctxDone ==>
          |log| == sleeps + 1 && Restless(log, stopWhenEmpty) && (maxCycles > 0 ==> |log| < maxCycles))
    && (e.WatchFinished? ==>
          log != [] && (0 < maxCycles <= |log| || (stopWhenEmpty && log[|log| - 1].pendingBefore == 0)))
    && (e.WatchCanceled? && log != [] ==> log[|log| - 1].drain.canceled > 0)
    && |log| <= sleeps + 1 && (maxCycles > 0 ==> |log| <= maxCycles)
    && (log != [] ==> Restless(log[..|log| - 1], stopWhenEmpty))
  }

  /** The ends before a cycle. */
  lemma EndsBefore(log: seq<WatchCycle>, maxCycles: int, stopWhenEmpty: bool, ctxDone: bool, sleeps: nat)
    requires Restless(log, stopWhenEmpty) && (log != [] ==> !log[|log| - 1].failed) && (ctxDone ==> log == [])
    requires |log| <= sleeps && (maxCycles > 0 ==> |log| < maxCycles)
    ensures ctxDone ==> EndsAs(ContextDone, log, maxCycles, stopWhenEmpty, ctxDone, sleeps)
    ensures !ctxDone && (log == [] || log[|log| - 1].drain.canceled > 0) ==>
      EndsAs(WatchCanceled, log, maxCycles, stopWhenEmpty, ctxDone, sleeps)
  {}

  /** The ends behind a cycle. */
  lemma EndsBehind(log: seq<WatchCycle>, log': seq<WatchCycle>, maxCycles: int, stopWhenEmpty: bool, sleeps: nat)
    requires Restless(log, stopWhenEmpty) && |log'| == |log| + 1 && log == log'[..|log|]
    requires |log| <= sleeps && (maxCycles > 0 ==> |log| < maxCycles)
    ensures var last := log'[|log|]; var stop := (stopWhenEmpty && last.pendingBefore == 0) || 0 < maxCycles <= |log'|;
      && (last.failed ==> EndsAs(WatchFailed, log', maxCycles, stopWhenEmpty, false, sleeps))
      && (!last.failed && last.drain.canceled > 0 ==>
            EndsAs(WatchCanceled, log', maxCycles, stopWhenEmpty, false, sleeps))
      && (!last.failed && stop ==> EndsAs(WatchFinished, log', maxCycles, stopWhenEmpty, false, sleeps))
      && (!last.failed && !stop && |log| == sleeps ==>
            EndsAs(ContextDone, log', maxCycles, stopWhenEmpty, false, sleeps))
      && (!stop ==> Restless(log', stopWhenEmpty))
  {
    RestlessNext(log, log', stopWhenEmpty);
  }

  /** A canceled watch leaves the session recovered, any other as its last cycle left it. */
  predicate EndsIn(e: WatchEnd, last: Session, y: Session) {
    Some(y) == if e.WatchCanceled? then After(Recover, Some(last)) else Some(last)
  }

  /** The loop of WatchQueue. */
  method WatchLoop(store: Store, id: string, m: nat, maxCycles: int, stopWhenEmpty: bool, ctxDone: bool, sleeps: nat,
                   w: nat -> World)
    returns (r: DrainResult, log: seq<WatchCycle>, e: WatchEnd, ghost states: seq<Session>)
    requires m > 0 && id in store.sessions && GoodQueue(store.sessions[id].queue)
    modifies store
    ensures store.sessions - {id} == old(store.sessions) - {id}
    ensures r.(canceled := 0, remaining := 0) == Totals(log).(canceled := 0, remaining := 0)
    ensures Honestly(log, m, w) && EndsAs(e, log, maxCycles, stopWhenEmpty, ctxDone, sleeps)
    ensures log != [] ==> log[0].pendingBefore == Open(old(store.sessions[id].queue))
    ensures log != [] && !e.WatchCanceled? && !ctxDone ==> r.remaining == LeftBy(log, 0)
    ensures !Latched(old(store.sessions[id].status)) ==> r.canceled == Totals(log).canceled
    ensures !Latched(old(store.sessions[id].status)) && !ctxDone ==> log != []
    ensures Latched(old(store.sessions[id].status)) && !ctxDone ==>
      log == [] && e.WatchCanceled? && r.canceled == RecoverCount(old(store.sessions[id]))
    ensures ctxDone ==> r == DrainResult(0, 0, 0, 0, CountOf(old(store.sessions[id].queue), Pending))
    ensures id in store.sessions && Chained(states, log, m, w) && states[0] == old(store.sessions[id])
    ensures EndsIn(e, states[|log|], store.sessions[id])
  {
    hide Chained, Cycled, Apply, Drained, RecoverPrompts, GoodQueue, CountOf, Totals, Honestly, Latched, Watching, Open,
        RecoverCount, Restless, LeftBy, Honest, EndsAs;
    ghost var x := store.sessions[id];
    var left: nat := sleeps;
    r, log := DrainResult(0, 0, 0, 0, 0), [];
    StartWatching(x, m, w);
    RestlessNothing(stopWhenEmpty);
    states := [x];
    ChainedNothing(x, m, w);
    while true
      invariant store.sessions - {id} == old(store.sessions) - {id}
      invariant id in store.sessions && Watching(x, m, log, w, r, store.sessions[id])
      invariant Latched(x.status) ==> log == []
      invariant log == [] ==> store.sessions[id] == x && r == DrainResult(0, 0, 0, 0, 0)
      invariant left + |log| == sleeps && (ctxDone ==> log == []) && (maxCycles > 0 ==> |log| < maxCycles)
      invariant Restless(log, stopWhenEmpty)
      invariant |states| == |log| + 1 && states[0] == x && states[|log|] == store.sessions[id]
      invariant Chained(states, log, m, w)
      decreases left
    {
      WatchingFacts(x, m, log, w, r, store.sessions[id]);
      EndsBefore(log, maxCycles, stopWhenEmpty, ctxDone, sleeps);
      if ctxDone {
        var remaining := store.CountQueue(id, false);
        return r.(remaining := remaining), log, ContextDone, states;
      }
      if Latched(store.sessions[id].status) {
        r, e := FinalizeWatchCancellation(store, id, r);
        return;
      }
      ghost var log0 := log;
      r, log := RunCycle(store, id, m, x, log, r, w);
      EndsBehind(log0, log, maxCycles, stopWhenEmpty, sleeps);
      ChainedAppend(states, log0, m, w, log, store.sessions[id]);
      states := states + [store.sessions[id]];
      var last := log[|log| - 1];
      if last.failed { return r, log, WatchFailed, states; }
      WatchingFacts(x, m, log, w, r, store.sessions[id]);
      if (stopWhenEmpty && last.pendingBefore == 0) || 0 < maxCycles <= |log| {
        r, e := FinalizeWatchCancellation(store, id, r);
        return;
      }
      if left == 0 { return r, log, ContextDone, states; }
      left := left - 1;
    }
  }

  lemma StartWatching(x: Session, m: nat, w: nat -> World)
    requires GoodQueue(x.queue)
    ensures Watching(x, m, [], w, DrainResult(0, 0, 0, 0, 0), x)
  {}

  /** WatchQueue under the owner lease. Its context ends after the given number of sleeps, and w tells what
      the world does in each cycle. */
  method WatchQueue(store: Store, id: string, maxPerCycle: int, maxCycles: int, stopWhenEmpty: bool,
                    ctxDone: bool, sleeps: nat, w: nat -> World)
    returns (r: DrainResult, log: seq<WatchCycle>, e: WatchEnd, ghost states: seq<Session>)
    requires id in store.sessions && GoodQueue(store.sessions[id].queue)
    modifies store
    ensures store.sessions - {id} == old(store.sessions) - {id}
    ensures r.processed == Totals(log).processed && r.completed == Totals(log).completed
        && r.failed == Totals(log).failed
    ensures Honestly(log, Limit(maxPerCycle), w) && EndsAs(e, log, maxCycles, stopWhenEmpty, ctxDone, sleeps)
    ensures log != [] ==> log[0].pendingBefore == Open(old(store.sessions[id].queue))
    ensures log != [] && !e.WatchCanceled? && !ctxDone ==> r.remaining == LeftBy(log, 0)
    ensures !Latched(old(store.sessions[id].status)) ==> r.canceled == Totals(log).canceled
    ensures Latched(old(store.sessions[id].status)) && !ctxDone ==>
      log == [] && e.WatchCanceled? && r.canceled == RecoverCount(old(store.sessions[id]))
    ensures ctxDone ==> r == DrainResult(0, 0, 0, 0, CountOf(old(store.sessions[id].queue), Pending))
    ensures id in store.sessions && Chained(states, log, Limit(maxPerCycle), w) && states[0] == old(store.sessions[id])
    ensures EndsIn(e, states[|log|], store.sessions[id])
    ensures var n, m := Open(old(store.sessions[id].queue)), Limit(maxPerCycle);
      var expected := ExpectedCycles(n, m, maxCycles);
      !Latched(old(store.sessions[id].status)) && (forall c: nat :: Calm(w(c))) && stopWhenEmpty && !ctxDone
      && sleeps + 1 >= expected ==>
        e.WatchFinished? && |log| == expected
        && (expected == CyclesFor(n, m) + 1 ==> r.processed == n && r.remaining == 0)
  {
    hide GoodQueue, CountOf, Totals, Honestly, Latched, Calm, Open, RecoverCount, CyclesFor, ExpectedCycles, LeftBy,
        EndsAs, EndsIn, Cycled;
    ghost var x := store.sessions[id];
    r, log, e, states := WatchLoop(store, id, Limit(maxPerCycle), maxCycles, stopWhenEmpty, ctxDone, sleeps, w);
    if !Latched(x.status) && (forall c: nat :: Calm(w(c))) && stopWhenEmpty && !ctxDone
      && sleeps + 1 >= ExpectedCycles(Open(x.queue), Limit(maxPerCycle), maxCycles) {
      CalmWatch(log, Limit(maxPerCycle), maxCycles, sleeps, w, Open(x.queue), e);
    }
  }

  /** Without a limit given, a cycle takes one prompt. */
  function Limit(maxPerCycle: int): (m: nat)
    ensures m > 0
  {
    if maxPerCycle <= 0 then 1 else maxPerCycle
  }

  /** A calm watch that is to stop when the queue is empty drains it, up to its cycle limit, and finishes. */
  lemma CalmWatch(log: seq<WatchCycle>, m: nat, maxCycles: int, sleeps: nat, w: nat -> World, n: nat, e: WatchEnd)
    requires m > 0 && log != [] && log[0].pendingBefore == n && Honestly(log, m, w)
    requires EndsAs(e, log, maxCycles, true, false, sleeps)
    requires (forall c: nat :: Calm(w(c))) && sleeps + 1 >= ExpectedCycles(n, m, maxCycles)
    ensures e.WatchFinished? && |log| == ExpectedCycles(n, m, maxCycles)
    ensures |log| == CyclesFor(n, m) + 1 ==> Totals(log).processed == n && LeftBy(log, 0) == 0
  {
    hide Honestly, Calm, Totals, CyclesFor;
    var k := |log| - 1;
    CalmCycles(log, m, w, n, k);
    CalmCycle(log, m, w, n, k);
    CyclesForNone(log[k].pendingBefore, m);
    TotalsLast(log);
  }

  lemma TotalsLast(log: seq<WatchCycle>)
    requires log != []
    ensures Totals(log).processed == Totals(log[..|log| - 1]).processed + log[|log| - 1].drain.processed
  {}

  lemma CyclesForNone(n: nat, m: nat)
    requires m > 0
    ensures CyclesFor(n, m) == 0 <==> n == 0
  {}

  /** A calm cycle takes as many prompts as it may, and none fails or is canceled. */
  lemma CalmCycle(log: seq<WatchCycle>, m: nat, w: nat -> World, n: nat, k: nat)
    requires k < |log| && Honestly(log, m, w) && Calm(w(k)) && log[0].pendingBefore == n
    ensures !log[k].failed && log[k].drain.canceled == 0 && log[k].pendingBefore == LeftBy(log[..k], n)
    ensures log[k].drain.processed == Min(log[k].pendingBefore, m)
    ensures log[k].drain.processed + log[k].drain.remaining == log[k].pendingBefore
  {
    assert Honest(log[k], m, w(k));
    if k > 0 { assert log[..k][k - 1] == log[k - 1] && log[k - 1 + 1].pendingBefore == log[k - 1].drain.remaining; }
  }

  /** What k calm cycles that had work to do leave, and how many more it takes. */
  lemma {:induction false} CalmCycles(log: seq<WatchCycle>, m: nat, w: nat -> World, n: nat, k: nat)
    requires m > 0 && k < |log| && Honestly(log, m, w) && (forall c: nat :: Calm(w(c))) && log[0].pendingBefore == n
    requires Restless(log[..k], true)
    ensures k + CyclesFor(LeftBy(log[..k], n), m) == CyclesFor(n, m)
    ensures Totals(log[..k]).processed + LeftBy(log[..k], n) == n
  {
    hide Honestly, Calm;
    if k > 0 {
      assert log[..k][..k - 1] == log[..k - 1] && log[..k][k - 1] == log[k - 1];
      CalmCycles(log, m, w, n, k - 1);
      CalmCycle(log, m, w, n, k - 1);
    }
  }
}
