/** The session store: every operation of SessionQueue as a transaction over the sessions file. */
module SessionStore {
  import opened Prelude
  import opened SessionQueue

  type Sessions = map<string, Session>

  datatype StoreEnd = Done | CommitUnconfirmed | Rejected(error: Error)

  function Lookup(m: Sessions, id: string): Option<Session> { if id in m then Some(m[id]) else None }

  /** The sessions file after a transaction whose write ended as w. */
  function Committed(m: Sessions, id: string, c: Change, w: Write): Sessions {
    if c.Changed? && w.Applied() then m[id := c.session] else m
  }

  function EndOf(c: Change, w: Write): StoreEnd {
    match c
    case Refused(error) => Rejected(error)
    case Unchanged => Done
    case Changed(_) => if w.NotApplied? then Rejected(WriteFailed) else if w.Unconfirmed? then CommitUnconfirmed
        else Done
  }

  /** A transaction changes its own record only, and that exactly if it asked for it and its write was applied; it is
      done if nothing was to be written or the write was confirmed, and unconfirmed if it was applied with an error. */
  lemma TransactionTells(m: Sessions, id: string, c: Change, w: Write)
    ensures var m', e := Committed(m, id, c, w), EndOf(c, w);
      && (forall x | x != id :: (x in m' <==> x in m) && (x in m ==> m'[x] == m[x]))
      && (c.Changed? && !w.NotApplied? ==> id in m' && m'[id] == c.session)
      && (!c.Changed? || w.NotApplied? ==> m' == m)
      && (e.Done? <==> c.Unchanged? || (c.Changed? && w.Confirmed?))
      && (e.CommitUnconfirmed? <==> c.Changed? && w.Unconfirmed?)
      && (e.Rejected? ==> e.error == if c.Refused? then c.error else WriteFailed)
  {}

  lemma CountOfTake(q: seq<Prompt>, i: nat, status: PromptStatus)
    requires i < |q|
    ensures CountOf(q[..i + 1], status) == CountOf(q[..i], status) + if q[i].status == status then 1 else 0
  {
    assert q[..i + 1][..i] == q[..i];
  }

  /** findQueuedPrompt. */
  method FindQueuedPrompt(q: seq<Prompt>, id: string) returns (k: nat)
    ensures k == Find(q, id)
  {
    k := 0;
    while k < |q| && q[k].id != id
      invariant k <= |q| && k + Find(q[k..], id) == Find(q, id)
    {
      assert q[k..][1..] == q[k + 1..];
      k := k + 1;
    }
  }

  /** The loop of CancelPendingQueue. */
  method CancelPendingLoop(queue: seq<Prompt>) returns (q: seq<Prompt>, count: nat, hasRunning: bool)
    ensures q == CancelPendingPrompts(queue)
    ensures count == CountOf(queue, Pending) && (hasRunning <==> CountOf(queue, Running) > 0)
  {
    q, count, hasRunning := queue, 0, false;
    for i := 0 to |q|
      invariant |q| == |queue|
      invariant forall j | 0 <= j < |q| :: q[j] == if j < i then CancelPendingPrompt(queue[j]) else queue[j]
      invariant count == CountOf(queue[..i], Pending)
      invariant hasRunning <==> CountOf(queue[..i], Running) > 0
    {
      CountOfTake(queue, i, Pending);
      CountOfTake(queue, i, Running);
      match q[i].status
      case Pending => q := q[i := q[i].(status := Canceled)]; count := count + 1;
      case Running => hasRunning := true;
      case _ =>
    }
    assert queue[..|q|] == queue;
  }

  /** The loop of recoverRunningQueueItems. */
  method RecoverLoop(queue: seq<Prompt>, latched: bool) returns (q: seq<Prompt>, count: nat)
    ensures q == RecoverPrompts(queue, latched)
    ensures count == CountOf(queue, Running) + if latched then CountOf(queue, Pending) else 0
  {
    q, count := queue, 0;
    for i := 0 to |q|
      invariant |q| == |queue|
      invariant forall j | 0 <= j < |q| :: q[j] == if j < i then RecoverPrompt(queue[j], latched) else queue[j]
      invariant count == CountOf(queue[..i], Running) + if latched then CountOf(queue[..i], Pending) else 0
    {
      CountOfTake(queue, i, Pending);
      CountOfTake(queue, i, Running);
      if latched {
        if q[i].status.Running? || q[i].status.Pending? {
          q, count := q[i := q[i].(status := Canceled, started := false)], count + 1;
        }
      } else if q[i].status.Running? {
        q, count := q[i := q[i].(status := Pending, started := false)], count + 1;
      }
    }
    assert queue[..|q|] == queue;
  }

  class Store {
    var sessions: Sessions

    constructor ()
      ensures sessions == map[]
    {
      sessions := map[];
    }

    /** transitionSession without events: write the mutated record. */
    method Commit(id: string, c: Change, w: Write) returns (e: StoreEnd)
      modifies this
      ensures sessions == Committed(old(sessions), id, c, w) && e == EndOf(c, w)
    {
      if c.Refused? { return Rejected(c.error); }
      if c.Unchanged? { return Done; }
      if w.NotApplied? { return Rejected(WriteFailed); }
      sessions := sessions[id := c.session];
      return if w.Unconfirmed? then CommitUnconfirmed else Done;
    }

    method AppendQueuedPrompt(id: string, acpId: string, promptId: string, text: string, w: Write) returns (e: StoreEnd)
      modifies this
      ensures id == "" ==> sessions == old(sessions) && e == Rejected(MissingId)
      ensures id != "" ==> var c := Apply(AppendPrompt(acpId, promptId, text), Lookup(old(sessions), id));
        sessions == Committed(old(sessions), id, c, w) && e == EndOf(c, w)
    {
      if id == "" { return Rejected(MissingId); }
      var existing := Session(acpId, SessionQueued, [], []);
      if id in sessions {
        existing := sessions[id];
        if acpId != "" { existing := existing.(acpId := acpId); }
      }
      if Latched(existing.status) { return Rejected(CancelIsRequested); }
      existing := existing.(status := SessionQueued);
      existing := existing.(queue := existing.queue + [Prompt(promptId, text, Pending, false, "")]);
      e := Commit(id, Changed(existing), w);
    }

    /** The first pending prompt. */
    method NextQueuedPrompt(id: string) returns (next: Option<nat>, found: bool)
      ensures found <==> id in sessions
      ensures found
          ==> next == if NextPending(sessions[id].queue) < |sessions[id].queue|
          then Some(NextPending(sessions[id].queue)) else None
    {
      if id !in sessions { return None, false; }
      var q := sessions[id].queue;
      var k := 0;
      while k < |q| && !q[k].status.Pending?
        invariant k <= |q| && k + NextPending(q[k..]) == NextPending(q)
      {
        assert q[k..][1..] == q[k + 1..];
        k := k + 1;
      }
      return if k < |q| then Some(k) else None, true;
    }

    method MarkQueueRunning(id: string, promptId: string, w: Write) returns (e: StoreEnd)
      modifies this
      ensures promptId == "" ==> sessions == old(sessions) && e == Rejected(MissingId)
      ensures promptId != "" ==> var c := Apply(MarkRunning(promptId), Lookup(old(sessions), id));
        sessions == Committed(old(sessions), id, c, w) && e == EndOf(c, w)
    {
      if promptId == "" { return Rejected(MissingId); }
      if id !in sessions { return Rejected(NoSession); }
      var rec := sessions[id];
      if Latched(rec.status) { return Rejected(CancelIsRequested); }
      var k := FindQueuedPrompt(rec.queue, promptId);
      if k == |rec.queue| { return Rejected(NoPrompt); }
      if !rec.queue[k].status.Pending? { return Rejected(NotPending); }
      rec := rec.(status := SessionRunning, queue := rec.queue[k := rec.queue[k].(status := Running, started := true)]);
      e := Commit(id, Changed(rec), w);
    }

    /** MarkQueueCompleted and MarkQueueFailed. */
    method MarkQueueFinished(id: string, promptId: string, ok: bool, result: string, w: Write) returns (e: StoreEnd)
      modifies this
      ensures promptId == "" ==> sessions == old(sessions) && e == Rejected(MissingId)
      ensures promptId != "" ==> var c := Apply(Finish(promptId, ok, result), Lookup(old(sessions), id));
        sessions == Committed(old(sessions), id, c, w) && e == EndOf(c, w)
    {
      if promptId == "" { return Rejected(MissingId); }
      if id !in sessions { return Rejected(NoSession); }
      var rec := sessions[id];
      var k := FindQueuedPrompt(rec.queue, promptId);
      if k == |rec.queue| { return Rejected(NoPrompt); }
      if Latched(rec.status) {
        rec := rec.(status := SessionCanceled, queue := rec.queue[k := rec.queue[k].(status := Canceled)]);
      } else {
        var before := rec.status;
        rec := rec.(queue := rec.queue[k := rec.queue[k].(status := if ok then Completed else Failed,
            result := result)]);
        if ok { rec := rec.(turns := rec.turns + [result]); }
        rec := rec.(status := PreserveLatch(before, SessionCompleted));
      }
      e := Commit(id, Changed(rec), w);
    }

    method CancelPendingQueue(id: string, w: Write) returns (e: StoreEnd, count: nat)
      modifies this
      ensures var c := Apply(CancelPending, Lookup(old(sessions), id));
        sessions == Committed(old(sessions), id, c, w) && e == EndOf(c, w)
      ensures count == if id in old(sessions) then CountOf(old(sessions)[id].queue, Pending) else 0
    {
      count := 0;
      if id !in sessions { return Rejected(NoSession), 0; }
      var rec := sessions[id];
      var q, hasRunning;
      q, count, hasRunning := CancelPendingLoop(rec.queue);
      var terminalized := Latched(rec.status) && !hasRunning && rec.status != SessionCanceled;
      if count == 0 && !terminalized { return Done, 0; }
      if !hasRunning { rec := rec.(status := SessionCanceled); }
      e := Commit(id, Changed(rec.(queue := q)), w);
    }

    /** recoverRunningQueueItems. */
    method RecoverRunningQueueItems(id: string, w: Write) returns (e: StoreEnd, count: nat, canceled: bool)
      modifies this
      ensures var c := Apply(Recover, Lookup(old(sessions), id));
        sessions == Committed(old(sessions), id, c, w) && e == EndOf(c, w)
      ensures id in old(sessions)
          ==> count == RecoverCount(old(sessions)[id]) && canceled == Latched(old(sessions)[id].status)
      ensures id !in old(sessions) ==> count == 0 && !canceled
    {
      count, canceled := 0, false;
      if id !in sessions { return Rejected(NoSession), 0, false; }
      var rec := sessions[id];
      var q, latched := rec.queue, Latched(rec.status);
      canceled := latched;
      q, count := RecoverLoop(rec.queue, latched);
      if count == 0 && !latched { return Done, 0, false; }
      rec := rec.(status := if latched then SessionCanceled else SessionQueued, queue := q);
      e := Commit(id, Changed(rec), w);
    }

    /** requestCancel; the cancellation file it writes afterwards is only a projection. */
    method RequestCancel(id: string, w: Write, projected: bool) returns (e: StoreEnd)
      modifies this
      ensures id == "" ==> sessions == old(sessions) && e == Rejected(MissingId)
      ensures id != "" ==> var c := Apply(SessionQueue.RequestCancel, Lookup(old(sessions), id));
        && sessions == Committed(old(sessions), id, c, w)
        && e == if w.Confirmed? && !projected then CommitUnconfirmed else EndOf(c, w)
      ensures !e.Rejected? ==> id in sessions && Latched(sessions[id].status)
    {
      if id == "" { return Rejected(MissingId); }
      var rec := Session("", CancelRequested, [], []);
      if id in sessions {
        rec := sessions[id];
        if rec.status != SessionCanceled { rec := rec.(status := CancelRequested); }
      }
      e := Commit(id, Changed(rec), w);
      if e.Done? && !projected { return CommitUnconfirmed; }
    }

    /** updateSessionLifecycle. */
    method UpdateSessionLifecycle(id: string, acpId: string, status: SessionStatus, turn: Option<string>,
                                  terminal: bool, w: Write)
      returns (e: StoreEnd)
      modifies this
      ensures id == "" ==> sessions == old(sessions) && e == Rejected(MissingId)
      ensures id != "" ==> var c := Apply(Lifecycle(acpId, status, turn, terminal), Lookup(old(sessions), id));
        sessions == Committed(old(sessions), id, c, w) && e == EndOf(c, w)
    {
      if id == "" { return Rejected(MissingId); }
      var rec := Session(acpId, status, [], []);
      if id in sessions {
        var existing := sessions[id];
        if Latched(existing.status) && !terminal { return Rejected(CancelIsRequested); }
        if acpId == "" { rec := rec.(acpId := existing.acpId); }
        rec := rec.(turns := existing.turns, queue := existing.queue);
        rec := rec.(status := PreserveLatch(existing.status, status));
      }
      if turn.Some? { rec := rec.(turns := rec.turns + [turn.value]); }
      assert turn.None? ==> rec.turns + [] == rec.turns;
      assert turn.Some? ==> [] + [turn.value] == [turn.value];
      e := Commit(id, Changed(rec), w);
    }

    method SetACPSessionID(id: string, acpId: string, w: Write) returns (e: StoreEnd)
      modifies this
      ensures var c := Apply(SetAcpId(acpId), Lookup(old(sessions), id));
        sessions == Committed(old(sessions), id, c, w) && e == EndOf(c, w)
    {
      if acpId == "" { return Done; }
      if id !in sessions { return Rejected(NoSession); }
      if sessions[id].acpId != "" { return Done; }
      e := Commit(id, Changed(sessions[id].(acpId := acpId)), w);
    }

    /** countPendingQueue, or watchQueueWork when running prompts are counted too. */
    method CountQueue(id: string, withRunning: bool) returns (n: nat)
      ensures id !in sessions ==> n == 0
      ensures id in sessions ==>
        n == CountOf(sessions[id].queue, Pending) + if withRunning then CountOf(sessions[id].queue, Running) else 0
    {
      if id !in sessions { return 0; }
      var q := sessions[id].queue;
      n := 0;
      for i := 0 to |q|
        invariant n == CountOf(q[..i], Pending) + if withRunning then CountOf(q[..i], Running) else 0
      {
        CountOfTake(q, i, Pending);
        CountOfTake(q, i, Running);
        if q[i].status.Pending? || (withRunning && q[i].status.Running?) { n := n + 1; }
      }
      assert q[..|q|] == q;
    }
  }
}
