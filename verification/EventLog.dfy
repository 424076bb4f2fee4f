/** The session event log and its two-file commit with the sessions file. */
module EventLog {
  import opened Prelude
  import opened Lines

  datatype Part = Absent | Malformed | Present

  /** What message validation looks at. */
  datatype Message = Unparsable | Message(version2: bool, id: Part, hasMethod: bool, hasResult: bool, error: Part)

  predicate ValidMessage(m: Message) {
    if m.Unparsable? || !m.version2 || (m.hasResult && !m.error.Absent?) then false
    else if m.hasMethod then !m.hasResult && m.error.Absent? && !m.id.Malformed?
    else if !m.id.Present? then false
    else if !m.error.Absent? then m.error.Present?
    else m.hasResult
  }

  datatype Kind = Request | Notification | ResultReply | ErrorReply

  /** The four message shapes of JSON-RPC 2.0, sections 4 and 5. */
  function Shape(k: Kind): Message {
    match k
    case Request => Message(true, Present, true, false, Absent)
    case Notification => Message(true, Absent, true, false, Absent)
    case ResultReply => Message(true, Present, false, true, Absent)
    case ErrorReply => Message(true, Present, false, false, Present)
  }

  /** Validation accepts these four shapes and nothing else. */
  lemma ValidMessagesAreTheFourShapes(m: Message)
    ensures ValidMessage(m) <==> exists k: Kind :: m == Shape(k)
  {
    if ValidMessage(m) {
      var k := if m.hasMethod then (if m.id.Present? then Request else Notification)
               else if m.hasResult then ResultReply else ErrorReply;
      assert m == Shape(k);
    }
  }

  datatype Event = Event(seqNo: int, at: Option<nat>, direction: string, message: Message)

  /** The JSON encoding of an event: a line is not blank, holds no newline and decodes to its event; a
      value followed by another line is not one value. */
  datatype Codec = Codec(encode: Event -> seq<Byte>, decode: seq<Byte> -> Option<Event>) {
    ghost predicate Faithful() {
      && (forall e: Event :: NEWLINE !in encode(e) && !BlankLine(encode(e)) && decode(encode(e)) == Some(e))
      && (forall line, e: Event :: decode(line).Some? && !BlankLine(line) ==> decode(line + encode(e)) == None)
      && (forall line, e: Event :: BlankLine(line) ==> decode(line + encode(e)) == Some(e))
    }

    function Log(es: seq<Event>): seq<Byte> {
      if es == [] then [] else encode(es[0]) + [NEWLINE] + Log(es[1..])
    }

    /** readEventLog: blank lines are skipped, and the last line needs no newline. */
    function Parse(data: seq<Byte>): Option<seq<Event>>
      decreases |data|
    {
      if data == [] then Some([])
      else
        var k := FirstNewline(data);
        var rest := Parse(if k < |data| then data[k + 1..] else []);
        if BlankLine(data[..k]) then rest
        else
          var e := decode(data[..k]);
          if e.None? || !ValidMessage(e.value.message) then None else Joined(Some([e.value]), rest)
    }
  }

  function Joined(a: Option<seq<Event>>, b: Option<seq<Event>>): Option<seq<Event>> {
    if a.None? || b.None? then None else Some(a.value + b.value)
  }

  /** The bytes with the newline that the last line may lack. */
  function Terminated(data: seq<Byte>): seq<Byte> {
    if data == [] || data[|data| - 1] == NEWLINE then data else data + [NEWLINE]
  }

  predicate Encodable(es: seq<Event>) { forall e <- es :: ValidMessage(e.message) }

  /** An event as it is stored: numbered, the time and the direction filled in. */
  function Stamped(e: Event, seqNo: int, now: nat): Event {
    Event(seqNo, if e.at.None? then Some(now) else e.at, if e.direction == "" then "inbound" else e.direction,
        e.message)
  }

  function Numbered(es: seq<Event>, next: int, now: nat): seq<Event> {
    if es == [] then []
    else
      [Stamped(es[0], next, now)] + Numbered(es[1..], next + 1, now)
  }

  /** What is stored of an event: its message, its direction or "inbound" if it names none, its time or the present
      one if it has none, under the given number. */
  predicate StoredAs(given: Event, stored: Event, seqNo: int, now: nat) {
    && stored.seqNo == seqNo && stored.message == given.message
    && (given.direction != "" ==> stored.direction == given.direction)
    && (given.direction == "" ==> stored.direction == "inbound")
    && (given.at.Some? ==> stored.at == given.at)
    && (given.at.None? ==> stored.at == Some(now))
  }

  /** The log is the old one and the given events, each stored under the next number. */
  predicate Extends(prior: seq<Event>, given: seq<Event>, now: nat, log: seq<Event>) {
    && |log| == |prior| + |given| && log[..|prior|] == prior
    && (forall i | 0 <= i < |given| ::
          StoredAs(given[i], log[|prior| + i], (if prior == [] then 1 else prior[|prior| - 1].seqNo + 1) + i, now))
  }

  predicate Sequential(es: seq<Event>) { forall i | 0 <= i < |es| :: es[i].seqNo == i + 1 }

  function NextSeq(es: seq<Event>): int { if es == [] then 1 else es[|es| - 1].seqNo + 1 }

  lemma {:induction false} NumberedFacts(es: seq<Event>, next: int, now: nat)
    ensures |Numbered(es, next, now)| == |es|
    ensures forall i | 0 <= i < |es| :: var e := Numbered(es, next, now)[i];
      StoredAs(es[i], e, next + i, now)
  {
    if es != [] { NumberedFacts(es[1..], next + 1, now); }
  }

  lemma {:induction false} NumberedAppend(es: seq<Event>, e: Event, next: int, now: nat)
    ensures Numbered(es + [e], next, now) == Numbered(es, next, now) + Numbered([e], next + |es|, now)
  {
    hide Stamped;
    if es == [] {
      assert es + [e] == [e];
    } else {
      assert (es + [e])[1..] == es[1..] + [e];
      NumberedAppend(es[1..], e, next + 1, now);
    }
  }

  lemma NumberedExtends(prior: seq<Event>, es: seq<Event>, now: nat)
    ensures Extends(prior, es, now, prior + Numbered(es, NextSeq(prior), now))
  {
    NumberedFacts(es, NextSeq(prior), now);
  }

  lemma SequentialAppend(prior: seq<Event>, es: seq<Event>, now: nat)
    requires Sequential(prior)
    ensures Sequential(prior + Numbered(es, NextSeq(prior), now))
  {
    NumberedFacts(es, NextSeq(prior), now);
  }

  lemma {:induction false} LogAppend(c: Codec, a: seq<Event>, b: seq<Event>)
    ensures c.Log(a + b) == c.Log(a) + c.Log(b)
  {
    if a == [] {
      assert a + b == b;
    } else {
      assert (a + b)[1..] == a[1..] + b;
      LogAppend(c, a[1..], b);
    }
  }

  lemma JoinedAgain(a: Option<seq<Event>>, b: Option<seq<Event>>, c: Option<seq<Event>>)
    ensures Joined(a, Joined(b, c)) == Joined(Joined(a, b), c)
    ensures Joined(Some([]), a) == a == Joined(a, Some([]))
  {
    if a.Some? { assert [] + a.value == a.value == a.value + []; }
    if a.Some? && b.Some? && c.Some? { assert a.value + (b.value + c.value) == a.value + b.value + c.value; }
  }

  /** What one line, given without its newline, contributes to a parse. */
  function ParseLine(c: Codec, line: seq<Byte>): Option<seq<Event>> {
    if BlankLine(line) then Some([])
    else if c.decode(line).None? || !ValidMessage(c.decode(line).value.message) then None
    else Some([c.decode(line).value])
  }

  lemma ParseStep(c: Codec, line: seq<Byte>, rest: seq<Byte>)
    requires NEWLINE !in line
    ensures c.Parse(line + [NEWLINE] + rest) == Joined(ParseLine(c, line), c.Parse(rest))
    ensures c.Parse(line) == ParseLine(c, line)
  {
    hide BlankLine, ValidMessage;
    var data := line + [NEWLINE] + rest;
    assert data[..|line|] == line && data[|line| + 1..] == rest && data[|line|] == NEWLINE;
    FirstNewlineIs(data, |line|);
    JoinedAgain(c.Parse(rest), None, None);
    JoinedAgain(ParseLine(c, line), None, None);
    if line == [] {
      assert BlankLine(line) by { EmptyIsBlank(); }
    } else {
      NoNewline(line);
      assert line[..|line|] == line;
    }
  }

  lemma EmptyIsBlank()
    ensures BlankLine([])
  {}

  /** Appending whole lines after the missing newline was added joins the two parses. */
  lemma {:induction false} ParseTerminated(c: Codec, data: seq<Byte>, more: seq<Byte>)
    ensures c.Parse(Terminated(data) + more) == Joined(c.Parse(data), c.Parse(more))
    decreases |data|
  {
    hide Codec.Parse, ParseLine, BlankLine;
    var k := FirstNewline(data);
    if data == [] {
      ParseStep(c, [], []);
      assert Terminated(data) + more == more;
      EmptyIsBlank();
      JoinedAgain(c.Parse(more), None, None);
      ParseEmpty(c);
    } else if k == |data| {
      assert data[..k] == data && NEWLINE !in data;
      assert data[|data| - 1] in data;
      ParseStep(c, data, more);
    } else {
      var line, rest := data[..k], data[k + 1..];
      TerminatedSplit(data, more, k);
      ParseStep(c, line, rest);
      ParseStep(c, line, Terminated(rest) + more);
      ParseTerminated(c, rest, more);
      JoinedAgain(ParseLine(c, line), c.Parse(rest), c.Parse(more));
    }
  }

  lemma TerminatedSplit(data: seq<Byte>, more: seq<Byte>, k: nat)
    requires k < |data| && data[k] == NEWLINE
    ensures data == data[..k] + [NEWLINE] + data[k + 1..]
    ensures Terminated(data) + more == data[..k] + [NEWLINE] + (Terminated(data[k + 1..]) + more)
  {
    var rest := data[k + 1..];
    assert data == data[..k] + [NEWLINE] + rest;
    if rest != [] { assert rest[|rest| - 1] == data[|data| - 1]; }
    assert Terminated(data) == data[..k] + [NEWLINE] + Terminated(rest);
  }

  lemma ParseEmpty(c: Codec)
    ensures c.Parse([]) == Some([])
  {}

  /** Reading back an encoded log gives the events that were encoded. */
  lemma {:induction false} ParseLog(c: Codec, es: seq<Event>)
    requires c.Faithful() && Encodable(es)
    ensures c.Parse(c.Log(es)) == Some(es)
  {
    if es == [] {
      ParseEmpty(c);
    } else {
      ParseLog(c, es[1..]);
      ParseStep(c, c.encode(es[0]), c.Log(es[1..]));
      assert es == [es[0]] + es[1..];
    }
  }

  /** The tail after the last newline: the part of the file that a plain append runs into. */
  function Tail(data: seq<Byte>): seq<Byte> { data[Whole(data)..] }

  lemma Regroup(a: seq<Byte>, b: seq<Byte>, c: seq<Byte>)
    ensures a + (b + c) == a + b + c
  {}

  /** A log reads as its whole lines, then its tail with what follows it. */
  lemma TailParses(c: Codec, data: seq<Byte>, more: seq<Byte>)
    ensures c.Parse(data + more) == Joined(c.Parse(data[..Whole(data)]), c.Parse(Tail(data) + more))
  {
    hide Codec.Parse;
    var head, tail := data[..Whole(data)], Tail(data);
    assert data == head + tail && Terminated(head) == head;
    Regroup(head, tail, more);
    ParseTerminated(c, head, tail + more);
  }

  /** How the old log and a plain append to it parse: up to the last newline, then line by line. */
  lemma PlainAppendParses(c: Codec, data: seq<Byte>, es: seq<Event>)
    requires c.Faithful() && es != [] && Encodable(es)
    ensures var head, tail := data[..Whole(data)], Tail(data);
      && c.Parse(data) == Joined(c.Parse(head), ParseLine(c, tail))
      && c.Parse(data + c.Log(es)) ==
         Joined(c.Parse(head), Joined(ParseLine(c, tail + c.encode(es[0])), Some(es[1..])))
  {
    hide Codec.Parse, BlankLine, ValidMessage, ParseLine;
    var head, tail := data[..Whole(data)], Tail(data);
    var first, others := c.encode(es[0]), es[1..];
    assert data == head + tail && Terminated(head) == head;
    ParseTerminated(c, head, tail);
    ParseStep(c, tail, []);
    assert c.Log(es) == first + [NEWLINE] + c.Log(others);
    hide Whole;
    TailParses(c, data, first + [NEWLINE] + c.Log(others));
    Regroup(tail, first + [NEWLINE], c.Log(others));
    Regroup(tail, first, [NEWLINE]);
    ParseStep(c, tail + first, c.Log(others));
    ParseLog(c, others);
  }

  /** A plain append, which adds no missing newline, reads back if and only if the old log's tail is blank. */
  lemma PlainAppendReadsBackIff(c: Codec, data: seq<Byte>, es: seq<Event>)
    requires c.Faithful() && c.Parse(data).Some? && es != [] && Encodable(es)
    ensures c.Parse(data + c.Log(es)) == Some(c.Parse(data).value + es) <==> BlankLine(Tail(data))
  {
    PlainAppendParses(c, data, es);
    hide Codec.Parse, BlankLine, ValidMessage, Whole;
    var head, tail := c.Parse(data[..Whole(data)]), Tail(data);
    TailAndLine(c, tail, es[0]);
    if BlankLine(tail) {
      assert ParseLine(c, tail) == Some([]) && head.value + [] == head.value;
      assert [es[0]] + es[1..] == es;
    }
  }

  lemma TailAndLine(c: Codec, tail: seq<Byte>, e: Event)
    requires c.Faithful() && ParseLine(c, tail).Some? && ValidMessage(e.message)
    ensures BlankLine(tail) ==> ParseLine(c, tail + c.encode(e)) == Some([e])
    ensures !BlankLine(tail) ==> ParseLine(c, tail + c.encode(e)) == None
  {
    var line := tail + c.encode(e);
    assert !BlankLine(line) by {
      var i :| 0 <= i < |c.encode(e)| && c.encode(e)[i] !in {9, 10, 11, 12, 13, 32};
      assert line[|tail| + i] == c.encode(e)[i];
    }
  }

  /** It happens: a log of one event without its newline parses, and no longer does after a plain append. */
  lemma UnterminatedLogBreaks(c: Codec, e: Event, f: Event)
    requires c.Faithful() && ValidMessage(e.message) && ValidMessage(f.message)
    ensures var data := c.encode(e);
      && data != [] && data[|data| - 1] != NEWLINE
      && c.Parse(data) == Some([e]) && c.Parse(data + c.Log([f])) == None
  {
    EmptyIsBlank();
    hide BlankLine, ValidMessage, Codec.Parse;
    var data := c.encode(e);
    assert NEWLINE !in data && data[|data| - 1] in data;
    assert [] + data == data;
    WholeIs([], data);
    assert data[0..] == data && Tail(data) == data && data[..0] == [];
    ParseStep(c, data, []);
    PlainAppendParses(c, data, [f]);
    TailAndLine(c, data, f);
  }

  lemma EncodeNone(c: Codec, next: int, now: nat)
    ensures c.Log(Numbered([], next, now)) == []
  {}

  lemma EncodeOne(c: Codec, es: seq<Event>, i: nat, next: int, now: nat)
    requires i < |es|
    ensures c.Log(Numbered(es[..i + 1], next, now)) == c.Log(Numbered(es[..i], next, now))
        + c.encode(Stamped(es[i], next + i, now)) + [NEWLINE]
    ensures Encodable(es[..i + 1]) <==> Encodable(es[..i]) && ValidMessage(es[i].message)
  {
    hide Stamped, ValidMessage;
    assert es[..i + 1] == es[..i] + [es[i]];
    NumberedAppend(es[..i], es[i], next, now);
    var added := Numbered([es[i]], next + i, now);
    assert added == [Stamped(es[i], next + i, now)];
    LogAppend(c, Numbered(es[..i], next, now), added);
    assert c.Log(added) == c.encode(added[0]) + [NEWLINE] + c.Log([]);
  }

  /** encodeEventLog. */
  method EncodeEventLog(c: Codec, es: seq<Event>, nextSeq: int, now: nat) returns (data: Option<seq<Byte>>)
    ensures data == if Encodable(es) then Some(c.Log(Numbered(es, nextSeq, now))) else None
    ensures data.Some? && c.Faithful() ==>
      var stored := c.Parse(data.value);
      stored.Some? && |stored.value| == |es|
      && forall i | 0 <= i < |es| :: StoredAs(es[i], stored.value[i], nextSeq + i, now)
  {
    NumberedFacts(es, nextSeq, now);
    if c.Faithful() && Encodable(es) { ParseLog(c, Numbered(es, nextSeq, now)); }
    hide ValidMessage, Numbered, Codec.Log;
    EncodeNone(c, nextSeq, now);
    var bytes: seq<Byte>, next := [], nextSeq;
    for i := 0 to |es|
      invariant next == nextSeq + i && Encodable(es[..i])
      invariant bytes == c.Log(Numbered(es[..i], nextSeq, now))
    {
      if !ValidMessage(es[i].message) { return None; }
      var e := es[i].(seqNo := next);
      next := next + 1;
      if e.at.None? { e := e.(at := Some(now)); }
      if e.direction == "" { e := e.(direction := "inbound"); }
      bytes := bytes + c.encode(e) + [NEWLINE];
      EncodeOne(c, es, i, nextSeq, now);
    }
    assert es[..|es|] == es;
    return Some(bytes);
  }

  lemma CommittedLog(c: Codec, original: seq<Byte>, events: seq<Event>, now: nat)
    requires c.Faithful() && c.Parse(original).Some? && Encodable(events)
    ensures var prior := c.Parse(original).value;
      var added := Numbered(events, NextSeq(prior), now);
      && c.Parse(Terminated(original) + c.Log(added)) == Some(prior + added)
      && Extends(prior, events, now, prior + added)
      && (Sequential(prior) ==> Sequential(prior + added))
      && (events != [] ==> |Terminated(original) + c.Log(added)| > |original|)
  {
    var prior := c.Parse(original).value;
    var added := Numbered(events, NextSeq(prior), now);
    NumberedFacts(events, NextSeq(prior), now);
    NumberedExtends(prior, events, now);
    ParseLog(c, added);
    ParseTerminated(c, original, c.Log(added));
    if Sequential(prior) { SequentialAppend(prior, events, now); }
  }

  /** A transition that follows one whose process died numbers its events on from the ones that are already in the
      log. */
  lemma NumbersOnAfterDeath(prior: seq<Event>, lost: seq<Event>, now: nat, left: seq<Event>, events: seq<Event>,
                            later: nat, after: seq<Event>)
    requires Sequential(prior) && Extends(prior, lost, now, left) && Extends(left, events, later, after)
    ensures Sequential(after) && |after| == |prior| + |lost| + |events|
    ensures forall i | 0 <= i < |events| ::
              StoredAs(events[i], after[|prior| + |lost| + i], |prior| + |lost| + i + 1, later)
  {
    ExtendsSequential(prior, lost, now, left);
    ExtendsSequential(left, events, later, after);
    hide StoredAs;
  }

  lemma ExtendsSequential(prior: seq<Event>, es: seq<Event>, now: nat, log: seq<Event>)
    requires Sequential(prior) && Extends(prior, es, now, log)
    ensures Sequential(log)
  {
    forall i | 0 <= i < |log| ensures log[i].seqNo == i + 1 {
      if i < |prior| {
        assert log[i] == log[..|prior|][i];
      } else {
        assert StoredAs(es[i - |prior|], log[|prior| + (i - |prior|)], |prior| + 1 + (i - |prior|), now);
      }
    }
  }

  datatype Mutation<S> = Refused | Unchanged | Changed(sessions: S)

  /** Died: the process ended between the log write and the sessions write, and nobody gets an answer. */
  datatype CommitEnd = Done | CommitUnconfirmed | Failed | Died {
    predicate Committed() { Done? || CommitUnconfirmed? }
  }

  /** How the file operations of one commit end. The restore is used only when the sessions write is not applied. */
  datatype CommitIo = CommitIo(loads: bool, logReads: bool, log: Write, dies: bool, sessions: Write, restore: Write,
      afterCommit: bool) {
    /** The log is replaced, the sessions are not, and the log is not put back. */
    predicate Tears() { log.Applied() && (dies || (!sessions.Applied() && !restore.Applied())) }
  }

  /** A store seen by one session: the whole sessions file and the session's event log. */
  class EventStore<S(==)> {
    var sessions: S
    var log: Option<seq<Byte>>
    const codec: Codec

    constructor (codec: Codec, sessions: S)
      requires codec.Faithful()
      ensures Valid() && Events() == Some([]) && this.sessions == sessions && this.codec == codec
    {
      this.codec, this.sessions, this.log := codec, sessions, None;
    }

    ghost function Events(): Option<seq<Event>>
      reads this
    {
      if log.None? then Some([]) else codec.Parse(log.value)
    }

    /** The log reads back as events numbered 1 to n. */
    ghost predicate Valid()
      reads this
    {
      codec.Faithful() && Events().Some? && Sequential(Events().value)
    }

    /** There is no log yet, or it can be read back. */
    ghost predicate LogReads(io: CommitIo)
      reads this
    {
      log.None? || (io.logReads && Events().Some?)
    }

    /** eventLogSnapshot: the old bytes, and the number the next event gets; None if the log does not read. */
    method EventLogSnapshot(io: CommitIo) returns (next: Option<int>)
      ensures next.Some? <==> LogReads(io)
      ensures next.Some? ==> Events().Some? && next.value == NextSeq(Events().value)
    {
      if log.None? { return Some(1); }
      if !io.logReads { return None; }
      var es := codec.Parse(log.value);
      return if es.None? then None else Some(NextSeq(es.value));
    }

    /** The transition gets as far as writing the log. */
    ghost predicate WritesLog(change: Mutation<S>, events: seq<Event>, io: CommitIo)
      reads this
    {
      io.loads && change.Changed? && events != [] && Encodable(events) && LogReads(io)
    }

    /** transitionSession: both files hold the new state when it is done or unconfirmed. Otherwise the sessions are the
        old ones, and so is the log, unless it was replaced and neither the sessions write nor the restore took; then
        it holds the new events, and the next transition numbers on from them. */
    method TransitionSession(change: Mutation<S>, events: seq<Event>, now: nat, io: CommitIo) returns (e: CommitEnd)
      requires codec.Faithful()
      modifies this`sessions, this`log
      ensures old(Valid()) ==> Valid()
      ensures e.Committed() ==> !change.Refused? && (change.Changed? && events != [] ==> old(Events()).Some?)
      ensures change.Unchanged? ==> sessions == old(sessions) && log == old(log)
      ensures e.Committed() && change.Changed? ==> sessions == change.sessions
      ensures e.Committed() && change.Changed? && events == [] ==> log == old(log)
      ensures e.Committed() && change.Changed? && events != [] ==>
        Events().Some? && Extends(old(Events()).value, events, now, Events().value)
      ensures e.Committed() <==> (
        && io.loads && !change.Refused?
        && (change.Changed? ==> io.sessions.Applied())
        && (change.Changed? && events != [] ==> io.log.Applied() && !io.dies && Encodable(events) && old(LogReads(io))))
      ensures e.Done? <==> (
        && e.Committed()
        && (change.Changed? ==> io.sessions.Confirmed? && io.afterCommit && (events == [] || io.log.Confirmed?)))
      ensures e.Died? <==> old(WritesLog(change, events, io)) && io.log.Applied() && io.dies
      ensures !e.Committed() ==> sessions == old(sessions)
      ensures !e.Committed() ==> (log == old(log) <==> !(io.Tears() && old(WritesLog(change, events, io))))
      ensures !e.Committed() && log != old(log) ==>
        old(Events()).Some? && Events().Some? && Extends(old(Events()).value, events, now, Events().value)
    {
      hide Extends, StoredAs, ValidMessage, Numbered, Codec.Log, Codec.Parse;
      if !io.loads || change.Refused? { return Failed; }
      if change.Unchanged? { return Done; }
      if events == [] {
        if !io.sessions.Applied() { return Failed; }
        sessions := change.sessions;
        return if io.sessions.Confirmed? && io.afterCommit then Done else CommitUnconfirmed;
      }
      var next := EventLogSnapshot(io);
      if next.None? { return Failed; }
      var appended := EncodeEventLog(codec, events, next.value, now);
      if appended.None? { return Failed; }
      ParseEmpty(codec);
      var original := if log.None? then [] else log.value;
      CommittedLog(codec, original, events, now);
      var updated := original + appended.value;
      if |original| > 0 && original[|original| - 1] != NEWLINE { updated := original + [NEWLINE] + appended.value; }
      assert updated == Terminated(original) + appended.value;
      if !io.log.Applied() { return Failed; }
      var before := log;
      log := Some(updated);
      if io.dies { return Died; }
      if !io.sessions.Applied() {
        if io.restore.Applied() { log := before; }
        return Failed;
      }
      sessions := change.sessions;
      return if io.log.Confirmed? && io.sessions.Confirmed? && io.afterCommit then Done else CommitUnconfirmed;
    }

    /** The creation gets as far as replacing the log. */
    ghost predicate ReplacesLog(insert: Option<S>, events: seq<Event>, io: CommitIo)
      reads this
    {
      Encodable(events) && io.loads && insert.Some? && LogReads(io)
    }

    function NewLog(events: seq<Event>, now: nat): Option<seq<Byte>> {
      if events == [] then None else Some(codec.Log(Numbered(events, 1, now)))
    }

    lemma NewLogReads(events: seq<Event>, now: nat, bytes: seq<Byte>)
      requires codec.Faithful() && Encodable(events) && bytes == codec.Log(Numbered(events, 1, now))
      ensures codec.Parse(bytes).Some? && Sequential(codec.Parse(bytes).value)
      ensures Extends([], events, now, codec.Parse(bytes).value)
      ensures events == [] <==> bytes == []
    {
      ParseEmpty(codec);
      CommittedLog(codec, [], events, now);
      assert Terminated([]) + bytes == bytes && [] + Numbered(events, 1, now) == Numbered(events, 1, now);
      NumberedFacts(events, 1, now);
    }

    /** createSessionWithEvents: any log left under this id is replaced, or removed when there are no events. */
    method CreateSessionWithEvents(insert: Option<S>, events: seq<Event>, now: nat, io: CommitIo) returns (e: CommitEnd)
      requires codec.Faithful()
      modifies this`sessions, this`log
      ensures old(Valid()) ==> Valid()
      ensures e.Committed() ==> insert.Some? && sessions == insert.value
      ensures e.Committed()
          ==> log.Some? == (events != []) && Events().Some? && Extends([], events, now, Events().value)
      ensures e.Committed() <==>
        old(ReplacesLog(insert, events, io)) && io.log.Applied() && !io.dies && io.sessions.Applied()
      ensures e.Done? <==> e.Committed() && io.sessions.Confirmed? && io.log.Confirmed?
      ensures e.Died? <==> old(ReplacesLog(insert, events, io)) && io.log.Applied() && io.dies
      ensures !e.Committed() ==> sessions == old(sessions)
      ensures !e.Committed() ==> log == if old(ReplacesLog(insert, events, io)) && io.Tears()
                                        then NewLog(events, now) else old(log)
    {
      hide Extends, StoredAs, ValidMessage, Numbered, Codec.Log, Codec.Parse;
      ParseEmpty(codec);
      var encoded := EncodeEventLog(codec, events, 1, now);
      if encoded.None? || !io.loads || insert.None? { return Failed; }
      var next := EventLogSnapshot(io);
      if next.None? || !io.log.Applied() { return Failed; }
      NewLogReads(events, now, encoded.value);
      var before := log;
      log := if |encoded.value| == 0 then None else Some(encoded.value);
      if io.dies { return Died; }
      if !io.sessions.Applied() {
        if io.restore.Applied() { log := before; }
        return Failed;
      }
      sessions := insert.value;
      return if io.log.Confirmed? && io.sessions.Confirmed? then Done else CommitUnconfirmed;
    }
  }
}
