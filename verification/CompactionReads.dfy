/** A compaction that reads the history twice while other requests save messages: what the tables show after it,
    and what of the history survives. */
module CompactionReads {
  import opened Prelude
  import opened SessionTables
  import opened Lineage
  import opened Compaction
  import opened SessionDb

  // ---- Messages that arrive meanwhile ----

  datatype Arrival = Arrival(session: nat, role: string, content: string, toolName: string, toolCallId: string)

  function Arrived(db: Db, xs: seq<Arrival>): Db {
    if xs == [] then db
    else
      var x := xs[|xs| - 1];
      Saved(Arrived(db, xs[..|xs| - 1]), x.session, x.role, x.content, x.toolName, x.toolCallId)
  }

  /** Arrivals extend the history of a session, and leave it as it is exactly if none is for it. */
  lemma {:induction false} ArrivedOf(db: Db, xs: seq<Arrival>, s: nat)
    ensures var d := Arrived(db, xs);
      && d.sessions == db.sessions && d.compactions == db.compactions && d.raced == db.raced && d.nextId >= db.nextId
      && Of(db.messages, s) <= Of(d.messages, s)
      && (Of(d.messages, s) == Of(db.messages, s) <==> forall x <- xs :: x.session != s)
  {
    if xs != [] {
      var n := |xs| - 1;
      ArrivedOf(db, xs[..n], s);
      var d, m := Arrived(db, xs[..n]), Arrived(db, xs).messages[|Arrived(db, xs[..n]).messages|];
      OfAppend(d.messages, [m], s);
      OfOne([m], xs[n].session, s);
      hide Of;
      assert xs == xs[..n] + [xs[n]];
    }
  }

  // ---- The compaction ----

  function Plan(s: nat, h: seq<Message>, g: seq<Message>, p: nat): CompactionRecord {
    CompactionRecord(s, if |h| > p then |h| - (p + 1) else 0, p + 1, FirstKept(g, p), 0)
  }

  /** The tables after a compaction that read h first and g second. */
  function AfterCompaction(db: Db, s: nat, h: seq<Message>, g: seq<Message>, p: nat, summary: string): Db
    requires Known(db.sessions, s)
  {
    Compacted(db, s, RootColumn(db.sessions[Find(db.sessions, s)]), g, Compress(Lines(h), p, summary),
              ReplacementIds(g, p, p + 1), Plan(s, h, g, p), h != Of(db.messages, s))
  }

  /** Messages only arrived since the two reads, there is something to compress, and a session that is an archive still
      gave back at the first read what was removed for it. */
  ghost predicate Reads(db: Db, s: nat, h: seq<Message>, g: seq<Message>, p: nat) {
    Good(db) && Known(db.sessions, s) && h <= g <= Of(db.messages, s) && 0 < p && p + 2 <= |h| && Held(db, s, h)
  }

  /** The summary stands before the last p lines of the first read, the ids of these lines are the last ones of the
      second read, and the archive holds the second read. */
  ghost predicate Shows(h: seq<Message>, g: seq<Message>, p: nat, summary: string, ms: seq<Message>, s: nat,
                        archive: nat) {
    && p <= |h| && p <= |g|
    && Lines(Of(ms, s)) == [Line(SYSTEM, SUMMARY_HEAD + summary)] + Lines(h)[|h| - p..]
    && Ids(Of(ms, s))[1..] == Ids(g)[|g| - p..]
    && Lines(Of(ms, archive)) == Lines(g)
  }

  /** The i-th message of the history is at its place in the archive, or still in the history. */
  predicate Survives(ms: seq<Message>, s: nat, archive: nat, i: nat, m: Message) {
    || (i < |Of(ms, archive)| && LineOf(Of(ms, archive)[i]) == LineOf(m))
    || (exists x <- Of(ms, s) :: x.id == m.id && LineOf(x) == LineOf(m))
  }

  lemma PlanCompacts(s: nat, h: seq<Message>, g: seq<Message>, p: nat, summary: string)
    requires h <= g && 0 < p && p + 2 <= |h|
    ensures Compacts(h, g, p, summary, Compress(Lines(h), p, summary), ReplacementIds(g, p, p + 1), Plan(s, h, g, p))
  {}

  lemma CompactionKeepsGood(db: Db, s: nat, h: seq<Message>, g: seq<Message>, p: nat, summary: string)
    requires Reads(db, s, h, g, p)
    ensures Good(AfterCompaction(db, s, h, g, p, summary))
  {
    PlanCompacts(s, h, g, p, summary);
    hide Good, Of, Find, Compacts, RootColumn, Compress, ReplacementIds, Compacted;
    CompactedKeepsGood(db, s, h, g, p, summary, Compress(Lines(h), p, summary), ReplacementIds(g, p, p + 1),
                       Plan(s, h, g, p), h != Of(db.messages, s));
  }

  /** The rows that stand for the session and for its archive after a compaction. */
  lemma CompactionRows(db: Db, s: nat, h: seq<Message>, g: seq<Message>, p: nat, summary: string)
    requires Reads(db, s, h, g, p)
    ensures var ms := AfterCompaction(db, s, h, g, p, summary).messages;
      && Compressed(h, g, p, summary, s, db.nextId + 1 + |g|, Of(ms, s))
      && Of(ms, db.nextId) == Copies(g, db.nextId, db.nextId + 1)
  {
    hide Good, Of, Copies, NewRows, Compressed, Compacts, AfterCompaction, Known, Compress, ReplacementIds, Lines,
        Plan, Without;
    var first := db.nextId + 1 + |g|;
    var r := NewRows(Compress(Lines(h), p, summary), ReplacementIds(g, p, p + 1), s, first);
    CompactionMessages(db, s, h, g, p, summary);
    FreshHasNothing(db);
    SessionIsBelow(db, s);
    PlanCompacts(s, h, g, p, summary);
    CompactsRows(h, g, p, summary, Compress(Lines(h), p, summary), ReplacementIds(g, p, p + 1), Plan(s, h, g, p), s,
        first);
    RowsStand(db.messages, s, db.nextId, h, g, p, summary, first, r);
  }

  lemma SessionIsBelow(db: Db, s: nat)
    requires Good(db) && Known(db.sessions, s)
    ensures s < db.nextId
  {
    KnownIsBelow(db, s);
  }

  lemma CompactionMessages(db: Db, s: nat, h: seq<Message>, g: seq<Message>, p: nat, summary: string)
    requires Known(db.sessions, s)
    ensures AfterCompaction(db, s, h, g, p, summary).messages ==
      Without(db.messages + Copies(g, db.nextId, db.nextId + 1), s)
      + NewRows(Compress(Lines(h), p, summary), ReplacementIds(g, p, p + 1), s, db.nextId + 1 + |g|)
  {
    hide Compacted, Find, Of;
    CompactedMessages(db, s, RootColumn(db.sessions[Find(db.sessions, s)]), g, Compress(Lines(h), p, summary),
                      ReplacementIds(g, p, p + 1), Plan(s, h, g, p), h != Of(db.messages, s));
  }

  lemma CompactedMessages(db: Db, s: nat, root: nat, g: seq<Message>, lines: seq<Line>, ids: seq<Option<nat>>,
                          rec: CompactionRecord, late: bool)
    ensures Compacted(db, s, root, g, lines, ids, rec, late).messages ==
      Without(db.messages + Copies(g, db.nextId, db.nextId + 1), s) + NewRows(lines, ids, s, db.nextId + 1 + |g|)
  {}

  lemma RowsStand(ms: seq<Message>, s: nat, a: nat, h: seq<Message>, g: seq<Message>, p: nat, summary: string,
                  first: nat, r: seq<Message>)
    requires Of(ms, a) == [] && s != a && Compressed(h, g, p, summary, s, first, r)
    ensures Of(Without(ms + Copies(g, a, a + 1), s) + r, s) == r
    ensures Of(Without(ms + Copies(g, a, a + 1), s) + r, a) == Copies(g, a, a + 1)
  {
    OfElsewhere(h, g, p, summary, s, first, r, s);
    OfElsewhere(h, g, p, summary, s, first, r, a);
    CopiesFacts(g, a, a + 1);
    OfAppend(ms, Copies(g, a, a + 1), a);
    hide Of, Copies, Compressed, Without, Lines;
    assert [] + Copies(g, a, a + 1) == Copies(g, a, a + 1);
    RowsShow(ms + Copies(g, a, a + 1), s, r);
    RowsShowElsewhere(ms + Copies(g, a, a + 1), s, r, a);
  }

  lemma CompactionShows(db: Db, s: nat, h: seq<Message>, g: seq<Message>, p: nat, summary: string)
    requires Reads(db, s, h, g, p)
    ensures Shows(h, g, p, summary, AfterCompaction(db, s, h, g, p, summary).messages, s, db.nextId)
  {
    hide Of, Good, AfterCompaction, Known, Copies, Lines, Ids, Compressed;
    CompactionRows(db, s, h, g, p, summary);
    ShownRows(h, g, p, summary, s, db.nextId + 1 + |g|, Of(AfterCompaction(db, s, h, g, p, summary).messages, s));
    KeptIds(h, g, p, summary, s, db.nextId + 1 + |g|, Of(AfterCompaction(db, s, h, g, p, summary).messages, s));
    CopiesFacts(g, db.nextId, db.nextId + 1);
  }

  /** The record tells how many messages went and stayed, the first kept message as the history now shows it, and the
      archive, which is a session of its own under the compacted one and holds the second read, tool columns and all. */
  ghost predicate Kept(db: Db, t: Db, s: nat, h: seq<Message>, g: seq<Message>, p: nat) {
    && |t.compactions| == |db.compactions| + 1 && db.compactions <= t.compactions
    && |t.sessions| == |db.sessions| + 1 && db.sessions <= t.sessions
    && CopiesOf(g, Of(t.messages, db.nextId))
    && |Of(t.messages, s)| == p + 1 && p < |h|
    && (forall m <- Of(t.messages, s) :: m.toolName == "" && m.toolCallId == "")
    && (forall u: nat | u != s && u != db.nextId :: Of(t.messages, u) == Of(db.messages, u))
    && var rec, archive := t.compactions[|db.compactions|], t.sessions[|db.sessions|];
       && rec.session == s && rec.removed == |h| - (p + 1) && rec.kept == p + 1 && rec.archive == db.nextId
       && (p > 0 ==> rec.firstKept == Some(Of(t.messages, s)[1].id))
       && archive.id == db.nextId && archive.parent == Some(s) && archive.forkedFrom.None?
  }

  lemma CompactionKept(db: Db, s: nat, h: seq<Message>, g: seq<Message>, p: nat, summary: string)
    requires Reads(db, s, h, g, p)
    ensures Kept(db, AfterCompaction(db, s, h, g, p, summary), s, h, g, p)
  {
    hide Of, Good, Known, Copies, Lines, Compressed, AfterCompaction;
    var t := AfterCompaction(db, s, h, g, p, summary);
    CompactionRows(db, s, h, g, p, summary);
    CopiesAreCopies(g, db.nextId);
    FirstKeptRow(h, g, p, summary, s, db.nextId + 1 + |g|, Of(t.messages, s));
    RecordIs(db, s, h, g, p, summary);
    forall u: nat | u != s && u != db.nextId ensures Of(t.messages, u) == Of(db.messages, u) {
      CompactionElsewhere(db, s, h, g, p, summary, u);
    }
  }

  lemma FirstKeptRow(h: seq<Message>, g: seq<Message>, p: nat, summary: string, s: nat, first: nat, r: seq<Message>)
    requires Compressed(h, g, p, summary, s, first, r)
    ensures forall m <- r :: m.toolName == "" && m.toolCallId == ""
    ensures |r| == p + 1 && 0 < p < |h| && r[1].id == g[|g| - p].id && FirstKept(g, p) == Some(g[|g| - p].id)
  {
    hide Of, Lines;
  }

  lemma RecordIs(db: Db, s: nat, h: seq<Message>, g: seq<Message>, p: nat, summary: string)
    requires Known(db.sessions, s)
    ensures var t := AfterCompaction(db, s, h, g, p, summary);
      && t.compactions == db.compactions + [Plan(s, h, g, p).(archive := db.nextId)]
      && |t.sessions| == |db.sessions| + 1 && db.sessions <= t.sessions
      && var x := t.sessions[|db.sessions|]; x.id == db.nextId && x.parent == Some(s) && x.forkedFrom.None?
  {
    hide Of, Copies, NewRows, Without, Find, RootColumn, Compress, ReplacementIds, Lines, Plan;
  }

  lemma CompactionElsewhere(db: Db, s: nat, h: seq<Message>, g: seq<Message>, p: nat, summary: string, u: nat)
    requires Reads(db, s, h, g, p) && u != s && u != db.nextId
    ensures Of(AfterCompaction(db, s, h, g, p, summary).messages, u) == Of(db.messages, u)
  {
    hide Of, Good, Known, Copies, Lines, Compressed, AfterCompaction, NewRows, Without, Compress, ReplacementIds, Plan,
        Compacts;
    var first := db.nextId + 1 + |g|;
    var r := NewRows(Compress(Lines(h), p, summary), ReplacementIds(g, p, p + 1), s, first);
    CompactionMessages(db, s, h, g, p, summary);
    PlanCompacts(s, h, g, p, summary);
    CompactsRows(h, g, p, summary, Compress(Lines(h), p, summary), ReplacementIds(g, p, p + 1), Plan(s, h, g, p), s,
                 first);
    OfElsewhere(h, g, p, summary, s, first, r, u);
    RowsShowElsewhere(db.messages + Copies(g, db.nextId, db.nextId + 1), s, r, u);
    CopiesElsewhere(db.messages, g, db.nextId, u);
  }

  lemma ShownRows(h: seq<Message>, g: seq<Message>, p: nat, summary: string, s: nat, first: nat, r: seq<Message>)
    requires Compressed(h, g, p, summary, s, first, r)
    ensures p <= |h| && p <= |g| && |h| == |Lines(h)| && |g| == |Ids(g)| && |r| == |Ids(r)| == p + 1
    ensures Lines(r) == [Line(SYSTEM, SUMMARY_HEAD + summary)] + Lines(h)[|h| - p..]
  {}

  lemma KeptIds(h: seq<Message>, g: seq<Message>, p: nat, summary: string, s: nat, first: nat, r: seq<Message>)
    requires Compressed(h, g, p, summary, s, first, r)
    ensures Ids(r)[1..] == Ids(g)[|g| - p..] && Lines(r)[1..] == Lines(h)[|h| - p..]
  {
    hide Of;
  }

  // ---- What messages that arrive meanwhile do ----

  /** Every message of the session is in the archive or the history if and only if none was saved after the second
      read. */
  lemma EverythingSurvivesIff(db: Db, s: nat, h: seq<Message>, g: seq<Message>, p: nat, summary: string)
    requires Reads(db, s, h, g, p)
    ensures var ms, now := AfterCompaction(db, s, h, g, p, summary).messages, Of(db.messages, s);
      (forall i | 0 <= i < |now| :: Survives(ms, s, db.nextId, i, now[i])) <==> now == g
  {
    var ms, now := AfterCompaction(db, s, h, g, p, summary).messages, Of(db.messages, s);
    CompactionRows(db, s, h, g, p, summary);
    if now != g {
      LateOnesVanish(db, s, h, g, p, summary);
    } else {
      hide Of, Good, AfterCompaction;
      forall i | 0 <= i < |now| ensures Survives(ms, s, db.nextId, i, now[i]) {
        assert LineOf(Of(ms, db.nextId)[i]) == LineOf(now[i]);
      }
    }
  }

  lemma LateOnesVanish(db: Db, s: nat, h: seq<Message>, g: seq<Message>, p: nat, summary: string)
    requires Reads(db, s, h, g, p) && g != Of(db.messages, s)
    ensures var ms, now := AfterCompaction(db, s, h, g, p, summary).messages, Of(db.messages, s);
      |g| < |now| && !Survives(ms, s, db.nextId, |g|, now[|g|])
  {
    var ms, now := AfterCompaction(db, s, h, g, p, summary).messages, Of(db.messages, s);
    CompactionRows(db, s, h, g, p, summary);
    OfUnique(db.messages, s);
    OfMembers(db.messages, s);
    hide Of, Good, AfterCompaction;
    LateIsGone(now, h, g, p, summary, s, db.nextId + 1 + |g|, Of(ms, s));
  }

  lemma LateIsGone(now: seq<Message>, h: seq<Message>, g: seq<Message>, p: nat, summary: string, s: nat, first: nat,
                   r: seq<Message>)
    requires UniqueIds(now) && (forall m <- now :: m.id < first) && g < now && Compressed(h, g, p, summary, s, first, r)
    ensures forall x <- r :: x.id != now[|g|].id
  {
    forall x | x in r ensures x.id != now[|g|].id {
      var i :| 0 <= i < |r| && r[i] == x;
      assert now[|g|] in now;
      if i > 0 { assert g[|g| - p + i - 1] == now[|g| - p + i - 1]; }
    }
  }

  /** The kept lines keep their ids if and only if no message was saved between the two reads. */
  lemma KeptIdsIff(db: Db, s: nat, h: seq<Message>, g: seq<Message>, p: nat, summary: string)
    requires Reads(db, s, h, g, p)
    ensures var r := Of(AfterCompaction(db, s, h, g, p, summary).messages, s);
      && |r| == p + 1 && Lines(r)[1..] == Lines(h)[|h| - p..]
      && (Ids(r)[1..] == Ids(h)[|h| - p..] <==> g == h)
  {
    hide Of, Good, AfterCompaction, Known, Lines, Ids, UniqueIds, Copies, Compressed;
    SecondReadUnique(db, s, g);
    RowsCount(h, g, p, summary, s, db.nextId + 1 + |g|, Of(AfterCompaction(db, s, h, g, p, summary).messages, s));
    var r := Of(AfterCompaction(db, s, h, g, p, summary).messages, s);
    CompactionRows(db, s, h, g, p, summary);
    KeptIds(h, g, p, summary, s, db.nextId + 1 + |g|, r);
    IdsShift(h, g, p);
  }

  lemma RowsCount(h: seq<Message>, g: seq<Message>, p: nat, summary: string, s: nat, first: nat, r: seq<Message>)
    ensures |Ids(r)| == |Lines(r)| == |r| && |Ids(g)| == |g| && |Ids(h)| == |Lines(h)| == |h|
    ensures Compressed(h, g, p, summary, s, first, r) ==> |r| == p + 1
  {}

  lemma SecondReadUnique(db: Db, s: nat, g: seq<Message>)
    requires Good(db) && g <= Of(db.messages, s)
    ensures UniqueIds(g)
  {
    OfUnique(db.messages, s);
  }

  lemma IdsShift(h: seq<Message>, g: seq<Message>, p: nat)
    requires UniqueIds(g) && h <= g && 0 < p <= |h|
    ensures Ids(g)[|g| - p..] == Ids(h)[|h| - p..] <==> g == h
  {
    assert Ids(g)[|g| - p..][0] == g[|g| - p].id && Ids(h)[|h| - p..][0] == g[|h| - p].id;
  }

  /** The tables alone still give back everything ever saved if and only if no message was saved from the first
      read on. */
  lemma GivenBackIff(db: Db, s: nat, h: seq<Message>, g: seq<Message>, p: nat, summary: string)
    requires Reads(db, s, h, g, p) && GivenBack(db, s) == SavedIn(db.saved, s)
    ensures var b := AfterCompaction(db, s, h, g, p, summary);
      GivenBack(b, s) == SavedIn(b.saved, s) <==> Of(db.messages, s) == h
  {
    hide Good, Of, AfterCompaction, GivenBack, Known;
    TablesGiveBackEverythingIff(db, s);
    CompactionKeepsGood(db, s, h, g, p, summary);
    RacedAfter(db, s, h, g, p, summary);
    TablesGiveBackEverythingIff(AfterCompaction(db, s, h, g, p, summary), s);
  }

  // ---- Both kinds of harm happen ----

  const EMPTY := Db([], [], [], 0, map[], {})

  function Hello(s: nat): Arrival { Arrival(s, "user", "hello", "", "") }

  /** One session with three messages, and one more. */
  const ONE := WithSession(EMPTY, None, None, None, [])

  const THREE := Arrived(ONE, [Hello(0), Hello(0), Hello(0)])

  const FOUR := Arrived(THREE, [Hello(0)])

  lemma {:induction false} ArrivedGood(db: Db, xs: seq<Arrival>, s: nat)
    requires Good(db) && Known(db.sessions, s) && forall x <- xs :: x.session == s
    ensures var d := Arrived(db, xs);
      && Good(d) && d.sessions == db.sessions && |Of(d.messages, s)| == |Of(db.messages, s)| + |xs|
  {
    if xs != [] {
      var n := |xs| - 1;
      ArrivedGood(db, xs[..n], s);
      var d, x := Arrived(db, xs[..n]), xs[n];
      SessionIsBelow(d, s);
      SaveKeepsGood(d, s, x.role, x.content, x.toolName, x.toolCallId);
      hide Good, Of, Known;
      SaveRows(d.messages, Message(d.nextId, s, x.role, x.content, x.toolName, x.toolCallId), s);
    }
  }

  lemma EmptyIsGood()
    ensures Good(EMPTY)
  {}

  lemma ThreeAndFour()
    ensures Good(THREE) && Known(THREE.sessions, 0) && |Of(THREE.messages, 0)| == 3
    ensures Good(FOUR) && Known(FOUR.sessions, 0) && |Of(FOUR.messages, 0)| == 4
    ensures Of(THREE.messages, 0) <= Of(FOUR.messages, 0) && Held(FOUR, 0, Of(THREE.messages, 0))
  {
    OneIsGood();
    hide Good, Of, Held, Arrived, Known;
    Rounds(ONE, [Hello(0), Hello(0), Hello(0)], [Hello(0)], 0);
  }

  lemma OneIsGood()
    ensures Good(ONE) && Known(ONE.sessions, 0) && Of(ONE.messages, 0) == []
  {
    EmptyIsGood();
    hide Good, Known;
    SessionKeepsGood(EMPTY, None, None, None, []);
    assert ONE.messages == [] && ONE.sessions == [Session(0, None, Some(0), None)];
    OneIsKnown(ONE.sessions[0]);
  }

  lemma OneIsKnown(x: Session)
    ensures Known([x], x.id)
  {
    assert [x][0] == x;
  }

  lemma Rounds(one: Db, xs: seq<Arrival>, ys: seq<Arrival>, s: nat)
    requires Good(one) && Known(one.sessions, s) && Of(one.messages, s) == [] && xs != []
    requires (forall x <- xs :: x.session == s) && (forall y <- ys :: y.session == s)
    ensures var d := Arrived(one, xs); var e := Arrived(d, ys);
      && Good(d) && Known(d.sessions, s) && |Of(d.messages, s)| == |xs|
      && Good(e) && Known(e.sessions, s) && |Of(e.messages, s)| == |xs| + |ys|
      && Of(d.messages, s) <= Of(e.messages, s) && Held(e, s, Of(d.messages, s))
  {
    hide Good, Of, Held, Arrived, Known;
    var d := Arrived(one, xs);
    ArrivedGood(one, xs, s);
    ArrivedGood(d, ys, s);
    ArrivedOf(d, ys, s);
    ArrivedHeld(d, ys, s);
  }

  /** A message saved between the two reads: the kept line gets another message's id. */
  lemma MessageBetweenShiftsIds()
    ensures Known(FOUR.sessions, 0) && |Of(THREE.messages, 0)| == 3
    ensures var h, g := Of(THREE.messages, 0), Of(FOUR.messages, 0);
      && Reads(FOUR, 0, h, g, 1)
      && var r := Of(AfterCompaction(FOUR, 0, h, g, 1, "").messages, 0);
         |r| == 2 && LineOf(r[1]) == LineOf(h[2]) && r[1].id != h[2].id
  {
    ThreeAndFour();
    hide Good, Held, AfterCompaction;
    var h, g := Of(THREE.messages, 0), Of(FOUR.messages, 0);
    KeptIdsIff(FOUR, 0, h, g, 1, "");
    hide Of, Known;
    var r := Of(AfterCompaction(FOUR, 0, h, g, 1, "").messages, 0);
    assert Ids(r)[1..] == [r[1].id] && Ids(h)[2..] == [h[2].id];
    assert Lines(r)[1..][0] == Lines(h)[2..][0];
  }

  /** A message saved after the second read: it is neither at its place in the archive nor in the history. */
  lemma LateMessageVanishes()
    ensures Known(FOUR.sessions, 0) && |Of(FOUR.messages, 0)| == 4
    ensures var h := Of(THREE.messages, 0);
      && Reads(FOUR, 0, h, h, 1)
      && !Survives(AfterCompaction(FOUR, 0, h, h, 1, "").messages, 0, FOUR.nextId, 3, Of(FOUR.messages, 0)[3])
  {
    ThreeAndFour();
    hide Held;
    var h, now := Of(THREE.messages, 0), Of(FOUR.messages, 0);
    LateOnesVanish(FOUR, 0, h, h, 1, "");
  }

  // ---- In terms of what arrived ----

  /** What the tables tell after a compaction: nothing vanished exactly if no message of the session arrived after
      the second read, the kept lines have their ids exactly if none arrived between the reads, and the session is
      raced exactly if it was before or one arrived. */
  ghost predicate Told(db: Db, s: nat, h: seq<Message>, g: seq<Message>, p: nat, ms: seq<Message>, raced: set<nat>,
                       between: seq<Arrival>, after: seq<Arrival>) {
    var now := Of(db.messages, s);
    && p <= |h|
    && ((forall i | 0 <= i < |now| :: Survives(ms, s, db.nextId, i, now[i])) <==> forall x <- after :: x.session != s)
    && ((|Of(ms, s)| > 0 && Ids(Of(ms, s))[1..] == Ids(h)[|h| - p..]) <==> forall x <- between :: x.session != s)
    && (s !in raced <==> s !in db.raced && forall x <- between + after :: x.session != s)
  }

  lemma {:induction false} ArrivedTwice(db: Db, xs: seq<Arrival>, ys: seq<Arrival>)
    ensures Arrived(Arrived(db, xs), ys) == Arrived(db, xs + ys)
    decreases |ys|
  {
    if ys == [] {
      assert xs + ys == xs;
    } else {
      assert (xs + ys)[..|xs + ys| - 1] == xs + ys[..|ys| - 1];
      ArrivedTwice(db, xs, ys[..|ys| - 1]);
    }
  }

  /** The histories that a compaction meets. */
  lemma ReadsMeanwhile(db: Db, between: seq<Arrival>, after: seq<Arrival>, s: nat, p: nat)
    ensures var d := Arrived(db, between); var e := Arrived(d, after);
      && e.sessions == db.sessions && e.raced == db.raced
      && Of(db.messages, s) <= Of(d.messages, s) <= Of(e.messages, s)
      && (Of(d.messages, s) == Of(db.messages, s) <==> forall x <- between :: x.session != s)
      && (Of(e.messages, s) == Of(d.messages, s) <==> forall x <- after :: x.session != s)
  {
    ArrivedOf(db, between, s);
    ArrivedOf(Arrived(db, between), after, s);
  }

  /** A read holds what it has to, and arrivals take nothing from it. */
  lemma {:induction false} ArrivedHeld(db: Db, xs: seq<Arrival>, s: nat)
    requires Good(db)
    ensures var d := Arrived(db, xs);
      && RecordsGood(d.compactions, d.saved, d.nextId) && d.compactions == db.compactions
      && FromSaved(RecordsOf(d.compactions, s), d.saved) == FromSaved(RecordsOf(db.compactions, s), db.saved)
      && (Of(db.messages, s) != [] ==> Held(d, s, Of(db.messages, s)))
  {
    if xs == [] {
      if Of(db.messages, s) != [] { ReadHolds(db, s); }
    } else {
      var n := |xs| - 1;
      ArrivedHeld(db, xs[..n], s);
      var d, d' := Arrived(db, xs[..n]), Arrived(db, xs);
      SavedGrows(d, d'.saved, d'.nextId, s);
      hide Good, FromSaved, RecordsOf, Of, RecordsGood;
    }
  }

  lemma ReadHolds(db: Db, s: nat)
    requires Good(db) && Of(db.messages, s) != []
    ensures Held(db, s, Of(db.messages, s))
  {
    forall c <- db.compactions | c.archive == s ensures c.removed < GivenWith(db, s, Of(db.messages, s)) {
      assert Keeps(db.messages, db.compactions, db.saved, c);
      hide Good, Of, FromSaved, RecordsOf;
      GivenByFirstRead(db, s, Of(db.messages, s));
      NothingLate(Of(db.messages, s));
    }
  }

  lemma NothingLate(h: seq<Message>)
    ensures Lines(h[|h|..]) == []
  {}

  lemma ReadsAreGood(db: Db, s: nat, h: seq<Message>, g: seq<Message>, p: nat)
    requires Good(db) && Known(db.sessions, s) && h <= g <= Of(db.messages, s)
    requires 0 < p && p + 2 <= |h| && Held(db, s, h)
    ensures Reads(db, s, h, g, p)
  {
    hide Good, Known, Of;
  }

  lemma Tells(db: Db, between: seq<Arrival>, after: seq<Arrival>, s: nat, p: nat, summary: string)
    requires var d := Arrived(db, between); var e := Arrived(d, after);
      Known(e.sessions, s) && Reads(e, s, Of(db.messages, s), Of(d.messages, s), p)
    ensures var d := Arrived(db, between); var e := Arrived(d, after);
        var h, g := Of(db.messages, s), Of(d.messages, s);
      var b := AfterCompaction(e, s, h, g, p, summary);
      Told(e, s, h, g, p, b.messages, b.raced, between, after)
  {
    hide Of, Good, Known, Arrived, Survives, Lines;
    var d := Arrived(db, between);
    var e := Arrived(d, after);
    var h, g := Of(db.messages, s), Of(d.messages, s);
    ReadsMeanwhile(db, between, after, s, p);
    EverythingSurvivesIff(e, s, h, g, p, summary);
    KeptIdsIff(e, s, h, g, p, summary);
    RacedAfter(e, s, h, g, p, summary);
    hide Reads, AfterCompaction;
    ArrivalsOf(between, after, s);
  }

  lemma RacedAfter(db: Db, s: nat, h: seq<Message>, g: seq<Message>, p: nat, summary: string)
    requires Known(db.sessions, s)
    ensures AfterCompaction(db, s, h, g, p, summary).raced == if h != Of(db.messages, s) then db.raced + {s}
        else db.raced
  {
    hide Of, Copies, NewRows, Without, Find, RootColumn, Compress, ReplacementIds, Lines;
  }

  lemma ArrivalsOf(between: seq<Arrival>, after: seq<Arrival>, s: nat)
    ensures (forall x <- between + after :: x.session != s)
        <==> (forall x <- between :: x.session != s) && (forall x <- after :: x.session != s)
  {
    assert forall x <- between :: x in between + after;
    assert forall x <- after :: x in between + after;
  }

  lemma RowsShow(a: seq<Message>, s: nat, r: seq<Message>)
    requires Of(r, s) == r
    ensures Of(Without(a, s) + r, s) == r
  {
    OfAppend(Without(a, s), r, s);
    OfWithout(a, s, s);
    assert [] + r == r;
  }

  lemma RowsShowElsewhere(a: seq<Message>, s: nat, r: seq<Message>, t: nat)
    requires Of(r, t) == [] && t != s
    ensures Of(Without(a, s) + r, t) == Of(a, t)
  {
    OfAppend(Without(a, s), r, t);
    OfWithout(a, s, t);
    assert Of(a, t) + [] == Of(a, t);
  }
}
