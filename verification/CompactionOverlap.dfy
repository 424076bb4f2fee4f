/** Two compactions of one session that overlap: both read the history before either commits. */
module CompactionOverlap {
  import opened Prelude
  import opened SessionTables
  import opened Lineage
  import opened Compaction
  import opened SessionDb
  import opened CompactionReads

  /** The session's history is h, there is something to compress, and everything saved is given back so far. */
  ghost predicate Ready(db: Db, s: nat, h: seq<Message>, p: nat) {
    Good(db) && Known(db.sessions, s) && h == Of(db.messages, s) && 0 < p && p + 2 <= |h| && s !in db.raced
  }

  /** The tables after the compaction that commits first. */
  function First(db: Db, s: nat, h: seq<Message>, p: nat, summary: string): Db
    requires Known(db.sessions, s)
  {
    AfterCompaction(db, s, h, h, p, summary)
  }

  /** The tables after the other one, which also read h first; its second read is g. */
  function Second(d: Db, s: nat, h: seq<Message>, g: seq<Message>, p: nat, summary: string): Db
    requires Known(d.sessions, s)
  {
    Replaced(Archived(d, s, g), s, Compress(Lines(h), p, summary), ReplacementIds(g, p, p + 1),
             Plan(s, h, g, p).(archive := d.nextId), false)
  }

  /** The archive of the second read. */
  function Archived(d: Db, s: nat, g: seq<Message>): Db
    requires Known(d.sessions, s)
  {
    WithSession(d, Some(s), Some(RootColumn(d.sessions[Find(d.sessions, s)])), None, g)
  }

  lemma FirstIsGood(db: Db, s: nat, h: seq<Message>, p: nat, summary: string)
    requires Ready(db, s, h, p)
    ensures var d := First(db, s, h, p, summary);
      && Good(d) && Known(d.sessions, s) && s !in d.raced && |Of(d.messages, s)| == p + 1
      && Lines(Of(d.messages, s))[1..] == Lines(h)[|h| - p..]
  {
    hide Good, Of, Known, AfterCompaction, Lines;
    ReadHolds(db, s);
    CompactionKeepsGood(db, s, h, h, p, summary);
    KeptIdsIff(db, s, h, h, p, summary);
    RacedAfter(db, s, h, h, p, summary);
    StillKnown(db, s, h, p, summary);
  }

  lemma StillKnown(db: Db, s: nat, h: seq<Message>, p: nat, summary: string)
    requires Known(db.sessions, s)
    ensures Known(First(db, s, h, p, summary).sessions, s)
  {
    hide Of, Lines, Compress, ReplacementIds, NewRows, Copies, Without, Plan;
    var i :| 0 <= i < |db.sessions| && db.sessions[i].id == s;
    assert First(db, s, h, p, summary).sessions[i].id == s;
  }

  /** The rows of the second compaction. */
  lemma SecondRows(h: seq<Message>, g: seq<Message>, p: nat, summary: string, s: nat, first: nat)
    requires 0 < p && p + 2 <= |h|
    ensures var r := NewRows(Compress(Lines(h), p, summary), ReplacementIds(g, p, p + 1), s, first);
      && |r| == p + 1 && Lines(r)[1..] == Lines(h)[|h| - p..] && (forall t :: Of(r, t) == if s == t then r else [])
  {
    var lines, ids := Compress(Lines(h), p, summary), ReplacementIds(g, p, p + 1);
    NewRowsFacts(lines, ids, s, first);
    var r := NewRows(lines, ids, s, first);
    forall m | m in r ensures m.session == s {
      var i :| 0 <= i < |r| && r[i] == m;
    }
    forall t ensures Of(r, t) == if s == t then r else [] { OfOne(r, s, t); }
  }

  lemma SamePartElsewhere(a: Db, s: nat, r: seq<Message>, rec: CompactionRecord, c: CompactionRecord)
    requires SamePart(a.messages, a.compactions, a.saved, c)
    requires c.archive != s == rec.session && Of(r, c.archive) == []
    ensures SamePart(Without(a.messages, s) + r, a.compactions + [rec], a.saved, c)
  {
    hide Rebuilt, SavedIn, Part, Of, Without;
    RebuiltElsewhere(a, s, r, rec, c.archive);
  }

  /** The tables give back what they rebuild, whatever the second compaction read. */
  lemma SecondIsRebuilt(a: Db, s: nat, r: seq<Message>, rec: CompactionRecord, bound: nat)
    requires AllAccounted(a) && rec.session == s < rec.archive < a.nextId <= bound && rec.archive !in a.raced
    requires forall t :: t != s ==> Of(r, t) == []
    ensures Full(Without(a.messages, s) + r, a.compactions + [rec], bound, s)
        == Rebuilt(Without(a.messages, s) + r, a.compactions + [rec], a.saved, s)
  {
    var ms, cs := Without(a.messages, s) + r, a.compactions + [rec];
    hide Full, Rebuilt, Keeps, Part, SavedIn, Of, Without, SamePart;
    forall c <- cs | s <= c.session ensures c.session < c.archive < bound && SamePart(ms, cs, a.saved, c) {
      if c in a.compactions {
        KeepsSamePart(a.messages, a.compactions, a.saved, c);
      } else {
        OwnPart(a.messages, a.compactions, a.saved, rec) by {
          assert Accounted(a.messages, a.compactions, a.saved, a.raced, rec.archive);
        }
      }
      SamePartElsewhere(a, s, r, rec, c);
    }
    FullIsRebuilt(ms, cs, a.saved, bound, s);
  }

  lemma OwnPart(ms: seq<Message>, cs: seq<CompactionRecord>, saved: map<nat, seq<Line>>, c: CompactionRecord)
    requires Rebuilt(ms, cs, saved, c.archive) == SavedIn(saved, c.archive)
    ensures SamePart(ms, cs, saved, c)
  {}

  /** The part of the second record comes on top of what was given back. */
  lemma SecondPart(a: Db, s: nat, h: seq<Message>, g: seq<Message>, p: nat, r: seq<Message>, rec: CompactionRecord)
    requires 0 < p && p + 2 <= |h| && |r| == p + 1 && Of(r, s) == r && Lines(r)[1..] == Lines(h)[|h| - p..]
    requires rec.session == s && SavedIn(a.saved, rec.archive) == Lines(g)
    requires RecordsOf(a.compactions, s) != [] && Of(a.messages, s) != []
    requires Lines(Of(a.messages, s))[1..] == Lines(h)[|h| - p..]
    ensures |Rebuilt(Without(a.messages, s) + r, a.compactions + [rec], a.saved, s)|
        == |Rebuilt(a.messages, a.compactions, a.saved, s)| + |Part(Lines(g), rec.removed, false)|
    ensures Part(Lines(g), rec.removed, false) == [] ==>
      Rebuilt(Without(a.messages, s) + r, a.compactions + [rec], a.saved, s)
        == Rebuilt(a.messages, a.compactions, a.saved, s)
  {
    hide Of, Without, RecordsOf, FromSaved, Lines, Part;
    LinesLength(r);
    LinesLength(h);
    LinesLength(Of(a.messages, s));
    RowsShow(a.messages, s, r);
    RecordsAppend(a.compactions, rec, s);
    OneMorePart(RecordsOf(a.compactions, s), rec, a.saved);
    Between(FromSaved(RecordsOf(a.compactions, s), a.saved), Part(Lines(g), rec.removed, false), Lines(h)[|h| - p..]);
  }

  lemma Between(a: seq<Line>, b: seq<Line>, c: seq<Line>)
    ensures |a + b + c| == |a + c| + |b| && (b == [] ==> a + b + c == a + c)
  {
    if b == [] { assert a + b == a; }
  }

  lemma OneMorePart(recs: seq<CompactionRecord>, rec: CompactionRecord, saved: map<nat, seq<Line>>)
    requires recs != []
    ensures FromSaved(recs + [rec], saved)
        == FromSaved(recs, saved) + Part(SavedIn(saved, rec.archive), rec.removed, false)
  {
    assert (recs + [rec])[..|recs|] == recs;
  }

  /** Two compactions of one session that gave everything back before, the second of which read the history before the
      first committed, with nothing saved meanwhile: the second archive's part is given back on top of everything, so
      the tables are right if and only if that part is empty. It is if and only if the second read came after the first
      commit and found no more messages than were removed. */
  lemma OverlapGivenBackIff(db: Db, s: nat, h: seq<Message>, p: nat, one: string, two: string, late: bool)
    requires Ready(db, s, h, p)
    ensures var d := First(db, s, h, p, one); Known(d.sessions, s)
    ensures var d := First(db, s, h, p, one);
      var g := if late then Of(d.messages, s) else h;
      var e := Second(d, s, h, g, p, two);
      && |GivenBack(e, s)| == |SavedIn(e.saved, s)| + |Part(Lines(g), |h| - (p + 1), false)|
      && (GivenBack(e, s) == SavedIn(e.saved, s) <==> late && 2 * p + 2 <= |h|)
  {
    FirstIsGood(db, s, h, p, one);
    var d := First(db, s, h, p, one);
    var g := if late then Of(d.messages, s) else h;
    FirstRecorded(db, s, h, p, one);
    hide First, Good, Of, Known, Lines;
    SecondGivesBack(d, s, h, g, p, two);
    EmptyPartIff(h, Of(d.messages, s), p, late);
  }

  lemma FirstRecorded(db: Db, s: nat, h: seq<Message>, p: nat, summary: string)
    requires Known(db.sessions, s)
    ensures RecordsOf(First(db, s, h, p, summary).compactions, s) != []
  {
    hide Of, Copies, NewRows, Without, Find, RootColumn, Compress, ReplacementIds, Lines;
    RecordsAppend(db.compactions, Plan(s, h, h, p).(archive := db.nextId), s);
  }

  lemma EmptyPartIff(h: seq<Message>, rows: seq<Message>, p: nat, late: bool)
    requires 0 < p && p + 2 <= |h| && |rows| == p + 1
    ensures Part(Lines(if late then rows else h), |h| - (p + 1), false) == [] <==> late && 2 * p + 2 <= |h|
  {}

  lemma SecondGivesBack(d: Db, s: nat, h: seq<Message>, g: seq<Message>, p: nat, summary: string)
    requires Good(d) && Known(d.sessions, s) && s !in d.raced && 0 < p && p + 2 <= |h|
    requires RecordsOf(d.compactions, s) != [] && |Of(d.messages, s)| == p + 1
    requires Lines(Of(d.messages, s))[1..] == Lines(h)[|h| - p..]
    ensures var e := Second(d, s, h, g, p, summary); var part := Part(Lines(g), |h| - (p + 1), false);
      && |GivenBack(e, s)| == |SavedIn(e.saved, s)| + |part|
      && (part == [] ==> GivenBack(e, s) == SavedIn(e.saved, s))
  {
    hide Good, AllAccounted, Of, Known, Lines, Archived, Second, NewRows, Compress, ReplacementIds, Full, Rebuilt, Part,
        RecordsOf, Without;
    var a, rec := Archived(d, s, g), Plan(s, h, g, p).(archive := d.nextId);
    var r := NewRows(Compress(Lines(h), p, summary), ReplacementIds(g, p, p + 1), s, a.nextId);
    ArchivedFacts(d, s, g);
    SessionIsBelow(d, s);
    SecondRows(h, g, p, summary, s, a.nextId);
    SecondIs(d, s, h, g, p, summary);
    LinesLength(h);
    assert Of(r, s) == r;
    SecondIsRebuilt(a, s, r, rec, a.nextId + (p + 1));
    SecondPart(a, s, h, g, p, r, rec);
  }

  lemma SecondIs(d: Db, s: nat, h: seq<Message>, g: seq<Message>, p: nat, summary: string)
    requires Known(d.sessions, s) && p + 2 <= |h|
    ensures var a, e := Archived(d, s, g), Second(d, s, h, g, p, summary);
      && e.messages == Without(a.messages, s)
          + NewRows(Compress(Lines(h), p, summary), ReplacementIds(g, p, p + 1), s, a.nextId)
      && e.compactions == a.compactions + [Plan(s, h, g, p).(archive := d.nextId)]
      && e.saved == a.saved && e.nextId == a.nextId + (p + 1)
  {
    SecondLength(h, p, summary);
    hide Archived, Find, Compress, ReplacementIds, Of, NewRows, Without, Plan;
  }

  lemma SecondLength(h: seq<Message>, p: nat, summary: string)
    requires p + 2 <= |h|
    ensures |Compress(Lines(h), p, summary)| == p + 1
  {}

  lemma ArchivedFacts(d: Db, s: nat, g: seq<Message>)
    requires Good(d) && Known(d.sessions, s) && s !in d.raced
    ensures var a := Archived(d, s, g);
      && AllAccounted(a) && a.raced == d.raced && a.compactions == d.compactions && d.nextId < a.nextId
      && d.nextId !in a.raced && Of(a.messages, s) == Of(d.messages, s) && SavedIn(a.saved, d.nextId) == Lines(g)
      && Rebuilt(a.messages, a.compactions, a.saved, s) == SavedIn(a.saved, s)
  {
    var root := RootColumn(d.sessions[Find(d.sessions, s)]);
    assert RootFits(d, Some(s), Some(root));
    SessionIsBelow(d, s);
    FreshHasNothing(d);
    hide RootFits, Find, RootColumn, Forest, IdsGood, Known, Of, Lines, RecordsGood, Keeps, Rebuilt;
    SessionKeepsGood(d, Some(s), Some(root), None, g);
    ArchiveFacts(d, s, root, g);
    var a := Archived(d, s, g);
    assert Accounted(a.messages, a.compactions, a.saved, a.raced, s);
  }
}
