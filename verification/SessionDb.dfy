/** The session manager and the chat service's history operations over the tables. */
module SessionDb {
  import opened Prelude
  import opened SessionTables
  import opened Lineage
  import opened Compaction

  /** The tables, with everything ever saved per session and the sessions in which a message was saved while a
      compaction was between its first read and its transaction. */
  datatype Db = Db(sessions: seq<Session>, messages: seq<Message>, compactions: seq<CompactionRecord>, nextId: nat,
                   saved: map<nat, seq<Line>>, raced: set<nat>)

  /** Message ids are unique, and every id in use was given out. */
  ghost predicate IdsGood(db: Db) {
    && UniqueIds(db.messages) && (forall m <- db.messages :: m.id < db.nextId && m.session < db.nextId)
    && (forall x <- db.sessions :: x.id < db.nextId) && (forall s | s in db.saved :: s < db.nextId)
    && (forall s <- db.raced :: s < db.nextId)
  }

  ghost predicate AllAccounted(db: Db) {
    && RecordsGood(db.compactions, db.saved, db.nextId)
    && (forall s: nat :: Accounted(db.messages, db.compactions, db.saved, db.raced, s))
    && (forall c <- db.compactions :: Keeps(db.messages, db.compactions, db.saved, c))
  }

  ghost predicate Good(db: Db) { Forest(db.sessions) && IdsGood(db) && AllAccounted(db) }

  /** What the tables alone give back of a session. */
  function GivenBack(db: Db, s: nat): seq<Line> { Full(db.messages, db.compactions, db.nextId, s) }

  /** After any run of the operations the tables alone give back everything ever saved in a session if and only
      if no message was saved in it between a compaction's first read and its transaction. */
  lemma TablesGiveBackEverythingIff(db: Db, s: nat)
    requires Good(db)
    ensures GivenBack(db, s) == SavedIn(db.saved, s) <==> s !in db.raced
  {
    hide RecordsGood, Accounted, Keeps;
    FullIsSavedIff(db.messages, db.compactions, db.saved, db.raced, db.nextId, s);
  }

  // ---- What each operation does to the tables ----

  function Saved(db: Db, s: nat, role: string, content: string, toolName: string, toolCallId: string): Db {
    db.(messages := db.messages + [Message(db.nextId, s, role, content, toolName, toolCallId)], nextId := db.nextId + 1,
        saved := db.saved[s := SavedIn(db.saved, s) + [Line(role, content)]])
  }

  /** A new session with copies of messages: a root, a clone, a fork or an archive. */
  function WithSession(db: Db, parent: Option<nat>, root: Option<nat>, forkedFrom: Option<nat>,
                       rows: seq<Message>): Db {
    var id := db.nextId;
    db.(sessions := db.sessions + [Session(id, parent, Some(if root.None? then id else root.value), forkedFrom)],
        messages := db.messages + Copies(rows, id, id + 1), nextId := id + 1 + |rows|,
        saved := db.saved[id := Lines(rows)])
  }

  /** The rows of the compressed history: replaced ids where there are any, fresh ones from first on otherwise,
      and no tool columns. */
  function NewRows(lines: seq<Line>, ids: seq<Option<nat>>, s: nat, first: nat): seq<Message> {
    if lines == [] then []
    else
      [NewRow(lines[0], if ids == [] then None else ids[0], s, first)]
      + NewRows(lines[1..], if ids == [] then [] else ids[1..], s, first + 1)
  }

  function NewRow(line: Line, id: Option<nat>, s: nat, next: nat): Message {
    Message(if id.Some? then id.value else next, s, line.role, line.content, "", "")
  }

  lemma {:induction false} NewRowsFacts(lines: seq<Line>, ids: seq<Option<nat>>, s: nat, first: nat)
    requires |ids| == |lines|
    ensures var r := NewRows(lines, ids, s, first);
      && |r| == |lines| && Lines(r) == lines
      && (forall i | 0 <= i < |r| :: r[i].session == s && r[i].id == if ids[i].Some? then ids[i].value else first + i)
      && (forall i | 0 <= i < |r| :: r[i].toolName == "" && r[i].toolCallId == "")
  {
    if lines != [] { NewRowsFacts(lines[1..], ids[1..], s, first + 1); }
  }

  lemma {:induction false} NewRowsAppend(lines: seq<Line>, line: Line, ids: seq<Option<nat>>, s: nat, first: nat)
    requires |ids| == |lines| + 1
    ensures NewRows(lines + [line], ids, s, first) ==
      NewRows(lines, ids[..|lines|], s, first) + [NewRow(line, ids[|lines|], s, first + |lines|)]
  {
    hide NewRow;
    if lines == [] {
      assert [] + [line] == [line];
      assert NewRows([line], ids, s, first) == [NewRow(line, ids[0], s, first)];
    } else {
      assert (lines + [line])[1..] == lines[1..] + [line];
      assert ids[1..][..|lines| - 1] == ids[..|lines|][1..];
      NewRowsAppend(lines[1..], line, ids[1..], s, first + 1);
    }
  }

  /** The second half of a compaction, once the archive session is in the tables; late says that a message was
      saved in the session after the compaction's first read. */
  function Replaced(a: Db, s: nat, lines: seq<Line>, ids: seq<Option<nat>>, rec: CompactionRecord, late: bool): Db {
    a.(messages := Without(a.messages, s) + NewRows(lines, ids, s, a.nextId), nextId := a.nextId + |lines|,
       compactions := a.compactions + [rec], raced := if late then a.raced + {s} else a.raced)
  }

  /** compactHistoryWithArchive: an archive session with the original rows, the compressed rows in their place,
      and the record. */
  function Compacted(db: Db, s: nat, root: nat, original: seq<Message>, lines: seq<Line>, ids: seq<Option<nat>>,
                     rec: CompactionRecord, late: bool): Db {
    Replaced(WithSession(db, Some(s), Some(root), None, original), s, lines, ids, rec.(archive := db.nextId), late)
  }

  // ---- What the tables show of them ----

  /** The same messages under other ids, tool columns and all. */
  predicate CopiesOf(rows: seq<Message>, copies: seq<Message>) {
    && |copies| == |rows|
    && (forall i | 0 <= i < |rows| ::
          && copies[i].role == rows[i].role && copies[i].content == rows[i].content
          && copies[i].toolName == rows[i].toolName && copies[i].toolCallId == rows[i].toolCallId)
  }

  /** One session more, of this origin and with copies of these rows; everything else is as it was. */
  ghost predicate OneMoreSession(db: Db, t: Db, parent: Option<nat>, forkedFrom: Option<nat>, rows: seq<Message>) {
    && |t.sessions| == |db.sessions| + 1 && db.sessions <= t.sessions
    && t.sessions[|db.sessions|].id == db.nextId && t.sessions[|db.sessions|].parent == parent
    && t.sessions[|db.sessions|].forkedFrom == forkedFrom
    && db.messages <= t.messages && CopiesOf(rows, Of(t.messages, db.nextId))
    && (forall u: nat | u != db.nextId :: Of(t.messages, u) == Of(db.messages, u))
    && t.compactions == db.compactions && t.raced == db.raced
  }

  lemma SessionIsOneMore(db: Db, parent: Option<nat>, root: Option<nat>, forkedFrom: Option<nat>, rows: seq<Message>)
    requires Good(db)
    ensures OneMoreSession(db, WithSession(db, parent, root, forkedFrom, rows), parent, forkedFrom, rows)
  {
    hide Good, Of, CopiesOf, Copies, Lines;
    FreshHasNothing(db);
    CopiesShow(db.messages, rows, db.nextId);
    forall u: nat | u != db.nextId
      ensures Of(db.messages + Copies(rows, db.nextId, db.nextId + 1), u) == Of(db.messages, u)
    {
      CopiesElsewhere(db.messages, rows, db.nextId, u);
    }
  }

  lemma CopiesShow(ms: seq<Message>, rows: seq<Message>, id: nat)
    requires Of(ms, id) == []
    ensures CopiesOf(rows, Of(ms + Copies(rows, id, id + 1), id))
  {
    hide Of, CopiesOf, Copies, Lines;
    CopiesFacts(rows, id, id + 1);
    CopiesAreCopies(rows, id);
    OfAppend(ms, Copies(rows, id, id + 1), id);
    assert [] + Copies(rows, id, id + 1) == Copies(rows, id, id + 1);
  }

  lemma CopiesAreCopies(rows: seq<Message>, id: nat)
    ensures CopiesOf(rows, Copies(rows, id, id + 1))
  {}

  /** One message more, as it was given, under a fresh id; everything else is as it was. */
  predicate OneMoreMessage(db: Db, t: Db, s: nat, role: string, content: string, toolName: string,
                           toolCallId: string) {
    && t.sessions == db.sessions && t.compactions == db.compactions
    && SavedIn(t.saved, s) == SavedIn(db.saved, s) + [Line(role, content)]
    && |t.messages| == |db.messages| + 1 && db.messages <= t.messages
    && var m := t.messages[|db.messages|];
       && m.id == db.nextId && m.session == s && m.role == role && m.content == content
       && m.toolName == toolName && m.toolCallId == toolCallId
  }

  // ---- They keep the tables good ----

  lemma {:induction false} FromSavedFrame(recs: seq<CompactionRecord>, saved: map<nat, seq<Line>>,
                                          saved': map<nat, seq<Line>>)
    requires forall c <- recs :: c.removed < |SavedIn(saved, c.archive)|
    requires forall c <- recs :: SavedIn(saved, c.archive) <= SavedIn(saved', c.archive)
    ensures FromSaved(recs, saved') == FromSaved(recs, saved)
  {
    if recs != [] {
      var n := |recs| - 1;
      FromSavedFrame(recs[..n], saved, saved');
      assert recs[n] in recs;
    }
  }

  /** What was saved only grows, so the records stay good and rebuild the same lines. */
  lemma SavedGrows(db: Db, saved': map<nat, seq<Line>>, bound': nat, t: nat)
    requires RecordsGood(db.compactions, db.saved, db.nextId) && db.nextId <= bound'
    requires forall s: nat :: SavedIn(db.saved, s) <= SavedIn(saved', s)
    ensures RecordsGood(db.compactions, saved', bound')
    ensures FromSaved(RecordsOf(db.compactions, t), saved') == FromSaved(RecordsOf(db.compactions, t), db.saved)
  {
    RecordsMembers(db.compactions, t);
    FromSavedFrame(RecordsOf(db.compactions, t), db.saved, saved');
  }

  lemma LinesAppend(a: seq<Message>, b: seq<Message>)
    ensures Lines(a + b) == Lines(a) + Lines(b)
  {}

  lemma SaveKeepsGood(db: Db, s: nat, role: string, content: string, toolName: string, toolCallId: string)
    requires Good(db) && s < db.nextId
    ensures Good(Saved(db, s, role, content, toolName, toolCallId))
  {
    hide Forest, RecordsGood, Accounted, Keeps;
    var db' := Saved(db, s, role, content, toolName, toolCallId);
    UniqueAppend(db.messages, [db'.messages[|db.messages|]]);
    SaveKeepsAccounts(db, db'.messages[|db.messages|], db'.saved, 0);
    forall t: nat ensures Accounted(db'.messages, db'.compactions, db'.saved, db'.raced, t) {
      SaveKeepsAccounts(db, db'.messages[|db.messages|], db'.saved, t);
    }
    forall c <- db'.compactions ensures Keeps(db'.messages, db'.compactions, db'.saved, c) {
      SaveKeepsKept(db, db'.messages[|db.messages|], db'.saved, c);
    }
  }

  lemma SaveKeepsKept(db: Db, m: Message, saved': map<nat, seq<Line>>, c: CompactionRecord)
    requires RecordsGood(db.compactions, db.saved, db.nextId)
    requires Accounted(db.messages, db.compactions, db.saved, db.raced, c.archive)
    requires Keeps(db.messages, db.compactions, db.saved, c)
    requires saved' == db.saved[m.session := SavedIn(db.saved, m.session) + [LineOf(m)]]
    ensures Keeps(db.messages + [m], db.compactions, saved', c)
  {
    hide RecordsGood, FromSaved, RecordsOf, Of, Lines, Rebuilt;
    SaveGrows(db, m, saved', c.archive);
    SaveRebuilt(db, m, saved', c.archive);
    SamePrefix(Rebuilt(db.messages, db.compactions, db.saved, c.archive), LineOf(m), c.removed);
    SamePrefix(SavedIn(db.saved, c.archive), LineOf(m), c.removed);
  }

  lemma SamePrefix(lines: seq<Line>, line: Line, n: nat)
    requires n < |lines|
    ensures (lines + [line])[..n + 1] == lines[..n + 1]
  {}

  lemma SaveKeepsAccounts(db: Db, m: Message, saved': map<nat, seq<Line>>, t: nat)
    requires RecordsGood(db.compactions, db.saved, db.nextId)
        && Accounted(db.messages, db.compactions, db.saved, db.raced, t)
    requires saved' == db.saved[m.session := SavedIn(db.saved, m.session) + [LineOf(m)]]
    ensures RecordsGood(db.compactions, saved', db.nextId + 1)
    ensures Accounted(db.messages + [m], db.compactions, saved', db.raced, t)
  {
    hide RecordsGood, FromSaved, RecordsOf, Of, Lines, Rebuilt;
    SaveGrows(db, m, saved', t);
    SaveRebuilt(db, m, saved', t);
    SaveRows(db.messages, m, t);
  }

  lemma SaveGrows(db: Db, m: Message, saved': map<nat, seq<Line>>, t: nat)
    requires RecordsGood(db.compactions, db.saved, db.nextId)
    requires saved' == db.saved[m.session := SavedIn(db.saved, m.session) + [LineOf(m)]]
    ensures RecordsGood(db.compactions, saved', db.nextId + 1)
    ensures FromSaved(RecordsOf(db.compactions, t), saved') == FromSaved(RecordsOf(db.compactions, t), db.saved)
    ensures SavedIn(saved', t) == if t == m.session then SavedIn(db.saved, t) + [LineOf(m)] else SavedIn(db.saved, t)
  {
    hide RecordsGood, FromSaved, RecordsOf;
    SavedGrows(db, saved', db.nextId + 1, t);
  }

  lemma SaveRebuilt(db: Db, m: Message, saved': map<nat, seq<Line>>, t: nat)
    requires FromSaved(RecordsOf(db.compactions, t), saved') == FromSaved(RecordsOf(db.compactions, t), db.saved)
    requires RecordsOf(db.compactions, t) != [] ==> Of(db.messages, t) != []
    ensures var before, after := Rebuilt(db.messages, db.compactions, db.saved, t),
        Rebuilt(db.messages + [m], db.compactions, saved', t);
      after == if t == m.session then before + [LineOf(m)] else before
  {
    SaveRows(db.messages, m, t);
    hide FromSaved, RecordsOf, Of, Lines;
    var lines := Lines(Of(db.messages, t));
    TailAppend(lines, LineOf(m));
    var f := FromSaved(RecordsOf(db.compactions, t), db.saved);
    assert f + (lines + [LineOf(m)]) == f + lines + [LineOf(m)];
    if lines != [] { assert f + (lines[1..] + [LineOf(m)]) == f + lines[1..] + [LineOf(m)]; }
  }

  lemma SaveRows(ms: seq<Message>, m: Message, t: nat)
    ensures Of(ms + [m], t) == if t == m.session then Of(ms, t) + [m] else Of(ms, t)
    ensures Lines(Of(ms + [m], t)) == if t == m.session then Lines(Of(ms, t)) + [LineOf(m)] else Lines(Of(ms, t))
    ensures |Lines(Of(ms, t))| == |Of(ms, t)|
  {
    OfAppend(ms, [m], t);
    OfOne([m], m.session, t);
    hide Of;
    LinesAppend(Of(ms, t), [m]);
    assert Of(ms, t) + [] == Of(ms, t);
    assert Lines([m]) == [LineOf(m)];
  }

  lemma TailAppend(lines: seq<Line>, line: Line)
    ensures lines != [] ==> (lines + [line])[1..] == lines[1..] + [line]
  {}

  /** An id that was never given out has no rows. */
  lemma FreshHasNothing(db: Db)
    requires Good(db)
    ensures Of(db.messages, db.nextId) == [] && RecordsOf(db.compactions, db.nextId) == []
        && SavedIn(db.saved, db.nextId) == []
    ensures !Known(db.sessions, db.nextId) && db.nextId !in db.raced
  {
    OfNone(db.messages, db.nextId);
    RecordsNone(db.compactions, db.nextId);
    assert forall x <- db.sessions :: x.id != db.nextId;
  }

  lemma CopiesFacts(rows: seq<Message>, s: nat, first: nat)
    ensures var c := Copies(rows, s, first);
      && |c| == |rows| && Lines(c) == Lines(rows) && UniqueIds(c)
      && (forall m <- c :: m.session == s && first <= m.id < first + |rows|)
      && (forall t :: Of(c, t) == if t == s then c else [])
  {
    var c := Copies(rows, s, first);
    forall m | m in c ensures m.session == s && first <= m.id < first + |rows| {
      var i :| 0 <= i < |c| && c[i] == m;
    }
    forall t ensures Of(c, t) == if t == s then c else [] { OfOne(c, s, t); }
  }

  predicate RootFits(db: Db, parent: Option<nat>, root: Option<nat>) {
    match parent
    case None => root.None?
    case Some(p) => Known(db.sessions, p) && root == Some(RootColumn(db.sessions[Find(db.sessions, p)]))
  }

  lemma SessionKeepsIds(db: Db, parent: Option<nat>, root: Option<nat>, forkedFrom: Option<nat>, rows: seq<Message>)
    requires IdsGood(db)
    ensures IdsGood(WithSession(db, parent, root, forkedFrom, rows))
  {
    hide UniqueIds, Copies, Lines;
    CopiesFacts(rows, db.nextId, db.nextId + 1);
    UniqueAppend(db.messages, Copies(rows, db.nextId, db.nextId + 1));
  }

  lemma SessionKeepsForest(db: Db, parent: Option<nat>, root: Option<nat>, forkedFrom: Option<nat>, rows: seq<Message>)
    requires Good(db) && RootFits(db, parent, root)
    ensures Forest(WithSession(db, parent, root, forkedFrom, rows).sessions)
  {
    FreshHasNothing(db);
    hide Forest, AllAccounted, IdsGood;
    ForestGrows(db.sessions, WithSession(db, parent, root, forkedFrom, rows).sessions[|db.sessions|]);
  }

  lemma SessionKeepsGood(db: Db, parent: Option<nat>, root: Option<nat>, forkedFrom: Option<nat>, rows: seq<Message>)
    requires Good(db) && RootFits(db, parent, root)
    ensures Good(WithSession(db, parent, root, forkedFrom, rows))
  {
    hide AllAccounted, Forest, IdsGood, RootFits;
    FreshHasNothing(db);
    SessionKeepsForest(db, parent, root, forkedFrom, rows);
    SessionKeepsIds(db, parent, root, forkedFrom, rows);
    SessionKeepsAllAccounted(db, parent, root, forkedFrom, rows);
  }

  lemma SessionKeepsAllAccounted(db: Db, parent: Option<nat>, root: Option<nat>, forkedFrom: Option<nat>,
                                 rows: seq<Message>)
    requires AllAccounted(db) && db.nextId !in db.raced
    requires Of(db.messages, db.nextId) == [] && RecordsOf(db.compactions, db.nextId) == []
        && SavedIn(db.saved, db.nextId) == []
    ensures AllAccounted(WithSession(db, parent, root, forkedFrom, rows))
  {
    hide RecordsGood, Accounted, Keeps, Of, RecordsOf, Copies, Lines, SavedIn;
    var ms', saved' := db.messages + Copies(rows, db.nextId, db.nextId + 1), db.saved[db.nextId := Lines(rows)];
    SessionKeepsAccounts(db, rows, 0);
    ArchivesAreBelow(db);
    forall t: nat ensures Accounted(ms', db.compactions, saved', db.raced, t) { SessionKeepsAccounts(db, rows, t); }
    forall c <- db.compactions ensures Keeps(ms', db.compactions, saved', c) { SessionKeepsKept(db, rows, c); }
  }

  lemma ArchivesAreBelow(db: Db)
    requires RecordsGood(db.compactions, db.saved, db.nextId)
    ensures forall c <- db.compactions :: c.archive < db.nextId
  {}

  lemma SessionKeepsKept(db: Db, rows: seq<Message>, c: CompactionRecord)
    requires RecordsGood(db.compactions, db.saved, db.nextId) && SavedIn(db.saved, db.nextId) == []
    requires Keeps(db.messages, db.compactions, db.saved, c) && c.archive != db.nextId
    ensures Keeps(db.messages + Copies(rows, db.nextId, db.nextId + 1), db.compactions,
                  db.saved[db.nextId := Lines(rows)], c)
  {
    hide RecordsGood, Rebuilt, Copies, Lines;
    SessionRebuilt(db, rows, c.archive);
  }

  /** A new session changes nothing for the others. */
  lemma SessionRebuilt(db: Db, rows: seq<Message>, t: nat)
    requires RecordsGood(db.compactions, db.saved, db.nextId) && SavedIn(db.saved, db.nextId) == [] && t != db.nextId
    ensures var ms', saved' := db.messages + Copies(rows, db.nextId, db.nextId + 1), db.saved[db.nextId := Lines(rows)];
      && Rebuilt(ms', db.compactions, saved', t) == Rebuilt(db.messages, db.compactions, db.saved, t)
      && SavedIn(saved', t) == SavedIn(db.saved, t)
  {
    hide FromSaved, RecordsOf, Of, Lines, Copies;
    var saved' := db.saved[db.nextId := Lines(rows)];
    SavedGrows(db, saved', db.nextId + 1 + |rows|, t);
    CopiesElsewhere(db.messages, rows, db.nextId, t);
  }

  lemma SessionKeepsAccounts(db: Db, rows: seq<Message>, t: nat)
    requires RecordsGood(db.compactions, db.saved, db.nextId)
        && Accounted(db.messages, db.compactions, db.saved, db.raced, t)
    requires Of(db.messages, db.nextId) == [] && RecordsOf(db.compactions, db.nextId) == []
        && SavedIn(db.saved, db.nextId) == []
    requires db.nextId !in db.raced
    ensures var saved' := db.saved[db.nextId := Lines(rows)]; var bound' := db.nextId + 1 + |rows|;
      RecordsGood(db.compactions, saved', bound')
      && Accounted(db.messages + Copies(rows, db.nextId, db.nextId + 1), db.compactions, saved', db.raced, t)
  {
    hide FromSaved, RecordsOf, Of, Lines;
    var id := db.nextId;
    var saved' := db.saved[id := Lines(rows)];
    SavedGrows(db, saved', id + 1 + |rows|, t);
    CopiesFacts(rows, id, id + 1);
    OfAppend(db.messages, Copies(rows, id, id + 1), t);
    FromNothing(saved');
    if t == id {
      assert [] + Copies(rows, id, id + 1) == Copies(rows, id, id + 1);
      assert [] + Lines(rows) == Lines(rows);
    } else {
      assert Of(db.messages, t) + [] == Of(db.messages, t);
    }
  }

  lemma FromNothing(saved: map<nat, seq<Line>>)
    ensures FromSaved([], saved) == []
  {}

  /** A compaction that read the messages h first and the messages g, with their ids, second, and that keeps the
      last p of h. */
  ghost predicate Compacts(h: seq<Message>, g: seq<Message>, p: nat, summary: string, lines: seq<Line>,
                           ids: seq<Option<nat>>,
                           rec: CompactionRecord) {
    && 0 < p && p + 2 <= |h| && h <= g && lines == Compress(Lines(h), p, summary)
    && ids == ReplacementIds(g, p, |lines|) && rec.removed == |h| - |lines|
  }

  /** The compressed rows: the summary under a fresh id, then the lines kept of the first read under the last ids
      of the second. */
  ghost predicate Compressed(h: seq<Message>, g: seq<Message>, p: nat, summary: string, s: nat, first: nat,
                             r: seq<Message>) {
    && 0 < p && p + 2 <= |h| && h <= g && |r| == p + 1 && r[0].id == first
    && Lines(r) == [Line(SYSTEM, SUMMARY_HEAD + summary)] + Lines(h)[|h| - p..]
    && (forall i | 0 < i < |r| :: r[i].id == g[|g| - p + i - 1].id)
    && (forall m <- r :: m.session == s && m.toolName == "" && m.toolCallId == "")
    && (forall t :: Of(r, t) == if s == t then r else [])
  }

  lemma CompactsRows(h: seq<Message>, g: seq<Message>, p: nat, summary: string, lines: seq<Line>, ids: seq<Option<nat>>,
                     rec: CompactionRecord, s: nat, first: nat)
    requires Compacts(h, g, p, summary, lines, ids, rec)
    ensures Compressed(h, g, p, summary, s, first, NewRows(lines, ids, s, first))
    ensures |lines| == |ids| == p + 1 && rec.removed == |h| - (p + 1)
  {
    var r := NewRows(lines, ids, s, first);
    NewRowsFacts(lines, ids, s, first);
    forall m | m in r ensures m.session == s && m.toolName == "" && m.toolCallId == "" {
      var i :| 0 <= i < |r| && r[i] == m;
    }
    forall t ensures Of(r, t) == if s == t then r else [] { OfOne(r, s, t); }
  }

  /** The kept ids come back only after their old rows are gone. */
  lemma ReplacedKeepsIds(a: Db, s: nat, h: seq<Message>, g: seq<Message>, p: nat, summary: string, lines: seq<Line>,
                         ids: seq<Option<nat>>, rec: CompactionRecord, late: bool)
    requires IdsGood(a) && g <= Of(a.messages, s) && s < a.nextId && Compacts(h, g, p, summary, lines, ids, rec)
    ensures IdsGood(Replaced(a, s, lines, ids, rec, late))
  {
    CompactsRows(h, g, p, summary, lines, ids, rec, s, a.nextId);
    hide Compacts, NewRows, Compress, ReplacementIds, Of, Without, Lines, UniqueIds;
    NewRowsKeepIds(a.messages, s, g, NewRows(lines, ids, s, a.nextId), |g| - p, a.nextId);
  }

  lemma NewRowsKeepIds(ms: seq<Message>, s: nat, g: seq<Message>, r: seq<Message>, n: nat, first: nat)
    requires UniqueIds(ms) && (forall m <- ms :: m.id < first && m.session < first) && g <= Of(ms, s) && s < first
    requires n + |r| == |g| + 1 && |r| > 0 && r[0].id == first && forall m <- r :: m.session == s
    requires forall i | 0 < i < |r| :: r[i].id == g[n + i - 1].id
    ensures UniqueIds(Without(ms, s) + r)
    ensures forall m <- Without(ms, s) + r :: m.id < first + |r| && m.session < first + |r|
  {
    OfUnique(ms, s);
    OfMembers(ms, s);
    WithoutMembers(ms, s);
    assert UniqueIds(g) && forall m <- g :: m in Of(ms, s);
    hide Of, Without, UniqueIds;
    var w := Without(ms, s);
    RowsUnique(g, r, n, first);
    RowIds(g, r, n, first);
    RowsApart(g, w, r, first);
    UniqueAppend(w, r);
    BoundsAppend(w, r, first + |r|);
  }

  lemma BoundsAppend(w: seq<Message>, r: seq<Message>, bound: nat)
    requires (forall m <- w :: m.id < bound && m.session < bound)
        && (forall m <- r :: m.id < bound && m.session < bound)
    ensures forall m <- w + r :: m.id < bound && m.session < bound
  {}

  /** Every new row has the fresh first id or the id of an old row. */
  lemma RowIds(h: seq<Message>, r: seq<Message>, n: nat, first: nat)
    requires n + |r| == |h| + 1 && |r| > 0 && r[0].id == first
    requires forall i | 0 < i < |r| :: r[i].id == h[n + i - 1].id
    ensures forall y <- r :: y.id == first || exists m :: m in h && m.id == y.id
  {
    forall y | y in r ensures y.id == first || exists m :: m in h && m.id == y.id {
      var i :| 0 <= i < |r| && r[i] == y;
      if i > 0 { assert h[n + i - 1] in h; }
    }
  }

  lemma RowsApart(h: seq<Message>, w: seq<Message>, r: seq<Message>, first: nat)
    requires forall y <- r :: y.id == first || exists m :: m in h && m.id == y.id
    requires forall m, x | m in h && x in w :: m.id != x.id
    requires (forall x <- w :: x.id < first) && (forall m <- h :: m.id < first)
    ensures forall x, y | x in w && y in r :: x.id != y.id
    ensures forall y <- r :: y.id <= first
  {}

  lemma RowsUnique(h: seq<Message>, r: seq<Message>, n: nat, first: nat)
    requires UniqueIds(h) && (forall m <- h :: m.id < first) && n + |r| == |h| + 1 && |r| > 0 && r[0].id == first
    requires forall i | 0 < i < |r| :: r[i].id == h[n + i - 1].id
    ensures UniqueIds(r)
  {
    forall i, j | 0 <= i < j < |r| ensures r[i].id != r[j].id {
      assert h[n + j - 1] in h;
    }
  }

  lemma ReplacedKeepsRecords(a: Db, s: nat, lines: seq<Line>, ids: seq<Option<nat>>, rec: CompactionRecord, late: bool)
    requires RecordsGood(a.compactions, a.saved, a.nextId)
    requires s == rec.session < rec.archive < a.nextId && rec.removed < |SavedIn(a.saved, rec.archive)|
    ensures var b := Replaced(a, s, lines, ids, rec, late); RecordsGood(b.compactions, b.saved, b.nextId)
  {}

  lemma ReplacedElsewhere(a: Db, s: nat, r: seq<Message>, rec: CompactionRecord, late: bool, t: nat)
    requires Accounted(a.messages, a.compactions, a.saved, a.raced, t) && t != s == rec.session && Of(r, t) == []
    ensures Accounted(Without(a.messages, s) + r, a.compactions + [rec], a.saved,
        if late then a.raced + {s} else a.raced, t)
  {
    hide FromSaved, Of, Without, RecordsOf;
    RecordsAppend(a.compactions, rec, t);
    OfAppend(Without(a.messages, s), r, t);
    OfWithout(a.messages, s, t);
    assert Of(a.messages, t) + [] == Of(a.messages, t);
    assert RecordsOf(a.compactions, t) + [] == RecordsOf(a.compactions, t);
  }

  lemma RebuiltElsewhere(a: Db, s: nat, r: seq<Message>, rec: CompactionRecord, t: nat)
    requires t != s == rec.session && Of(r, t) == []
    ensures Rebuilt(Without(a.messages, s) + r, a.compactions + [rec], a.saved, t)
        == Rebuilt(a.messages, a.compactions, a.saved, t)
  {
    hide FromSaved, Of, Without, RecordsOf;
    RecordsAppend(a.compactions, rec, t);
    OfAppend(Without(a.messages, s), r, t);
    OfWithout(a.messages, s, t);
    assert Of(a.messages, t) + [] == Of(a.messages, t);
    assert RecordsOf(a.compactions, t) + [] == RecordsOf(a.compactions, t);
  }

  /** How many lines of a session are given back when its history is h. */
  function GivenWith(db: Db, s: nat, h: seq<Message>): nat {
    var recs := RecordsOf(db.compactions, s);
    |FromSaved(recs, db.saved)| + if recs != [] && h != [] then |h| - 1 else |h|
  }

  /** The first read h of the session, if that is an archive, still gave back what was removed for it. */
  ghost predicate Held(db: Db, s: nat, h: seq<Message>) {
    forall c <- db.compactions | c.archive == s :: c.removed < GivenWith(db, s, h)
  }

  lemma ReplacedKeepsKept(a: Db, s: nat, h: seq<Message>, g: seq<Message>, p: nat, summary: string, first: nat,
                          r: seq<Message>, rec: CompactionRecord, c: CompactionRecord)
    requires g <= Of(a.messages, s) && rec.session == s && SavedIn(a.saved, rec.archive) == Lines(g)
    requires Compressed(h, g, p, summary, s, first, r) && rec.removed == |h| - (p + 1)
    requires Keeps(a.messages, a.compactions, a.saved, c) && (c.archive == s ==> c.removed < GivenWith(a, s, h))
    ensures Keeps(Without(a.messages, s) + r, a.compactions + [rec], a.saved, c)
  {
    hide Of, Without, RecordsOf, Compressed, FromSaved, Lines, Rebuilt;
    if c.archive == s {
      ReplacedRebuilt(a, s, h, g, p, summary, first, r, rec);
      GivenByFirstRead(a, s, h);
      var before, after := Rebuilt(a.messages, a.compactions, a.saved, s),
          Rebuilt(Without(a.messages, s) + r, a.compactions + [rec], a.saved, s);
      assert before[..c.removed + 1] == after[..c.removed + 1];
    } else {
      OfElsewhere(h, g, p, summary, s, first, r, c.archive);
      RebuiltElsewhere(a, s, r, rec, c.archive);
    }
  }

  lemma GivenByFirstRead(a: Db, s: nat, h: seq<Message>)
    requires h <= Of(a.messages, s) && h != []
    ensures |Rebuilt(a.messages, a.compactions, a.saved, s)| == GivenWith(a, s, h) + |Lines(Of(a.messages, s)[|h|..])|
  {
    hide FromSaved, Of, RecordsOf;
    LinesSplit(Of(a.messages, s), h);
    LinesLength(h);
  }

  /** The new record keeps what it removed. */
  lemma RecordIsKept(a: Db, s: nat, r: seq<Message>, rec: CompactionRecord)
    requires rec.session == s != rec.archive && Of(r, rec.archive) == []
    requires rec.removed < |SavedIn(a.saved, rec.archive)|
    requires Accounted(a.messages, a.compactions, a.saved, a.raced, rec.archive) && rec.archive !in a.raced
    ensures Keeps(Without(a.messages, s) + r, a.compactions + [rec], a.saved, rec)
  {
    hide Rebuilt;
    RebuiltElsewhere(a, s, r, rec, rec.archive);
  }

  /** What the compacted session gives back is what its first read gave back. */
  lemma ReplacedHere(a: Db, s: nat, h: seq<Message>, g: seq<Message>, p: nat, summary: string, first: nat,
                     r: seq<Message>,
                     rec: CompactionRecord, late: bool)
    requires Accounted(a.messages, a.compactions, a.saved, a.raced, s) && g <= Of(a.messages, s) && rec.session == s
    requires Compressed(h, g, p, summary, s, first, r) && rec.removed == |h| - (p + 1)
    requires SavedIn(a.saved, rec.archive) == Lines(g) && (late <==> h != Of(a.messages, s))
    ensures Accounted(Without(a.messages, s) + r, a.compactions + [rec], a.saved,
        if late then a.raced + {s} else a.raced, s)
  {
    hide Of, Without, RecordsOf, Compressed, FromSaved, Lines, Rebuilt;
    ReplacedRows(a.messages, s, h, g, p, summary, first, r);
    ReplacedRebuilt(a, s, h, g, p, summary, first, r, rec);
    LateLines(Of(a.messages, s), h);
  }

  lemma LateLines(now: seq<Message>, h: seq<Message>)
    requires h <= now
    ensures Lines(now[|h|..]) == [] <==> now == h
  {}

  /** What is given back lacks the messages that came after the first read. */
  lemma ReplacedRebuilt(a: Db, s: nat, h: seq<Message>, g: seq<Message>, p: nat, summary: string, first: nat,
                        r: seq<Message>,
                        rec: CompactionRecord)
    requires g <= Of(a.messages, s) && rec.session == s && SavedIn(a.saved, rec.archive) == Lines(g)
    requires Compressed(h, g, p, summary, s, first, r) && rec.removed == |h| - (p + 1)
    ensures h <= Of(a.messages, s)
    ensures Rebuilt(a.messages, a.compactions, a.saved, s) ==
      Rebuilt(Without(a.messages, s) + r, a.compactions + [rec], a.saved, s) + Lines(Of(a.messages, s)[|h|..])
  {
    hide Of, Without, RecordsOf, Compressed, FromSaved, Lines;
    var now, recs := Of(a.messages, s), RecordsOf(a.compactions, s);
    ReplacedRows(a.messages, s, h, g, p, summary, first, r);
    RecordsAppend(a.compactions, rec, s);
    RebuiltFromParts(a.saved, h, g, p, rec, recs, Lines(r));
    LinesSplit(now, h);
    Regroup(FromSaved(recs, a.saved), Lines(h)[if recs == [] then 0 else 1..], Lines(now[|h|..]));
  }

  lemma Regroup(a: seq<Line>, b: seq<Line>, c: seq<Line>)
    ensures a + (b + c) == a + b + c
  {}

  /** The session's rows after the replacement. */
  lemma ReplacedRows(ms: seq<Message>, s: nat, h: seq<Message>, g: seq<Message>, p: nat, summary: string, first: nat,
                     r: seq<Message>)
    requires Compressed(h, g, p, summary, s, first, r)
    ensures Of(Without(ms, s) + r, s) == r && |r| == p + 1 && 0 < p && p + 2 <= |h| && h <= g
    ensures |Lines(r)| == p + 1 && |Lines(h)| == |h| && Lines(r)[1..] == Lines(h)[|h| - p..]
  {
    OfElsewhere(h, g, p, summary, s, first, r, s);
    hide Of, Without;
    OfAppend(Without(ms, s), r, s);
    OfWithout(ms, s, s);
    assert [] + r == r;
  }

  lemma LinesSplit(now: seq<Message>, h: seq<Message>)
    requires h <= now && h != []
    ensures Lines(now) == Lines(h) + Lines(now[|h|..])
    ensures Lines(now)[1..] == Lines(h)[1..] + Lines(now[|h|..])
    ensures now != h ==> |Lines(now)| > |Lines(h)| > 0
  {
    LinesAppend(h, now[|h|..]);
    assert now == h + now[|h|..];
  }

  lemma RebuiltFromParts(saved: map<nat, seq<Line>>, h: seq<Message>, g: seq<Message>, p: nat, rec: CompactionRecord,
                         recs: seq<CompactionRecord>, lines: seq<Line>)
    requires 0 < p && p + 2 <= |h| && h <= g && |lines| == p + 1 && rec.removed == |h| - (p + 1)
        && lines[1..] == Lines(h)[|h| - p..]
    requires SavedIn(saved, rec.archive) == Lines(g)
    ensures FromSaved(recs + [rec], saved) + lines[1..] == FromSaved(recs, saved)
        + Lines(h)[if recs == [] then 0 else 1..]
  {
    assert (recs + [rec])[..|recs|] == recs;
    var lead := if recs == [] then 0 else 1;
    assert Part(Lines(g), rec.removed, recs == []) == Lines(h)[lead..|h| - p];
    assert Lines(h)[lead..|h| - p] + Lines(h)[|h| - p..] == Lines(h)[lead..];
  }

  lemma ReplacedKeepsGood(a: Db, s: nat, h: seq<Message>, g: seq<Message>, p: nat, summary: string, lines: seq<Line>,
                          ids: seq<Option<nat>>, rec: CompactionRecord, late: bool)
    requires Good(a) && g <= Of(a.messages, s) && Compacts(h, g, p, summary, lines, ids, rec)
        && (late <==> h != Of(a.messages, s))
    requires rec.session == s < rec.archive < a.nextId && SavedIn(a.saved, rec.archive) == Lines(g)
    requires Held(a, s, h) && rec.archive !in a.raced
    ensures Good(Replaced(a, s, lines, ids, rec, late))
  {
    hide Forest, IdsGood, RecordsGood, Accounted, Keeps, Of, Compress, ReplacementIds, NewRows, Lines, Compressed,
        GivenWith;
    var b, r := Replaced(a, s, lines, ids, rec, late), NewRows(lines, ids, s, a.nextId);
    CompactsRows(h, g, p, summary, lines, ids, rec, s, a.nextId);
    ReplacedKeepsIds(a, s, h, g, p, summary, lines, ids, rec, late);
    LinesLength(g);
    ReplacedKeepsRecords(a, s, lines, ids, rec, late);
    forall t: nat ensures Accounted(b.messages, b.compactions, b.saved, b.raced, t) {
      if t == s {
        ReplacedHere(a, s, h, g, p, summary, a.nextId, r, rec, late);
      } else {
        assert Of(r, t) == [] by { OfElsewhere(h, g, p, summary, s, a.nextId, r, t); }
        ReplacedElsewhere(a, s, r, rec, late, t);
      }
    }
    forall c <- b.compactions ensures Keeps(b.messages, b.compactions, b.saved, c) {
      if c in a.compactions {
        ReplacedKeepsKept(a, s, h, g, p, summary, a.nextId, r, rec, c);
      } else {
        OfElsewhere(h, g, p, summary, s, a.nextId, r, rec.archive);
        RecordIsKept(a, s, r, rec);
      }
    }
  }

  lemma OfElsewhere(h: seq<Message>, g: seq<Message>, p: nat, summary: string, s: nat, first: nat, r: seq<Message>,
                    t: nat)
    requires Compressed(h, g, p, summary, s, first, r)
    ensures Of(r, t) == if s == t then r else []
  {
    hide Of, Lines;
  }

  lemma LinesLength(h: seq<Message>)
    ensures |Lines(h)| == |h|
  {}

  /** The archive holds what was read, and the session still holds what it held. */
  lemma ArchiveFacts(db: Db, s: nat, root: nat, g: seq<Message>)
    requires s < db.nextId
    ensures var a := WithSession(db, Some(s), Some(root), None, g);
      Of(a.messages, s) == Of(db.messages, s) && SavedIn(a.saved, db.nextId) == Lines(g) && db.nextId < a.nextId
  {
    CopiesElsewhere(db.messages, g, db.nextId, s);
    hide Of, Copies, Lines;
  }

  lemma CopiesElsewhere(ms: seq<Message>, rows: seq<Message>, id: nat, s: nat)
    requires s != id
    ensures Of(ms + Copies(rows, id, id + 1), s) == Of(ms, s)
  {
    CopiesFacts(rows, id, id + 1);
    OfAppend(ms, Copies(rows, id, id + 1), s);
    hide Of, Copies;
    assert Of(ms, s) + [] == Of(ms, s);
  }

  lemma KnownIsBelow(db: Db, s: nat)
    requires IdsGood(db) && Known(db.sessions, s)
    ensures s < db.nextId
  {
    var i :| 0 <= i < |db.sessions| && db.sessions[i].id == s;
    assert db.sessions[i] in db.sessions;
  }

  lemma ArchiveHeld(db: Db, s: nat, root: nat, g: seq<Message>, h: seq<Message>)
    requires Good(db) && Held(db, s, h)
    ensures var a := WithSession(db, Some(s), Some(root), None, g); Held(a, s, h) && a.raced == db.raced
  {
    FreshHasNothing(db);
    SavedGrows(db, db.saved[db.nextId := Lines(g)], db.nextId + 1 + |g|, s);
    hide Good, FromSaved, RecordsOf, Lines, Copies;
  }

  lemma CompactedKeepsGood(db: Db, s: nat, h: seq<Message>, g: seq<Message>, p: nat, summary: string, lines: seq<Line>,
                           ids: seq<Option<nat>>, rec: CompactionRecord, late: bool)
    requires Good(db) && Known(db.sessions, s) && rec.session == s && Compacts(h, g, p, summary, lines, ids, rec)
    requires g <= Of(db.messages, s) && (late <==> h != Of(db.messages, s)) && Held(db, s, h)
    ensures Good(Compacted(db, s, RootColumn(db.sessions[Find(db.sessions, s)]), g, lines, ids, rec, late))
  {
    var root := RootColumn(db.sessions[Find(db.sessions, s)]);
    assert RootFits(db, Some(s), Some(root));
    KnownIsBelow(db, s);
    hide Good, Of, Find, NewRows, RootFits, RootColumn, WithSession, Compress, ReplacementIds, Lines;
    SessionKeepsGood(db, Some(s), Some(root), None, g);
    ArchiveFacts(db, s, root, g);
    ArchiveHeld(db, s, root, g, h);
    FreshHasNothing(db);
    ReplacedKeepsGood(WithSession(db, Some(s), Some(root), None, g), s, h, g, p, summary, lines, ids,
        rec.(archive := db.nextId), late);
  }

  function IndexOf(ms: seq<Message>, id: nat): (k: nat)
    ensures k <= |ms| && (k < |ms| ==> ms[k].id == id) && forall i | 0 <= i < k :: ms[i].id != id
  {
    if ms == [] || ms[0].id == id then 0 else 1 + IndexOf(ms[1..], id)
  }

  /** Cutting the table after a message cuts its session's history after that message. */
  lemma CutoffIsPrefix(ms: seq<Message>, s: nat, pos: nat)
    requires UniqueIds(ms) && pos < |ms| && ms[pos].session == s
    ensures var h := Of(ms, s); var k := IndexOf(h, ms[pos].id);
      k < |h| && Of(ms[..pos + 1], s) == h[..k + 1]
  {
    var front := Of(ms[..pos], s);
    CutParts(ms, s, pos);
    OfUnique(ms, s);
    hide Of;
    IndexIs(Of(ms, s), |front|);
  }

  lemma CutParts(ms: seq<Message>, s: nat, pos: nat)
    requires pos < |ms| && ms[pos].session == s
    ensures var h, k := Of(ms, s), |Of(ms[..pos], s)|;
      k < |h| && h[k] == ms[pos] && Of(ms[..pos + 1], s) == h[..k + 1]
  {
    var front, back := Of(ms[..pos], s), Of(ms[pos + 1..], s);
    assert ms == ms[..pos + 1] + ms[pos + 1..] && ms[..pos + 1] == ms[..pos] + [ms[pos]];
    OfAppend(ms[..pos], [ms[pos]], s);
    OfAppend(ms[..pos + 1], ms[pos + 1..], s);
    OfOne([ms[pos]], s, s);
    hide Of;
    assert Of(ms, s) == front + [ms[pos]] + back;
  }

  lemma IndexIs(h: seq<Message>, k: nat)
    requires UniqueIds(h) && k < |h|
    ensures IndexOf(h, h[k].id) == k
  {}

  lemma {:induction false} NoSuchMessage(ms: seq<Message>, s: nat, id: nat)
    requires forall m <- ms :: !(m.session == s && m.id == id)
    ensures IndexOf(Of(ms, s), id) == |Of(ms, s)|
  {
    OfMembers(ms, s);
    var k := IndexOf(Of(ms, s), id);
    assert forall i | 0 <= i < |Of(ms, s)| :: Of(ms, s)[i] in Of(ms, s);
  }
}
