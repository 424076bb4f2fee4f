/** The daemon's session manager and the history operations of its chat service, over in-place tables. */
module SessionService {
  import opened Prelude
  import opened SessionTables
  import opened Lineage
  import opened Compaction
  import opened SessionDb
  import opened CompactionReads

  datatype CompactEnd = CompactFailed | NothingToCompress | HistoryCompacted

  /** The position of a session's message in the table, or the size of the table. */
  method RowOf(ms: seq<Message>, s: nat, id: nat) returns (pos: nat)
    ensures pos <= |ms| && (pos < |ms| ==> ms[pos].session == s && ms[pos].id == id)
    ensures pos == |ms| ==> forall m <- ms :: !(m.session == s && m.id == id)
  {
    pos := 0;
    while pos < |ms| && !(ms[pos].session == s && ms[pos].id == id)
      invariant pos <= |ms| && forall i | 0 <= i < pos :: !(ms[i].session == s && ms[i].id == id)
    {
      pos := pos + 1;
    }
  }

  /** The query of ListTree on the id and root columns. */
  method TreeOf(ss: seq<Session>, id: nat, root: nat) returns (ids: seq<nat>)
    requires Forest(ss) && Known(ss, id) && root == RootColumn(ss[Find(ss, id)])
    ensures ids == Family(ss, ss, RootOf(ss, id))
  {
    hide Forest, RootOf, Find, RootColumn;
    ids := [];
    for i := 0 to |ss|
      invariant ids == Family(ss[..i], ss, RootOf(ss, id))
    {
      assert ss[..i + 1][..i] == ss[..i];
      RootIdMatches(ss, i, id);
      if ss[i].id == root || ss[i].root == Some(root) { ids := ids + [ss[i].id]; }
    }
    assert ss[..|ss|] == ss;
  }

  class SessionManager {
    var sessions: seq<Session>
    var messages: seq<Message>
    var compactions: seq<CompactionRecord>
    var nextId: nat
    ghost var saved: map<nat, seq<Line>>
    ghost var raced: set<nat>

    ghost function Tables(): Db
      reads this
    {
      Db(sessions, messages, compactions, nextId, saved, raced)
    }

    /** The columns agree with the parent chains, ids are unique, and the tables hold everything ever saved but for
        raced sessions. */
    ghost predicate Valid()
      reads this
    {
      Good(Tables())
    }

    constructor ()
      ensures Valid() && sessions == [] && messages == [] && saved == map[] && raced == {}
    {
      sessions, messages, compactions, nextId, saved, raced := [], [], [], 0, map[], {};
    }

    method Get(id: nat) returns (x: Option<Session>)
      ensures x == if Known(sessions, id) then Some(sessions[Find(sessions, id)]) else None
    {
      var i := |sessions|;
      assert sessions[..i] == sessions;
      while i > 0
        invariant 0 <= i <= |sessions|
        invariant Known(sessions, id) <==> Known(sessions[..i], id)
        invariant Known(sessions[..i], id) ==> Find(sessions, id) == Find(sessions[..i], id)
      {
        i := i - 1;
        KnownOneMore(sessions, i, id);
        if sessions[i].id == id { return Some(sessions[i]); }
      }
      return None;
    }

    /** Create: a session of its own. */
    method Create() returns (id: nat)
      requires Valid()
      modifies this
      ensures Valid() && id == old(nextId) && Tables() == WithSession(old(Tables()), None, None, None, [])
      ensures OneMoreSession(old(Tables()), Tables(), None, None, [])
    {
      SessionIsOneMore(Tables(), None, None, None, []);
      SessionKeepsGood(Tables(), None, None, None, []);
      id := nextId;
      sessions := sessions + [Session(id, None, Some(id), None)];
      nextId := nextId + 1;
      saved := saved[id := []];
      assert Copies([], id, id + 1) == [] && Lines([]) == [] && messages + [] == messages;
    }

    /** saveMessage; the caller has loaded the session. */
    method SaveMessage(s: nat, role: string, content: string, toolName: string, toolCallId: string)
      requires Valid() && Known(sessions, s)
      modifies this
      ensures Valid() && Tables() == Saved(old(Tables()), s, role, content, toolName, toolCallId)
      ensures OneMoreMessage(old(Tables()), Tables(), s, role, content, toolName, toolCallId)
    {
      KnownIsBelow(Tables(), s);
      SaveKeepsGood(Tables(), s, role, content, toolName, toolCallId);
      messages := messages + [Message(nextId, s, role, content, toolName, toolCallId)];
      nextId := nextId + 1;
      saved := saved[s := SavedIn(saved, s) + [Line(role, content)]];
    }

    /** The loop that copies rows to a new session. */
    method InsertCopies(rows: seq<Message>, s: nat)
      modifies this`messages, this`nextId
      ensures messages == old(messages) + Copies(rows, s, old(nextId)) && nextId == old(nextId) + |rows|
    {
      for i := 0 to |rows|
        invariant messages == old(messages) + Copies(rows, s, old(nextId))[..i] && nextId == old(nextId) + i
      {
        var m := rows[i].(id := nextId, session := s);
        assert Copies(rows, s, old(nextId))[..i + 1] == Copies(rows, s, old(nextId))[..i] + [m];
        messages := messages + [m];
        nextId := nextId + 1;
      }
      assert Copies(rows, s, old(nextId))[..|rows|] == Copies(rows, s, old(nextId));
    }

    /** createChild: one transaction; a cutoff of 0 copies the whole history. */
    method CreateChild(source: Session, forkedFrom: Option<nat>, cutoff: nat, commits: bool) returns (id: Option<nat>)
      requires Valid() && Known(sessions, source.id) && source == sessions[Find(sessions, source.id)]
          && cutoff <= |messages|
      modifies this
      ensures Valid() && (id.None? ==> !commits && Tables() == old(Tables()))
      ensures id.Some? ==> commits && id.value == old(nextId)
      ensures id.Some? ==>
        OneMoreSession(old(Tables()), Tables(), Some(source.id), forkedFrom,
                       Of(if cutoff == 0 then old(messages) else old(messages)[..cutoff], source.id))
      ensures id.Some? ==>
        Tables() == WithSession(old(Tables()), Some(source.id), Some(RootColumn(source)), forkedFrom,
                                Of(if cutoff == 0 then old(messages) else old(messages)[..cutoff], source.id))
    {
      hide Good, Of, Lines, Copies, RootColumn, Find, OneMoreSession;
      if !commits { return None; }
      var rows := Of(if cutoff == 0 then messages else messages[..cutoff], source.id);
      ghost var before := Tables();
      SessionKeepsGood(before, Some(source.id), Some(RootColumn(source)), forkedFrom, rows);
      SessionIsOneMore(before, Some(source.id), Some(RootColumn(source)), forkedFrom, rows);
      var s := nextId;
      sessions := sessions + [Session(s, Some(source.id), Some(RootColumn(source)), forkedFrom)];
      nextId := nextId + 1;
      InsertCopies(rows, s);
      saved := saved[s := Lines(rows)];
      return Some(s);
    }

    /** Clone: a child with all messages of the source. */
    method Clone(sourceId: nat, commits: bool) returns (id: Option<nat>)
      requires Valid()
      modifies this
      ensures Valid() && (id.None? <==> !commits || !old(Known(sessions, sourceId)))
          && (id.None? ==> Tables() == old(Tables()))
      ensures id.Some? ==> id.value == old(nextId)
      ensures id.Some? ==>
        OneMoreSession(old(Tables()), Tables(), Some(sourceId), None, Of(old(messages), sourceId))
      ensures id.Some? ==>
        Tables() == WithSession(old(Tables()), Some(sourceId),
                                Some(RootColumn(old(sessions)[Find(old(sessions), sourceId)])), None,
                                Of(old(messages), sourceId))
    {
      hide Good, Of, WithSession, RootColumn, Find, OneMoreSession;
      var source := Get(sourceId);
      if source.None? { return None; }
      id := CreateChild(source.value, None, 0, commits);
    }

    /** Fork: a child with the source's messages up to and including the chosen one. */
    method Fork(sourceId: nat, messageId: nat, commits: bool) returns (id: Option<nat>)
      requires Valid()
      modifies this
      ensures Valid() && (id.None? ==> Tables() == old(Tables()))
      ensures var h := Of(old(messages), sourceId);
        id.Some? <==> commits && old(Known(sessions, sourceId)) && IndexOf(h, messageId) < |h|
      ensures id.Some? ==> id.value == old(nextId)
      ensures var h := Of(old(messages), sourceId);
        id.Some? ==>
          && Tables() == WithSession(old(Tables()), Some(sourceId),
                                     Some(RootColumn(old(sessions)[Find(old(sessions), sourceId)])),
                                     Some(messageId), h[..IndexOf(h, messageId) + 1])
          && OneMoreSession(old(Tables()), Tables(), Some(sourceId), Some(messageId), h[..IndexOf(h, messageId) + 1])
    {
      hide Good, Of, WithSession, RootColumn, Find, IndexOf, UniqueIds, OneMoreSession, Known;
      GoodIdsAreUnique(Tables());
      var source := Get(sourceId);
      if source.None? { return None; }
      var pos := RowOf(messages, sourceId, messageId);
      if pos == |messages| {
        NoSuchMessage(messages, sourceId, messageId);
        return None;
      }
      CutoffIsPrefix(messages, sourceId, pos);
      id := CreateChild(source.value, Some(messageId), pos + 1, commits);
    }

    /** ListTree: exactly the sessions whose parent chain ends where the given session's does. */
    method ListTree(id: nat) returns (tree: Option<seq<nat>>)
      requires Valid()
      ensures tree.None? <==> !Known(sessions, id)
      ensures tree.Some? ==> forall x: nat ::
          x in tree.value <==> Known(sessions, x) && RootOf(sessions, x) == RootOf(sessions, id)
      ensures tree.Some? ==> InRowOrder(sessions, tree.value)
    {
      var session := Get(id);
      if session.None? { return None; }
      var ids := TreeOf(sessions, id, RootColumn(session.value));
      FamilyMembers(sessions, sessions, RootOf(sessions, id));
      FamilyOrder(sessions, sessions, RootOf(sessions, id));
      return Some(ids);
    }

    /** The loop that inserts the compressed history. */
    method InsertCompressed(lines: seq<Line>, ids: seq<Option<nat>>, s: nat)
      requires |ids| == |lines|
      modifies this`messages, this`nextId
      ensures messages == old(messages) + NewRows(lines, ids, s, old(nextId)) && nextId == old(nextId) + |lines|
    {
      assert lines[..0] == [] && ids[..0] == [];
      var left := ids;
      for i := 0 to |lines|
        invariant left == ids[i..] && nextId == old(nextId) + i
        invariant messages == old(messages) + NewRows(lines[..i], ids[..i], s, old(nextId))
      {
        var id := nextId;
        if |left| > 0 {
          if left[0].Some? { id := left[0].value; }
          left := left[1..];
        }
        assert lines[..i + 1] == lines[..i] + [lines[i]] && ids[..i + 1][..i] == ids[..i];
        NewRowsAppend(lines[..i], lines[i], ids[..i + 1], s, old(nextId));
        messages := messages + [Message(id, s, lines[i].role, lines[i].content, "", "")];
        nextId := nextId + 1;
      }
      assert lines[..|lines|] == lines && ids[..|ids|] == ids;
    }

    /** compactHistoryWithArchive: one transaction. */
    method CompactHistoryWithArchive(source: Session, original: seq<Message>, lines: seq<Line>, ids: seq<Option<nat>>,
                                     rec: CompactionRecord, ghost late: bool, commits: bool)
      returns (archive: Option<nat>)
      requires |ids| == |lines|
      modifies this
      ensures archive.None? <==> !commits
      ensures archive.None? ==> Tables() == old(Tables())
      ensures archive.Some? ==> archive.value == old(nextId)
      ensures archive.Some? ==>
        Tables() == Compacted(old(Tables()), source.id, RootColumn(source), original, lines, ids, rec, late)
    {
      if !commits { return None; }
      var a := nextId;
      sessions := sessions + [Session(a, Some(source.id), Some(RootColumn(source)), None)];
      nextId := nextId + 1;
      InsertCopies(original, a);
      saved := saved[a := Lines(original)];
      messages := Without(messages, source.id);
      InsertCompressed(lines, ids, source.id);
      compactions := compactions + [rec.(archive := a)];
      if late { raced := raced + {source.id}; }
      return Some(a);
    }

    /** Other requests save messages. */
    method Arrive(xs: seq<Arrival>)
      requires Valid() && forall x <- xs :: Known(sessions, x.session)
      modifies this
      ensures Valid() && Tables() == Arrived(old(Tables()), xs) && sessions == old(sessions)
    {
      hide Good, Known;
      assert xs[..0] == [];
      for i := 0 to |xs|
        invariant Valid() && Tables() == Arrived(old(Tables()), xs[..i]) && sessions == old(sessions)
      {
        assert xs[..i + 1][..i] == xs[..i];
        SaveMessage(xs[i].session, xs[i].role, xs[i].content, xs[i].toolName, xs[i].toolCallId);
      }
      assert xs[..|xs|] == xs;
    }

    /** loadHistory. */
    method LoadHistory(s: nat) returns (history: seq<Line>)
      ensures history == Lines(Of(messages, s))
    {
      history := Lines(Of(messages, s));
    }

    /** ListMessages. */
    method ListMessages(s: nat) returns (ms: Option<seq<Message>>)
      ensures ms == if Known(sessions, s) then Some(Of(messages, s)) else None
    {
      var session := Get(s);
      return if session.None? then None else Some(Of(messages, s));
    }

    /** handleCompact, and the automatic compaction: messages arrive between its two reads of the history and
        between the second read and its transaction, while it waits for the summary. The compaction shows what it
        should; nothing vanishes exactly if no message of the session arrived after the second read; the kept
        lines keep their ids exactly if none arrived between the reads; and the session is raced from then on
        exactly if one arrived at all. */
    method Compact(s: nat, configured: int, summary: string, between: seq<Arrival>, after: seq<Arrival>, commits: bool)
      returns (e: CompactEnd)
      requires Valid() && forall x <- between + after :: Known(sessions, x.session)
      modifies this
      ensures Valid()
      ensures var second := Arrived(old(Tables()), between); var last := Arrived(second, after);
              var h, g, p := Of(old(messages), s), Of(second.messages, s), if configured <= 0 then 10 else configured;
        && (e.NothingToCompress? <==> old(Known(sessions, s)) && |h| <= p + 1)
        && (e.HistoryCompacted? <==> old(Known(sessions, s)) && |h| > p + 1 && commits)
        && (!e.HistoryCompacted? ==> Tables() == last)
        && (e.HistoryCompacted? ==>
              && Known(last.sessions, s) && Reads(last, s, h, g, p)
                  && Tables() == AfterCompaction(last, s, h, g, p, summary)
              && Shows(h, g, p, summary, messages, s, last.nextId)
              && Told(last, s, h, g, p, messages, raced, between, after)
              && Kept(last, Tables(), s, h, g, p))
    {
      hide Good, Of, Lines, Known, Arrived, Compress, ReplacementIds, Compacted, RootColumn, Find, Shows, Told,
          Reads, Kept;
      ghost var db0 := Tables();
      ghost var h := Of(messages, s);
      var history := LoadHistory(s);
      Arrive(between);
      ghost var db1 := Tables();
      var records := ListMessages(s);
      Arrive(after);
      ghost var db := Tables();
      if records.None? { return CompactFailed; }
      var g := records.value;
      var preserve: nat := if configured <= 0 then 10 else configured;
      var lines := Compress(history, preserve, summary);
      CompressLength(h, preserve, summary);
      LinesLength(h);
      var removed := |history| - |lines|;
      if removed <= 0 { return NothingToCompress; }
      var ids := CompactionReplacementMessageIDs(g, preserve, |lines|);
      var session := Get(s);
      if session.None? { return CompactFailed; }
      ReadsMeanwhile(db0, between, after, s, preserve);
      ArrivedHeld(db0, between + after, s);
      ArrivedTwice(db0, between, after);
      LengthOfIds(g, preserve, |lines|);
      var rec := CompactionRecord(s, removed, |lines|, FirstKept(g, preserve), 0);
      var archive := CompactHistoryWithArchive(session.value, g, lines, ids, rec, h != Of(messages, s), commits);
      if archive.None? { return CompactFailed; }
      assert Tables() == AfterCompaction(db, s, h, g, preserve, summary);
      ReadsAreGood(db, s, h, g, preserve);
      CompactionKeepsGood(db, s, h, g, preserve, summary);
      CompactionShows(db, s, h, g, preserve, summary);
      CompactionKept(db, s, h, g, preserve, summary);
      Tells(db0, between, after, s, preserve, summary);
      return HistoryCompacted;
    }
  }

  lemma GoodIdsAreUnique(db: Db)
    requires Good(db)
    ensures UniqueIds(db.messages)
  {}

  lemma KnownOneMore(ss: seq<Session>, i: nat, id: nat)
    requires i < |ss|
    ensures Known(ss[..i + 1], id) <==> Known(ss[..i], id) || ss[i].id == id
    ensures Known(ss[..i + 1], id) ==> Find(ss[..i + 1], id) == if ss[i].id == id then i else Find(ss[..i], id)
  {
    assert ss[..i + 1][..i] == ss[..i];
    if k :| 0 <= k < i && ss[..i][k].id == id { assert ss[..i + 1][k].id == id; }
    if ss[i].id == id { assert ss[..i + 1][i].id == id; }
    var t := ss[..i + 1];
    if k :| 0 <= k < |t| && t[k].id == id { assert k < i ==> ss[..i][k].id == id; }
  }

  /** The query on the id and root columns finds a row exactly if its chain ends at the same root. */
  lemma RootIdMatches(ss: seq<Session>, i: nat, id: nat)
    requires Forest(ss) && Known(ss, id) && i < |ss|
    ensures var root := RootColumn(ss[Find(ss, id)]);
      root == RootOf(ss, id) && (ss[i].id == root || ss[i].root == Some(root) <==> RootOf(ss, ss[i].id) == root)
  {
    var root := RootOf(ss, id);
    assert RootColumn(ss[Find(ss, id)]) == root && RootColumn(ss[i]) == RootOf(ss, ss[i].id);
    RootHasNoParent(ss, id);
    RootIsItsOwn(ss, root);
    var k := Find(ss, root);
    if ss[i].id == root { assert i == k; }
  }

  lemma RootIsItsOwn(ss: seq<Session>, root: nat)
    requires Forest(ss) && Known(ss, root) && ss[Find(ss, root)].parent.None?
    ensures RootOf(ss, root) == root
    decreases |ss|
  {
    var n := |ss| - 1;
    if ss[n].id != root {
      PrefixIsForest(ss);
      KnownBefore(ss, root);
      RootIsItsOwn(ss[..n], root);
    }
  }

  lemma CompressLength(h: seq<Message>, p: nat, summary: string)
    ensures |Compress(Lines(h), p, summary)| == if |h| <= p then |h| else p + 1
  {}

  lemma LengthOfIds(g: seq<Message>, p: nat, n: nat)
    ensures |ReplacementIds(g, p, n)| == n
  {}
}
