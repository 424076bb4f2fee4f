/** The session, message and compaction tables of the daemon. Rows stand in insertion order, which is the
    order of their row ids; a fresh id is a number that was never given out. */
module SessionTables {
  import opened Prelude

  datatype Session = Session(id: nat, parent: Option<nat>, root: Option<nat>, forkedFrom: Option<nat>)

  datatype Message = Message(id: nat, session: nat, role: string, content: string, toolName: string, toolCallId: string)

  /** What a message says, which is what compaction must not lose. */
  datatype Line = Line(role: string, content: string)

  datatype CompactionRecord = CompactionRecord(session: nat, removed: nat, kept: nat, firstKept: Option<nat>,
      archive: nat)

  function LineOf(m: Message): Line { Line(m.role, m.content) }

  function Lines(ms: seq<Message>): seq<Line> { seq(|ms|, i requires 0 <= i < |ms| => LineOf(ms[i])) }

  function Ids(ms: seq<Message>): seq<nat> { seq(|ms|, i requires 0 <= i < |ms| => ms[i].id) }

  /** The messages of one session, in order. */
  function Of(ms: seq<Message>, s: nat): seq<Message> {
    if ms == [] then []
    else Of(ms[..|ms| - 1], s) + if ms[|ms| - 1].session == s then [ms[|ms| - 1]] else []
  }

  /** The table after the messages of one session were deleted. */
  function Without(ms: seq<Message>, s: nat): seq<Message> {
    if ms == [] then []
    else Without(ms[..|ms| - 1], s) + if ms[|ms| - 1].session == s then [] else [ms[|ms| - 1]]
  }

  function RecordsOf(cs: seq<CompactionRecord>, s: nat): seq<CompactionRecord> {
    if cs == [] then []
    else RecordsOf(cs[..|cs| - 1], s) + if cs[|cs| - 1].session == s then [cs[|cs| - 1]] else []
  }

  /** Copies of messages under a new session, with fresh ids from first on. */
  function Copies(ms: seq<Message>, s: nat, first: nat): seq<Message> {
    seq(|ms|, i requires 0 <= i < |ms| => ms[i].(id := first + i, session := s))
  }

  lemma {:induction false} OfAppend(a: seq<Message>, b: seq<Message>, s: nat)
    ensures Of(a + b, s) == Of(a, s) + Of(b, s)
    decreases |b|
  {
    if b == [] {
      assert a + b == a;
    } else {
      var n := |b| - 1;
      assert (a + b)[..|a + b| - 1] == a + b[..n];
      OfAppend(a, b[..n], s);
    }
  }

  lemma {:induction false} OfOne(ms: seq<Message>, s: nat, t: nat)
    requires forall m <- ms :: m.session == s
    ensures Of(ms, t) == if s == t then ms else []
  {
    if ms != [] { OfOne(ms[..|ms| - 1], s, t); }
  }

  lemma {:induction false} OfNone(ms: seq<Message>, s: nat)
    requires forall m <- ms :: m.session != s
    ensures Of(ms, s) == []
  {
    if ms != [] { OfNone(ms[..|ms| - 1], s); }
  }

  lemma {:induction false} RecordsNone(cs: seq<CompactionRecord>, s: nat)
    requires forall c <- cs :: c.session != s
    ensures RecordsOf(cs, s) == []
  {
    if cs != [] { RecordsNone(cs[..|cs| - 1], s); }
  }

  lemma {:induction false} OfWithout(ms: seq<Message>, s: nat, t: nat)
    ensures Of(Without(ms, s), t) == if s == t then [] else Of(ms, t)
  {
    if ms != [] {
      var n := |ms| - 1;
      OfWithout(ms[..n], s, t);
      var x := ms[n];
      if x.session == s {
        assert Without(ms, s) == Without(ms[..n], s);
      } else {
        OfAppend(Without(ms[..n], s), [x], t);
        OfOne([x], x.session, t);
      }
    }
  }

  lemma {:induction false} OfMembers(ms: seq<Message>, s: nat)
    ensures forall m <- Of(ms, s) :: m in ms && m.session == s
  {
    if ms != [] { OfMembers(ms[..|ms| - 1], s); }
  }

  lemma {:induction false} WithoutMembers(ms: seq<Message>, s: nat)
    ensures forall m <- Without(ms, s) :: m in ms && m.session != s
  {
    if ms != [] { WithoutMembers(ms[..|ms| - 1], s); }
  }

  lemma RecordsAppend(cs: seq<CompactionRecord>, c: CompactionRecord, s: nat)
    ensures RecordsOf(cs + [c], s) == RecordsOf(cs, s) + if c.session == s then [c] else []
  {
    assert (cs + [c])[..|cs|] == cs;
  }

  lemma {:induction false} RecordsMembers(cs: seq<CompactionRecord>, s: nat)
    ensures forall c <- RecordsOf(cs, s) :: c in cs && c.session == s
  {
    if cs != [] { RecordsMembers(cs[..|cs| - 1], s); }
  }

  predicate UniqueIds(ms: seq<Message>) { forall i, j | 0 <= i < j < |ms| :: ms[i].id != ms[j].id }

  /** Every session's messages are distinct rows, also after the rest of the table changed. */
  lemma {:induction false} OfUnique(ms: seq<Message>, s: nat)
    requires UniqueIds(ms)
    ensures UniqueIds(Of(ms, s)) && UniqueIds(Without(ms, s))
    ensures forall a, b | a in Of(ms, s) && b in Without(ms, s) :: a.id != b.id
  {
    if ms != [] {
      var n := |ms| - 1;
      OfUnique(ms[..n], s);
      OfMembers(ms[..n], s);
      WithoutMembers(ms[..n], s);
      forall m | m in ms[..n] ensures m.id != ms[n].id {
        var i :| 0 <= i < n && ms[i] == m;
      }
    }
  }

  lemma UniqueAppend(a: seq<Message>, b: seq<Message>)
    requires UniqueIds(a) && UniqueIds(b) && forall x, y | x in a && y in b :: x.id != y.id
    ensures UniqueIds(a + b)
  {
    forall i, j | 0 <= i < j < |a + b| ensures (a + b)[i].id != (a + b)[j].id {
      if i < |a| <= j { assert a[i] in a && b[j - |a|] in b; }
    }
  }
}
