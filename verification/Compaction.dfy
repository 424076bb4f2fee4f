/** Replacing a session's older messages by a summary, and rebuilding everything from the archives. */
module Compaction {
  import opened Prelude
  import opened SessionTables

  const SYSTEM := "system"
  const SUMMARY_HEAD := "[Conversation summary]\n"

  /** Compress: a summary line and the last preserve lines. The summary text comes from the provider or from
      the fallback. */
  function Compress(lines: seq<Line>, preserve: int, summary: string): seq<Line> {
    var p := if preserve < 0 then 0 else preserve;
    if |lines| <= p then lines else [Line(SYSTEM, SUMMARY_HEAD + summary)] + lines[|lines| - p..]
  }

  /** firstKeptMessageID. */
  function FirstKept(ms: seq<Message>, preserve: int): Option<nat> {
    if preserve <= 0 || |ms| <= preserve then None else Some(ms[|ms| - preserve].id)
  }

  /** The ids that the rows of the compressed history get; None means a fresh one. */
  function ReplacementIds(ms: seq<Message>, preserve: int, count: nat): seq<Option<nat>> {
    seq(count, i => if 0 < i <= preserve < |ms| then Some(ms[|ms| - preserve + i - 1].id) else None)
  }

  /** compactionReplacementMessageIDs. */
  method CompactionReplacementMessageIDs(ms: seq<Message>, preserve: int, count: nat) returns (ids: seq<Option<nat>>)
    ensures ids == ReplacementIds(ms, preserve, count)
  {
    ids := seq(count, i => None);
    if preserve <= 0 || |ms| <= preserve {
      assert forall i | 0 <= i < count :: ids[i] == ReplacementIds(ms, preserve, count)[i];
      return;
    }
    var kept := ms[|ms| - preserve..];
    var i := 0;
    while i < |kept| && i + 1 < |ids|
      invariant 0 <= i <= |kept| && |ids| == count
      invariant forall j | 0 <= j < count :: ids[j] == if 0 < j <= i then Some(kept[j - 1].id) else None
    {
      ids := ids[i + 1 := Some(kept[i].id)];
      i := i + 1;
    }
  }

  /** What one record adds when a session is rebuilt: its archive up to the kept messages, without the summary
      that an earlier compaction put first. */
  function Part(archived: seq<Line>, removed: nat, first: bool): seq<Line> {
    if removed < |archived| then archived[if first then 0 else 1..removed + 1] else []
  }

  /** The part of an archive is the archive without its last kept - 1 messages exactly if the archive is what the
      history read first was. */
  lemma PartIsArchiveWithoutKeptIff(history: seq<Line>, archived: seq<Line>, preserve: nat, summary: string,
                                    first: bool)
    requires preserve + 2 <= |history| && history <= archived
    ensures var kept := |Compress(history, preserve, summary)|;
      Part(archived, |history| - kept, first) == archived[if first then 0 else 1..|archived| - (kept - 1)]
      <==> archived == history
  {
    var lead, cut := if first then 0 else 1, |history| - preserve;
    assert |archived[lead..cut]| == cut - lead
        && |archived[lead..|archived| - preserve]| == |archived| - preserve - lead;
  }

  // ---- Rebuilding a session from the tables alone ----

  /** Everything ever saved in a session: the parts of its archives, which may have been compacted themselves,
      and the current history without its summary. Archives have larger ids; bound is above all ids. */
  function Full(ms: seq<Message>, cs: seq<CompactionRecord>, bound: nat, s: nat): seq<Line>
    decreases if s < bound then bound - s else 0, |cs| + 1
  {
    var recs := RecordsOf(cs, s);
    FromTables(ms, cs, bound, s, recs) + Tail(ms, s, recs != [])
  }

  function Tail(ms: seq<Message>, s: nat, compacted: bool): seq<Line> {
    var lines := Lines(Of(ms, s));
    if compacted && lines != [] then lines[1..] else lines
  }

  function FromTables(ms: seq<Message>, cs: seq<CompactionRecord>, bound: nat, s: nat,
                      recs: seq<CompactionRecord>): seq<Line>
    decreases if s < bound then bound - s else 0, 0, |recs|
  {
    if recs == [] then []
    else
      var n := |recs| - 1;
      var rec := recs[n];
      FromTables(ms, cs, bound, s, recs[..n])
      + if s < rec.archive < bound then Part(Full(ms, cs, bound, rec.archive), rec.removed, n == 0) else []
  }

  /** The same parts taken from what was saved in the archives. */
  function FromSaved(recs: seq<CompactionRecord>, saved: map<nat, seq<Line>>): seq<Line> {
    if recs == [] then []
    else
      var n := |recs| - 1;
      FromSaved(recs[..n], saved) + Part(SavedIn(saved, recs[n].archive), recs[n].removed, n == 0)
  }

  function SavedIn(saved: map<nat, seq<Line>>, s: nat): seq<Line> { if s in saved then saved[s] else [] }

  /** What the tables and what was saved in the archives give back of a session. */
  function Rebuilt(ms: seq<Message>, cs: seq<CompactionRecord>, saved: map<nat, seq<Line>>, s: nat): seq<Line> {
    var recs := RecordsOf(cs, s);
    FromSaved(recs, saved) + Tail(ms, s, recs != [])
  }

  /** The link between the tables and what was ever saved in a session. raced are the sessions in which a message
      was saved while a compaction was between its first read and its transaction: these give back too little. */
  ghost predicate Accounted(ms: seq<Message>, cs: seq<CompactionRecord>, saved: map<nat, seq<Line>>, raced: set<nat>,
                            s: nat) {
    && (RecordsOf(cs, s) != [] ==> Of(ms, s) != [])
    && (s !in raced ==> Rebuilt(ms, cs, saved, s) == SavedIn(saved, s))
    && (s in raced ==> |Rebuilt(ms, cs, saved, s)| < |SavedIn(saved, s)|)
  }

  ghost predicate RecordsGood(cs: seq<CompactionRecord>, saved: map<nat, seq<Line>>, bound: nat) {
    forall c <- cs :: c.session < c.archive < bound && c.removed < |SavedIn(saved, c.archive)|
  }

  /** What was removed when the archive of c was written is still given back of the archive, whatever happened to the
      archive since. */
  ghost predicate Keeps(ms: seq<Message>, cs: seq<CompactionRecord>, saved: map<nat, seq<Line>>, c: CompactionRecord) {
    var now, all := Rebuilt(ms, cs, saved, c.archive), SavedIn(saved, c.archive);
    c.removed < |now| && c.removed < |all| && now[..c.removed + 1] == all[..c.removed + 1]
  }

  /** A record's part is the same taken from what is given back of its archive and from what was saved there. */
  ghost predicate SamePart(ms: seq<Message>, cs: seq<CompactionRecord>, saved: map<nat, seq<Line>>,
                           c: CompactionRecord) {
    forall first: bool ::
        Part(Rebuilt(ms, cs, saved, c.archive), c.removed, first) == Part(SavedIn(saved, c.archive), c.removed, first)
  }

  lemma KeepsSamePart(ms: seq<Message>, cs: seq<CompactionRecord>, saved: map<nat, seq<Line>>, c: CompactionRecord)
    requires Keeps(ms, cs, saved, c)
    ensures SamePart(ms, cs, saved, c)
  {
    hide Rebuilt, SavedIn;
    var now, all := Rebuilt(ms, cs, saved, c.archive), SavedIn(saved, c.archive);
    forall first: bool ensures Part(now, c.removed, first) == Part(all, c.removed, first) {
      var lead := if first then 0 else 1;
      assert now[lead..c.removed + 1] == now[..c.removed + 1][lead..];
      assert all[lead..c.removed + 1] == all[..c.removed + 1][lead..];
    }
  }

  /** Rebuilding a session from the tables alone, down to the archives of its archives, gives back as much as taking
      the parts from what was saved in its archives. */
  lemma {:induction false} FullIsRebuilt(ms: seq<Message>, cs: seq<CompactionRecord>, saved: map<nat, seq<Line>>,
                                         bound: nat, s: nat)
    requires forall c <- cs | s <= c.session :: c.session < c.archive < bound && SamePart(ms, cs, saved, c)
    ensures Full(ms, cs, bound, s) == Rebuilt(ms, cs, saved, s)
    decreases if s < bound then bound - s else 0, |cs| + 1
  {
    RecordsMembers(cs, s);
    PartsAreSaved(ms, cs, saved, bound, s, RecordsOf(cs, s));
  }

  lemma {:induction false} PartsAreSaved(ms: seq<Message>, cs: seq<CompactionRecord>, saved: map<nat, seq<Line>>,
                                         bound: nat, s: nat, recs: seq<CompactionRecord>)
    requires forall c <- cs | s <= c.session :: c.session < c.archive < bound && SamePart(ms, cs, saved, c)
    requires forall c <- recs :: c in cs && c.session == s
    ensures FromTables(ms, cs, bound, s, recs) == FromSaved(recs, saved)
    decreases if s < bound then bound - s else 0, 0, |recs|
  {
    if recs != [] {
      var n := |recs| - 1;
      PartsAreSaved(ms, cs, saved, bound, s, recs[..n]);
      assert recs[n] in cs;
      hide Part, Full, Rebuilt, SavedIn;
      FullIsRebuilt(ms, cs, saved, bound, recs[n].archive);
      assert SamePart(ms, cs, saved, recs[n]);
    }
  }

  /** The tables alone give back everything ever saved in a session if and only if it was not raced. */
  lemma FullIsSavedIff(ms: seq<Message>, cs: seq<CompactionRecord>, saved: map<nat, seq<Line>>, raced: set<nat>,
                       bound: nat, s: nat)
    requires RecordsGood(cs, saved, bound) && forall c <- cs :: Keeps(ms, cs, saved, c)
    requires Accounted(ms, cs, saved, raced, s)
    ensures Full(ms, cs, bound, s) == SavedIn(saved, s) <==> s !in raced
  {
    hide Full, Rebuilt, Keeps, SamePart;
    forall c <- cs ensures SamePart(ms, cs, saved, c) { KeepsSamePart(ms, cs, saved, c); }
    FullIsRebuilt(ms, cs, saved, bound, s);
  }
}
