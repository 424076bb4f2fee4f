/** The audit log as bytes: appends that may stop after any byte, and readers that drop a torn tail. */
module AuditLog {
  import opened Prelude
  import opened BackgroundDisk
  import opened Lines

  /** The JSON encoding of a record, of which only this is used: a line is not blank, holds no newline,
      and decodes to the record it encodes. */
  datatype Codec = Codec(encode: Record -> seq<Byte>, decode: seq<Byte> -> Option<Record>) {
    ghost predicate Faithful() {
      forall r: Record :: NEWLINE !in encode(r) && !BlankLine(encode(r)) && decode(encode(r)) == Some(r)
    }

    function Line(r: Record): seq<Byte> { encode(r) + [NEWLINE] }

    /** A log of whole lines. */
    function Log(rs: seq<Record>): seq<Byte> {
      if rs == [] then [] else Line(rs[0]) + Log(rs[1..])
    }

    /** What the parse loop of readRepair makes of whole lines: every line must decode to a valid record. */
    function Parse(data: seq<Byte>): Option<seq<Record>>
      decreases |data|
    {
      if data == [] then Some([])
      else
        var k := FirstNewline(data);
        if k >= |data| || BlankLine(data[..k]) then None
        else
          var r := decode(data[..k]);
          if r.None? || !ValidRecord(r.value) then None
          else
            Prefixed([r.value], Parse(data[k + 1..]))
    }

    /** The file after a reader repaired it. */
    function Repaired(data: seq<Byte>): seq<Byte> { data[..Whole(data)] }

    function ReadBytes(data: seq<Byte>): Option<seq<Record>> { Parse(Repaired(data)) }

    /** The file after an append that wrote cut bytes of its line, or less if the line is shorter. */
    function Appended(data: seq<Byte>, r: Record, cut: nat): seq<Byte> {
      if !ValidRecord(r) then data
      else if ReadBytes(data).None? || HasId(ReadBytes(data).value, r.id) then Repaired(data)
      else Repaired(data) + Line(r)[..if cut < |Line(r)| then cut else |Line(r)|]
    }
  }

  function Prefixed(rs: seq<Record>, rest: Option<seq<Record>>): Option<seq<Record>> {
    if rest.None? then None else Some(rs + rest.value)
  }

  lemma PrefixedByNone(rest: Option<seq<Record>>)
    ensures Prefixed([], rest) == rest
  {
    if rest.Some? { assert [] + rest.value == rest.value; }
  }

  lemma PrefixedNothing(c: Codec, rs: seq<Record>)
    ensures Prefixed(rs, c.Parse([])) == Some(rs)
  {
    assert rs + [] == rs;
  }

  lemma PrefixedNone(rs: seq<Record>)
    ensures Prefixed(rs, None) == None
  {}

  lemma PrefixedTwice(rs: seq<Record>, r: Record, rest: Option<seq<Record>>)
    ensures Prefixed(rs, Prefixed([r], rest)) == Prefixed(rs + [r], rest)
  {
    if rest.Some? { assert rs + ([r] + rest.value) == rs + [r] + rest.value; }
  }

  /** One turn of the parse loop. */
  lemma ParseStep(c: Codec, data: seq<Byte>)
    requires data != [] && data[|data| - 1] == NEWLINE
    ensures var k := FirstNewline(data);
      && k < |data|
      && (var r := c.decode(data[..k]);
          c.Parse(data) ==
          if BlankLine(data[..k]) || r.None? || !ValidRecord(r.value) then None
          else Prefixed([r.value], c.Parse(data[k + 1..])))
  {
    hide ValidRecord, BlankLine, FirstNewline, Prefixed;
    EndsInNewline(data);
  }

  lemma EndsInNewline(data: seq<Byte>)
    requires data != [] && data[|data| - 1] == NEWLINE
    ensures FirstNewline(data) < |data|
  {
    assert data[..|data|] == data && data[|data| - 1] in data;
  }

  lemma ParseLine(c: Codec, r: Record, rest: seq<Byte>)
    requires c.Faithful() && ValidRecord(r)
    ensures c.Parse(c.Line(r) + rest) == Prefixed([r], c.Parse(rest))
  {
    hide ValidRecord;
    var data, k := c.Line(r) + rest, |c.encode(r)|;
    assert c.decode(c.encode(r)) == Some(r);
    assert data[..k] == c.encode(r) && data[k + 1..] == rest && data[k] == NEWLINE;
    FirstNewlineIs(data, k);
  }

  lemma {:induction false} ParseLog(c: Codec, rs: seq<Record>)
    requires c.Faithful() && forall r <- rs :: ValidRecord(r)
    ensures c.Parse(c.Log(rs)) == Some(rs)
  {
    hide ValidRecord;
    if rs != [] {
      ParseLog(c, rs[1..]);
      ParseLine(c, rs[0], c.Log(rs[1..]));
      assert rs == [rs[0]] + rs[1..];
    }
  }

  lemma {:induction false} LogAppend(c: Codec, rs: seq<Record>, r: Record)
    ensures c.Log(rs + [r]) == c.Log(rs) + c.Line(r)
  {
    if rs == [] {
      assert c.Log([r]) == c.Line(r) + c.Log([]);
      assert [] + [r] == [r];
    } else {
      assert (rs + [r])[1..] == rs[1..] + [r];
      LogAppend(c, rs[1..], r);
    }
  }

  lemma {:induction false} LogEndsLine(c: Codec, rs: seq<Record>)
    ensures c.Log(rs) == [] || c.Log(rs)[|c.Log(rs)| - 1] == NEWLINE
  {
    if rs != [] { LogEndsLine(c, rs[1..]); }
  }

  /** The file holds these records and a tail without a newline. */
  ghost predicate Holds(c: Codec, data: seq<Byte>, rs: seq<Record>) {
    && c.Faithful() && (forall r <- rs :: ValidRecord(r)) && UniqueIds(rs)
    && c.Log(rs) <= data && NEWLINE !in data[|c.Log(rs)|..]
  }

  lemma HoldsMeans(c: Codec, data: seq<Byte>, rs: seq<Record>)
    requires Holds(c, data, rs)
    ensures c.Repaired(data) == c.Log(rs) && c.ReadBytes(data) == Some(rs)
  {
    hide ValidRecord, UniqueIds;
    var n := |c.Log(rs)|;
    LogEndsLine(c, rs);
    assert data == c.Log(rs) + data[n..];
    WholeIs(c.Log(rs), data[n..]);
    ParseLog(c, rs);
  }

  lemma RepairedHolds(c: Codec, data: seq<Byte>, rs: seq<Record>)
    requires Holds(c, data, rs)
    ensures Holds(c, c.Repaired(data), rs)
  {
    HoldsMeans(c, data, rs);
  }

  /** The reference: what has been recorded after an append that wrote cut bytes. */
  function RecordedAfter(c: Codec, rs: seq<Record>, r: Record, cut: nat): seq<Record> {
    if ValidRecord(r) && !HasId(rs, r.id) && cut >= |c.Line(r)| then rs + [r] else rs
  }

  lemma AppendedHolds(c: Codec, data: seq<Byte>, rs: seq<Record>, r: Record, cut: nat)
    requires Holds(c, data, rs)
    ensures Holds(c, c.Appended(data, r, cut), RecordedAfter(c, rs, r, cut))
  {
    HoldsMeans(c, data, rs);
    if ValidRecord(r) && !HasId(rs, r.id) {
      var data' := c.Appended(data, r, cut);
      if cut >= |c.Line(r)| {
        LogAppend(c, rs, r);
        assert data' == c.Log(rs + [r]);
      } else {
        assert data'[|c.Log(rs)|..] == c.encode(r)[..cut];
      }
    }
  }

  lemma AppendedMeans(c: Codec, data: seq<Byte>, r: Record, cut: nat)
    requires ValidRecord(r) && c.ReadBytes(data).Some? && !HasId(c.ReadBytes(data).value, r.id)
    ensures c.Appended(data, r, cut) == c.Repaired(data) + c.Line(r)[..if cut < |c.Line(r)| then cut else |c.Line(r)|]
  {}

  /** One append of a run: the record, how many bytes of its line reached the file, and whether a torn
      tail it met could be cut off (if not, the append stops there). */
  datatype Attempt = Attempt(record: Record, cut: nat, repairs: bool)

  function RunAppends(c: Codec, data: seq<Byte>, run: seq<Attempt>): seq<Byte>
    decreases |run|
  {
    if run == [] then data
    else
      var before := RunAppends(c, data, run[..|run| - 1]);
      var last := run[|run| - 1];
      if !last.repairs && c.Repaired(before) != before then before else c.Appended(before, last.record, last.cut)
  }

  /** The records of a run whose newline was written, in order. */
  function WrittenBy(c: Codec, run: seq<Attempt>): seq<Record>
    decreases |run|
  {
    if run == [] then []
    else
      var before, last := WrittenBy(c, run[..|run| - 1]), run[|run| - 1];
      var torn := RunAppends(c, [], run[..|run| - 1]) != c.Repaired(RunAppends(c, [], run[..|run| - 1]));
      if !last.repairs && torn then before else RecordedAfter(c, before, last.record, last.cut)
  }

  /** For any run of appends, each cut at an arbitrary byte, a reader gets exactly the records whose
      newline was written, in order and without a repeated id. */
  lemma {:induction false} ReadYieldsWritten(c: Codec, run: seq<Attempt>)
    requires c.Faithful()
    ensures c.ReadBytes(RunAppends(c, [], run)) == Some(WrittenBy(c, run))
    ensures UniqueIds(WrittenBy(c, run)) && Holds(c, RunAppends(c, [], run), WrittenBy(c, run))
    decreases |run|
  {
    if run != [] {
      var before, last := run[..|run| - 1], run[|run| - 1];
      ReadYieldsWritten(c, before);
      AppendedHolds(c, RunAppends(c, [], before), WrittenBy(c, before), last.record, last.cut);
    }
    HoldsMeans(c, RunAppends(c, [], run), WrittenBy(c, run));
  }

  /** The parse loop of readRepair. */
  method ParseLines(c: Codec, data: seq<Byte>) returns (records: Option<seq<Record>>)
    requires data == [] || data[|data| - 1] == NEWLINE
    ensures records == c.Parse(data)
  {
    hide ValidRecord, BlankLine, Codec.Parse, Prefixed;
    var rs: seq<Record>, rest := [], data;
    PrefixedByNone(c.Parse(data));
    while rest != []
      invariant rest == [] || rest[|rest| - 1] == NEWLINE
      invariant c.Parse(data) == Prefixed(rs, c.Parse(rest))
      decreases |rest|
    {
      ParseStep(c, rest);
      var k := FirstNewline(rest);
      var r := c.decode(rest[..k]);
      if BlankLine(rest[..k]) || r.None? || !ValidRecord(r.value) {
        PrefixedNone(rs);
        return None;
      }
      PrefixedTwice(rs, r.value, c.Parse(rest[k + 1..]));
      rs, rest := rs + [r.value], rest[k + 1..];
    }
    PrefixedNothing(c, rs);
    return Some(rs);
  }

  /** Append's search for a record that already has this id. */
  method Repeats(records: seq<Record>, id: string) returns (repeated: bool)
    ensures repeated <==> HasId(records, id)
  {
    for i := 0 to |records|
      invariant forall j | 0 <= j < i :: records[j].id != id
    {
      if records[i].id == id { return true; }
    }
    return false;
  }

  lemma WholeOfRepaired(data: seq<Byte>)
    ensures Whole(data) == |data| <==> data == [] || data[|data| - 1] == NEWLINE
    ensures data[..|data|] == data
  {
    if data != [] && data[|data| - 1] != NEWLINE { assert Whole(data) < |data|; }
  }

  datatype RepairEnd = CutOff | CutOffUnsynced | NotCutOff

  datatype AppendEnd = Accepted | Rejected | CommitUnconfirmed

  /** The end of an append as a durable write. */
  function WriteOf(e: AppendEnd): Write {
    match e
    case Accepted => Confirmed
    case Rejected => NotApplied
    case CommitUnconfirmed => Unconfirmed
  }

  /** How the file operations of one append end: whether the file opens and can be read, the repair of a torn tail,
      the number of bytes written
      and whether the write reported an error, the sync, close and directory sync that follow, and the
      release of the file lock. */
  datatype AppendIo = AppendIo(opens: bool, repair: RepairEnd, written: nat, writeFails: bool, flushFails: bool,
      unlockFails: bool)

  /** How an append ends: the newline decides between an error that committed nothing and one that did. */
  function AppendEndOf(c: Codec, data: seq<Byte>, committed: seq<Record>, r: Record, io: AppendIo): AppendEnd {
    if !ValidRecord(r) || !io.opens || (Whole(data) < |data| && !io.repair.CutOff?) then Rejected
    else if HasId(committed, r.id) then if io.flushFails || io.unlockFails then Rejected else Accepted
    else if io.written < |c.Line(r)| then Rejected
    else if io.writeFails || io.flushFails || io.unlockFails then CommitUnconfirmed
    else Accepted
  }

  lemma LastHasId(rs: seq<Record>, r: Record)
    ensures HasId(rs + [r], r.id)
  {
    assert (rs + [r])[|rs|] == r;
  }

  class AuditFile {
    var data: seq<Byte>
    const codec: Codec
    ghost var committed: seq<Record>

    constructor (codec: Codec)
      requires codec.Faithful()
      ensures Valid() && committed == [] && this.codec == codec
    {
      this.data, this.codec, this.committed := [], codec, [];
    }

    ghost predicate Valid()
      reads this
    {
      Holds(codec, data, committed)
    }

    /** readRepair: cut off a torn tail, then parse line by line. */
    method ReadRepair(repair: RepairEnd) returns (records: Option<seq<Record>>)
      modifies this`data
      ensures Whole(old(data)) == |old(data)| ==> data == old(data)
      ensures Whole(old(data)) < |old(data)|
          ==> data == if repair.NotCutOff? then old(data) else codec.Repaired(old(data))
      ensures records == if Whole(old(data)) < |old(data)| && !repair.CutOff? then None else codec.ReadBytes(old(data))
    {
      if |data| > 0 && data[|data| - 1] != NEWLINE {
        if !repair.NotCutOff? { data := data[..Whole(data)]; }
        if !repair.CutOff? { return None; }
      }
      WholeOfRepaired(old(data));
      records := ParseLines(codec, data);
    }

    /** An append gets as far as looking for the record's id. */
    ghost predicate Reached(record: Record, io: AppendIo)
      reads this
    {
      ValidRecord(record) && io.opens && (Whole(data) == |data| || io.repair.CutOff?)
    }

    /** Append is the durable write that BackgroundDisk takes it for: it commits its record when it is accepted
        or unconfirmed and the id was new, and nothing when it is rejected. */
    method Append(record: Record, io: AppendIo) returns (e: AppendEnd)
      requires Valid()
      modifies this`data, this`committed
      ensures Valid()
      ensures committed == AuditAfter(old(committed), record, WriteOf(e))
      ensures e.Rejected? ==> committed == old(committed)
      ensures e.CommitUnconfirmed? ==> committed == old(committed) + [record]
      ensures e == AppendEndOf(codec, old(data), old(committed), record, io)
      ensures e.Accepted? ==> ValidRecord(record) && HasId(committed, record.id)
      ensures e.Accepted? <==>
        && old(Reached(record, io)) && !io.flushFails && !io.unlockFails
        && (HasId(old(committed), record.id) || (io.written >= |codec.Line(record)| && !io.writeFails))
      ensures e.CommitUnconfirmed? <==>
        && old(Reached(record, io)) && !HasId(old(committed), record.id) && io.written >= |codec.Line(record)|
        && (io.writeFails || io.flushFails || io.unlockFails)
      ensures data in {old(data), codec.Repaired(old(data)), codec.Appended(old(data), record, io.written)}
    {
      hide ValidRecord, Holds, HasId, Whole, UniqueIds, Codec.Appended, Codec.ReadBytes;
      if !ValidRecord(record) || !io.opens { return Rejected; }
      HoldsMeans(codec, data, committed);
      RepairedHolds(codec, data, committed);
      AppendedHolds(codec, data, committed, record, io.written);
      var records := ReadRepair(io.repair);
      if records.None? { return Rejected; }
      var repeated := Repeats(records.value, record.id);
      if repeated { return if io.flushFails || io.unlockFails then Rejected else Accepted; }
      var line := codec.Line(record);
      var written := if io.written < |line| then io.written else |line|;
      AppendedMeans(codec, old(data), record, io.written);
      committed := RecordedAfter(codec, committed, record, io.written);
      data := data + line[..written];
      assert data == codec.Appended(old(data), record, io.written);
      if written != |line| { return Rejected; }
      LastHasId(old(committed), record);
      return if io.writeFails || io.flushFails || io.unlockFails then CommitUnconfirmed else Accepted;
    }
  }
}
