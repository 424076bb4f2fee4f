/** Bytes cut into lines, as every line-based file of the store is. */
module Lines {
  type Byte = b: int | 0 <= b < 256

  const NEWLINE: Byte := 10

  predicate BlankLine(line: seq<Byte>) { forall i | 0 <= i < |line| :: line[i] in {9, 10, 11, 12, 13, 32} }

  function FirstNewline(data: seq<Byte>): (k: nat)
    ensures k <= |data| && NEWLINE !in data[..k] && (k < |data| ==> data[k] == NEWLINE)
  {
    if data == [] || data[0] == NEWLINE then 0
    else
      assert forall i | 0 <= i < FirstNewline(data[1..]) :: data[1..][i] == data[i + 1];
      var k := FirstNewline(data[1..]);
      assert data[..k + 1] == [data[0]] + data[1..][..k];
      k + 1
  }

  /** The number of bytes up to and including the last newline. */
  function Whole(data: seq<Byte>): (k: nat)
    ensures k <= |data| && NEWLINE !in data[k..] && (k > 0 ==> data[k - 1] == NEWLINE)
  {
    if data == [] then 0
    else if data[|data| - 1] == NEWLINE then |data|
    else
      var k := Whole(data[..|data| - 1]);
      assert data[k..] == data[..|data| - 1][k..] + [data[|data| - 1]];
      k
  }

  lemma {:induction false} FirstNewlineIs(data: seq<Byte>, k: nat)
    requires k < |data| && data[k] == NEWLINE && NEWLINE !in data[..k]
    ensures FirstNewline(data) == k
  {
    if k > 0 {
      assert data[0] in data[..k];
      assert data[1..][..k - 1] == data[..k][1..];
      FirstNewlineIs(data[1..], k - 1);
    }
  }

  lemma {:induction false} NoNewline(data: seq<Byte>)
    requires NEWLINE !in data
    ensures FirstNewline(data) == |data|
  {
    if data != [] {
      assert data[0] in data;
      NoNewline(data[1..]);
    }
  }

  lemma {:induction false} WholeIs(lines: seq<Byte>, tail: seq<Byte>)
    requires NEWLINE !in tail && (lines == [] || lines[|lines| - 1] == NEWLINE)
    ensures Whole(lines + tail) == |lines|
    decreases |tail|
  {
    if tail != [] {
      var n := |tail| - 1;
      assert tail[n] != NEWLINE && (lines + tail)[..|lines + tail| - 1] == lines + tail[..n];
      WholeIs(lines, tail[..n]);
    } else {
      assert lines + tail == lines;
    }
  }
}
