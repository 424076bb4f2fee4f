/** Sessions and their forks, clones and archives as a forest. */
module Lineage {
  import opened Prelude
  import opened SessionTables

  predicate Known(ss: seq<Session>, id: nat) { exists i :: 0 <= i < |ss| && ss[i].id == id }

  function Find(ss: seq<Session>, id: nat): (k: nat)
    requires Known(ss, id)
    ensures k < |ss| && ss[k].id == id
  {
    if ss[|ss| - 1].id == id then |ss| - 1 else Find(ss[..|ss| - 1], id)
  }

  /** The end of the parent chain of a session, found by following parents to older rows. */
  function RootOf(ss: seq<Session>, id: nat): nat {
    if ss == [] then id
    else
      var last := ss[|ss| - 1];
      if last.id != id then RootOf(ss[..|ss| - 1], id)
      else if last.parent.None? then id
      else RootOf(ss[..|ss| - 1], last.parent.value)
  }

  /** The root column; rows of older versions have none and are their own root. */
  function RootColumn(x: Session): nat { if x.root.None? then x.id else x.root.value }

  ghost predicate Forest(ss: seq<Session>) {
    && (forall i, j | 0 <= i < j < |ss| :: ss[i].id != ss[j].id)
    && (forall i | 0 <= i < |ss| && ss[i].parent.Some? :: Known(ss[..i], ss[i].parent.value))
    && (forall i | 0 <= i < |ss| :: RootColumn(ss[i]) == RootOf(ss, ss[i].id))
  }

  lemma RootOfExtended(ss: seq<Session>, x: Session, id: nat)
    ensures RootOf(ss + [x], id) == if x.id != id then RootOf(ss, id) else if x.parent.None? then id
        else RootOf(ss, x.parent.value)
  {
    assert (ss + [x])[..|ss|] == ss;
  }

  /** The end of a chain has no parent, and its root column names itself. */
  lemma {:induction false} RootHasNoParent(ss: seq<Session>, id: nat)
    requires Forest(ss) && Known(ss, id)
    ensures Known(ss, RootOf(ss, id)) && ss[Find(ss, RootOf(ss, id))].parent.None?
  {
    var n := |ss| - 1;
    var last := ss[n];
    PrefixIsForest(ss);
    var r := RootOf(ss, id);
    if last.id != id || last.parent.Some? {
      var next := if last.id != id then id else last.parent.value;
      KnownBefore(ss, id);
      RootHasNoParent(ss[..n], next);
      var k := Find(ss[..n], r);
      assert ss[k].id == r && k < n;
      assert Known(ss, r);
      assert Find(ss, r) == k;
    } else {
      assert Known(ss, r) && Find(ss, r) == n;
    }
  }

  lemma KnownBefore(ss: seq<Session>, id: nat)
    requires Forest(ss) && Known(ss, id)
    ensures ss[|ss| - 1].id != id ==> Known(ss[..|ss| - 1], id)
    ensures ss[|ss| - 1].id == id && ss[|ss| - 1].parent.Some? ==> Known(ss[..|ss| - 1], ss[|ss| - 1].parent.value)
  {
    var i :| 0 <= i < |ss| && ss[i].id == id;
    if i < |ss| - 1 { assert ss[..|ss| - 1][i].id == id; }
  }

  lemma PrefixIsForest(ss: seq<Session>)
    requires Forest(ss) && ss != []
    ensures Forest(ss[..|ss| - 1])
  {
    var n := |ss| - 1;
    var p := ss[..n];
    forall i | 0 <= i < n ensures RootColumn(p[i]) == RootOf(p, p[i].id)
        && (p[i].parent.Some? ==> Known(p[..i], p[i].parent.value)) {
      assert p[..i] == ss[..i] && p[i] == ss[i];
      assert RootOf(ss, ss[i].id) == RootOf(p, ss[i].id);
    }
  }

  /** A new root, or a new child that took its parent's root. */
  lemma ForestGrows(ss: seq<Session>, x: Session)
    requires Forest(ss) && !Known(ss, x.id)
    requires x.parent.None? ==> RootColumn(x) == x.id
    requires x.parent.Some? ==> Known(ss, x.parent.value) && x.root == Some(RootColumn(ss[Find(ss, x.parent.value)]))
    ensures Forest(ss + [x])
  {
    var t := ss + [x];
    forall i | 0 <= i < |t|
      ensures RootColumn(t[i]) == RootOf(t, t[i].id) && (t[i].parent.Some? ==> Known(t[..i], t[i].parent.value))
    {
      RootOfExtended(ss, x, t[i].id);
      assert t[..i] == ss[..i];
      if i == |ss| { assert t[..i] == ss; }
    }
  }

  /** The sessions whose parent chain ends where the one of id ends, in table order. */
  function Family(ss: seq<Session>, all: seq<Session>, root: nat): seq<nat> {
    if ss == [] then []
    else
      var last := ss[|ss| - 1];
      Family(ss[..|ss| - 1], all, root) + if RootOf(all, last.id) == root then [last.id] else []
  }

  lemma {:induction false} FamilyMembers(ss: seq<Session>, all: seq<Session>, root: nat)
    ensures forall id: nat :: id in Family(ss, all, root) <==> Known(ss, id) && RootOf(all, id) == root
  {
    if ss != [] {
      var n := |ss| - 1;
      FamilyMembers(ss[..n], all, root);
      forall id: nat ensures Known(ss, id) <==> Known(ss[..n], id) || id == ss[n].id {
        if i :| 0 <= i < |ss| && ss[i].id == id { assert i < n ==> ss[..n][i].id == id; }
        if i :| 0 <= i < n && ss[..n][i].id == id { assert ss[i].id == id; }
        if id == ss[n].id { assert Known(ss, id); }
      }
    }
  }

  /** These ids are listed in the order of their rows, each once. */
  predicate InRowOrder(ss: seq<Session>, ids: seq<nat>) {
    && (forall i | 0 <= i < |ids| :: Known(ss, ids[i]))
    && (forall i, j | 0 <= i < j < |ids| :: Find(ss, ids[i]) < Find(ss, ids[j]))
  }

  lemma {:induction false} FamilyOrder(ss: seq<Session>, all: seq<Session>, root: nat)
    requires forall i, j | 0 <= i < j < |ss| :: ss[i].id != ss[j].id
    ensures InRowOrder(ss, Family(ss, all, root))
  {
    if ss != [] {
      FamilyOrder(ss[..|ss| - 1], all, root);
      OrderLonger(ss, Family(ss[..|ss| - 1], all, root));
    }
  }

  lemma OrderLonger(ss: seq<Session>, front: seq<nat>)
    requires ss != [] && (forall i, j | 0 <= i < j < |ss| :: ss[i].id != ss[j].id)
    requires InRowOrder(ss[..|ss| - 1], front)
    ensures InRowOrder(ss, front) && InRowOrder(ss, front + [ss[|ss| - 1].id])
    ensures front + [] == front
  {
    var n := |ss| - 1;
    assert Known(ss, ss[n].id);
    forall i | 0 <= i < |front| ensures Known(ss, front[i]) && Find(ss, front[i]) == Find(ss[..n], front[i]) < n {
      assert Known(ss[..n], front[i]);
      var k := Find(ss[..n], front[i]);
      assert ss[k].id == front[i] && ss[n].id != front[i];
    }
  }
}
