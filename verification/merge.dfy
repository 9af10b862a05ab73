/** computeMergeStateVector and recordVector: pointwise maximum plus the ranges it uncovers. */
module Merge {
  import opened Names
  import opened StateVector

  /** MissingDataInfo without the incoming face. */
  datatype Range = Range(node: Name, low: uint64, high: uint64, epoch: uint64)

  datatype MergeResult = MergeResult(merged: Vector, missing: seq<Range>, otherNew: bool, myNew: bool)

  /** One turn of the merge loop. */
  function MergeEntry(v: Vector, x: Entry): Vector {
    if Get(v, x.node, x.epoch) < x.seqNo then Put(v, x.node, x.epoch, x.seqNo) else v
  }

  function MissingEntry(v: Vector, x: Entry): seq<Range> {
    var current := Get(v, x.node, x.epoch);
    if current < x.seqNo then [Range(x.node, current + 1, x.seqNo, x.epoch)] else []
  }

  function MergeAll(v: Vector, l: seq<Entry>): Vector {
    if l == [] then v else MergeEntry(MergeAll(v, l[..|l| - 1]), l[|l| - 1])
  }

  function MissingAll(v: Vector, l: seq<Entry>): seq<Range> {
    if l == [] then []
    else MissingAll(v, l[..|l| - 1]) + MissingEntry(MergeAll(v, l[..|l| - 1]), l[|l| - 1])
  }

  function Join(v: Vector, w: Vector): Vector { MergeAll(v, Listing(w)) }

  ghost predicate Newer(v: Vector, w: Vector) {
    exists n, b :: Get(w, n, b) < Get(v, n, b)
  }

  ghost function ComputeMerge(local: Vector, remote: Vector): MergeResult {
    var missing := MissingAll(local, Listing(remote));
    var merged := Join(local, remote);
    MergeResult(merged, missing, missing != [], Newer(merged, remote))
  }

  // ---------- what the merge means ----------

  ghost predicate Covers(l: seq<Entry>, n: Name, b: uint64) {
    exists x :: x in l && x.node == n && x.epoch == b
  }

  lemma {:induction false} MergeAllGet(v: Vector, w: Vector, l: seq<Entry>, n: Name, b: uint64)
    requires forall x :: x in l ==> x.seqNo == Get(w, x.node, x.epoch)
    ensures Get(MergeAll(v, l), n, b) ==
            if Covers(l, n, b) && Get(v, n, b) < Get(w, n, b) then Get(w, n, b) else Get(v, n, b)
  {
    if l != [] {
      var init, x := l[..|l| - 1], l[|l| - 1];
      assert forall y :: y in l <==> y in init || y == x;
      MergeAllGet(v, w, init, n, b);
      if x.node == n && x.epoch == b {
        assert Covers(l, n, b);
      } else {
        assert Covers(l, n, b) <==> Covers(init, n, b);
      }
    }
  }

  /** The merge is the pointwise maximum. */
  lemma JoinGet(v: Vector, w: Vector, n: Name, b: uint64)
    ensures Get(Join(v, w), n, b) == if Get(v, n, b) < Get(w, n, b) then Get(w, n, b) else Get(v, n, b)
  {
    ListingContent(w);
    MergeAllGet(v, w, Listing(w), n, b);
    if Get(w, n, b) > 0 {
      assert Entry(n, b, w[n][b]) in Listing(w);
      assert Covers(Listing(w), n, b);
    }
  }

  lemma JoinUpper(v: Vector, w: Vector)
    ensures AtMost(v, Join(v, w)) && AtMost(w, Join(v, w))
  {
    forall n, b ensures Get(v, n, b) <= Get(Join(v, w), n, b) && Get(w, n, b) <= Get(Join(v, w), n, b) {
      JoinGet(v, w, n, b);
    }
  }

  /** A vector that is already covered merges into nothing new. */
  lemma JoinAbsorbs(v: Vector, w: Vector)
    requires AtMost(w, v)
    ensures Join(v, w) == v
  {
    forall n, b ensures Get(Join(v, w), n, b) == Get(v, n, b) { JoinGet(v, w, n, b); }
    Extensional(Join(v, w), v);
  }

  /** How many of the ranges contain sequence number s of (n, b). */
  ghost function Count(l: seq<Range>, n: Name, b: uint64, s: int): nat {
    if l == [] then 0
    else
      var r := l[|l| - 1];
      Count(l[..|l| - 1], n, b, s) + if r.node == n && r.epoch == b && r.low <= s <= r.high then 1 else 0
  }

  lemma {:induction false} CountAppend(l: seq<Range>, m: seq<Range>, n: Name, b: uint64, s: int)
    ensures Count(l + m, n, b, s) == Count(l, n, b, s) + Count(m, n, b, s)
  {
    if m == [] {
      assert l + m == l;
    } else {
      assert (l + m)[..|l + m| - 1] == l + m[..|m| - 1];
      CountAppend(l, m[..|m| - 1], n, b, s);
    }
  }

  ghost function Below(v: Vector, n: Name, b: uint64, s: int): nat {
    if 1 <= s <= Get(v, n, b) then 1 else 0
  }

  lemma MissingEntryCount(v: Vector, x: Entry, n: Name, b: uint64, s: int)
    ensures Below(v, n, b, s) + Count(MissingEntry(v, x), n, b, s) == Below(MergeEntry(v, x), n, b, s)
  {
    var m := MissingEntry(v, x);
    if m != [] {
      assert m[..|m| - 1] == [];
      assert Count(m[..|m| - 1], n, b, s) == 0;
    }
  }

  lemma {:induction false} MissingCount(v: Vector, l: seq<Entry>, n: Name, b: uint64, s: int)
    ensures Below(v, n, b, s) + Count(MissingAll(v, l), n, b, s) == Below(MergeAll(v, l), n, b, s)
  {
    if l != [] {
      var init, x := l[..|l| - 1], l[|l| - 1];
      MissingCount(v, init, n, b, s);
      MissingEntryCount(MergeAll(v, init), x, n, b, s);
      CountAppend(MissingAll(v, init), MissingEntry(MergeAll(v, init), x), n, b, s);
    }
  }

  lemma {:induction false} MissingEmpty(v: Vector, l: seq<Entry>)
    ensures MissingAll(v, l) == [] <==> MergeAll(v, l) == v
    ensures AtMost(v, MergeAll(v, l))
  {
    if l != [] {
      var init, x := l[..|l| - 1], l[|l| - 1];
      MissingEmpty(v, init);
      var u := MergeAll(v, init);
      if MissingEntry(u, x) != [] {
        assert Get(v, x.node, x.epoch) <= Get(u, x.node, x.epoch) < Get(MergeAll(v, l), x.node, x.epoch);
      }
    }
  }

  /**
   * The merge raises the vector exactly by the ranges it reports: every sequence number that
   * becomes covered lies in one reported range, and no other number is reported.
   */
  lemma MergeReports(local: Vector, remote: Vector, n: Name, b: uint64, s: int)
    ensures var m := ComputeMerge(local, remote);
            Below(local, n, b, s) + Count(m.missing, n, b, s) == Below(m.merged, n, b, s)
  {
    MissingCount(local, Listing(remote), n, b, s);
  }

  /** otherVectorNew exactly when the vector changes; myVectorNew exactly when the remote lacks something. */
  lemma MergeFlags(local: Vector, remote: Vector)
    ensures var m := ComputeMerge(local, remote);
            && (m.otherNew <==> m.merged != local)
            && (m.otherNew <==> Newer(remote, local))
            && (m.myNew <==> Newer(local, remote))
  {
    var m := ComputeMerge(local, remote);
    MissingEmpty(local, Listing(remote));
    if !Newer(remote, local) { JoinAbsorbs(local, remote); }
    if Newer(remote, local) {
      var n, b :| Get(local, n, b) < Get(remote, n, b);
      JoinGet(local, remote, n, b);
    }
    if m.myNew {
      var n, b :| Get(remote, n, b) < Get(m.merged, n, b);
      JoinGet(local, remote, n, b);
      assert Get(remote, n, b) < Get(local, n, b);
    }
    if Newer(local, remote) {
      var n, b :| Get(remote, n, b) < Get(local, n, b);
      JoinGet(local, remote, n, b);
      assert Get(remote, n, b) < Get(m.merged, n, b);
    }
  }

  // ---------- the loops ----------

  lemma ListingStep(e: Entries, nodes: seq<Name>, i: nat)
    requires forall n :: n in nodes ==> n in e
    requires i < |nodes|
    ensures Rows(e, nodes[..i + 1])
        == Rows(e, nodes[..i]) + RowEntries(nodes[i], e[nodes[i]], SortedNumbers(e[nodes[i]].Keys))
  {
    assert nodes[..i + 1][..i] == nodes[..i];
  }

  lemma PrefixEnds<T>(a: seq<T>, r: seq<T>)
    ensures a + r[..0] == a && a + r[..|r|] == a + r
  {
  }

  lemma PrefixStep<T>(a: seq<T>, r: seq<T>, j: nat)
    requires j < |r|
    ensures a + r[..j + 1] == (a + r[..j]) + [r[j]]
  {
  }

  lemma MergeStep(v: Vector, l: seq<Entry>, x: Entry)
    ensures MergeAll(v, l + [x]) == MergeEntry(MergeAll(v, l), x)
    ensures MissingAll(v, l + [x]) == MissingAll(v, l) + MissingEntry(MergeAll(v, l), x)
  {
    assert (l + [x])[..|l|] == l;
  }

  /** Body of the inner loop. */
  method MergeOne(merged0: Vector, missing0: seq<Range>, n: Name, b: uint64, seqOther: uint64)
    returns (merged: Vector, missing: seq<Range>)
    ensures merged == MergeEntry(merged0, Entry(n, b, seqOther))
    ensures missing == missing0 + MissingEntry(merged0, Entry(n, b, seqOther))
  {
    merged, missing := merged0, missing0;
    var seqCurrent := Get(merged, n, b);
    if seqCurrent < seqOther {
      missing := missing + [Range(n, seqCurrent + 1, seqOther, b)];
      merged := Put(merged, n, b, seqOther);
    }
  }

  /** Inner loop: the epochs of one remote node. `done` lists the entries already merged into `local`. */
  method MergeRow(ghost local: Vector, ghost done: seq<Entry>, merged0: Vector, missing0: seq<Range>, n: Name, row: Row)
    returns (merged: Vector, missing: seq<Range>)
    requires merged0 == MergeAll(local, done) && missing0 == MissingAll(local, done)
    ensures merged == MergeAll(local, done + RowEntries(n, row, SortedNumbers(row.Keys)))
    ensures missing == MissingAll(local, done + RowEntries(n, row, SortedNumbers(row.Keys)))
  {
    merged, missing := merged0, missing0;
    var epochs := SortedNumbers(row.Keys);
    ghost var entries := RowEntries(n, row, epochs);
    PrefixEnds(done, entries);
    for j := 0 to |epochs|
      invariant merged == MergeAll(local, done + entries[..j])
      invariant missing == MissingAll(local, done + entries[..j])
    {
      PrefixStep(done, entries, j);
      MergeStep(local, done + entries[..j], entries[j]);
      merged, missing := MergeOne(merged, missing, n, epochs[j], row[epochs[j]]);
    }
  }

  /** First loop of computeMergeStateVector; recordVector runs the same loop without the list. */
  method MergeLoop(local: Vector, remote: Vector) returns (merged: Vector, missing: seq<Range>)
    ensures merged == Join(local, remote)
    ensures missing == MissingAll(local, Listing(remote))
  {
    merged, missing := local, [];
    var nodes := SortedNames(remote.Keys);
    for i := 0 to |nodes|
      invariant merged == MergeAll(local, Rows(remote, nodes[..i]))
      invariant missing == MissingAll(local, Rows(remote, nodes[..i]))
    {
      merged, missing := MergeRow(local, Rows(remote, nodes[..i]), merged, missing, nodes[i], remote[nodes[i]]);
      ListingStep(remote, nodes, i);
    }
    assert nodes[..|nodes|] == nodes;
  }

  ghost predicate RowCovered(merged: Vector, remote: Vector, n: Name) {
    forall b :: Get(merged, n, b) <= Get(remote, n, b)
  }

  /** Second loop, one node: does the remote row lack something the merged row has? */
  method RowNewer(merged: Vector, remote: Vector, n: Name) returns (newer: bool)
    requires n in merged
    ensures newer <==> !RowCovered(merged, remote, n)
  {
    var epochs := SortedNumbers(merged[n].Keys);
    for j := 0 to |epochs|
      invariant forall k :: 0 <= k < j ==> Get(merged, n, epochs[k]) <= Get(remote, n, epochs[k])
    {
      if Get(remote, n, epochs[j]) < merged[n][epochs[j]] {
        assert Get(remote, n, epochs[j]) < Get(merged, n, epochs[j]);
        return true;
      }
    }
    newer := false;
    forall b ensures Get(merged, n, b) <= Get(remote, n, b) {
      if b in merged[n] { var k :| 0 <= k < |epochs| && epochs[k] == b; }
    }
  }

  /** Second loop, stopping at the first node with something newer. */
  method AnyRowNewer(merged: Vector, remote: Vector) returns (newer: bool)
    ensures newer <==> Newer(merged, remote)
  {
    var nodes := SortedNames(merged.Keys);
    for i := 0 to |nodes|
      invariant forall k :: 0 <= k < i ==> RowCovered(merged, remote, nodes[k])
    {
      newer := RowNewer(merged, remote, nodes[i]);
      if newer {
        ghost var b :| Get(remote, nodes[i], b) < Get(merged, nodes[i], b);
        return;
      }
    }
    newer := false;
    forall n ensures RowCovered(merged, remote, n) {
      if n in merged { var k :| 0 <= k < |nodes| && nodes[k] == n; }
    }
  }

  method ComputeMergeStateVector(local: Vector, remote: Vector) returns (r: MergeResult)
    ensures r == ComputeMerge(local, remote)
  {
    var merged, missing := MergeLoop(local, remote);
    var myNew := AnyRowNewer(merged, remote);
    r := MergeResult(merged, missing, missing != [], myNew);
  }
}
