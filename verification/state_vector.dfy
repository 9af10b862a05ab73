/** The two-level (node, epoch) -> sequence number vector of version-vector.hpp. */
module StateVector {
  import opened Names

  type Row = map<uint64, uint64>
  type Entries = map<Name, Row>

  /** `set` refuses sequence number 0 and always leaves at least one epoch per node. */
  ghost predicate WellFormed(e: Entries) {
    forall n :: n in e ==> e[n] != map[] && forall b :: b in e[n] ==> e[n][b] > 0
  }

  type Vector = e: Entries | WellFormed(e) ghost witness map[]

  datatype Entry = Entry(node: Name, epoch: uint64, seqNo: uint64)

  function Get(e: Entries, n: Name, b: uint64): uint64 {
    if n in e && b in e[n] then e[n][b] else 0
  }

  function RowOf(e: Entries, n: Name): Row {
    if n in e then e[n] else map[]
  }

  function Put(v: Vector, n: Name, b: uint64, s: uint64): (r: Vector)
    requires s > 0
    ensures forall n', b' {:trigger Get(r, n', b')} ::
        Get(r, n', b') == if n' == n && b' == b then s else Get(v, n', b')
  {
    var row := RowOf(v, n)[b := s];
    assert b in row;
    v[n := row]
  }

  /** Vectors that answer every lookup alike are the same vector. */
  lemma Extensional(v: Vector, w: Vector)
    requires forall n, b :: Get(v, n, b) == Get(w, n, b)
    ensures v == w
  {
    forall n ensures n in v <==> n in w {
      if n in v { var b :| b in v[n]; assert Get(v, n, b) == Get(w, n, b) > 0; }
      if n in w { var b :| b in w[n]; assert Get(v, n, b) == Get(w, n, b) > 0; }
    }
    forall n | n in v ensures v[n] == w[n] {
      forall b ensures b in v[n] <==> b in w[n] {
        assert Get(v, n, b) == Get(w, n, b);
      }
      forall b | b in v[n] ensures v[n][b] == w[n][b] {
        assert Get(v, n, b) == Get(w, n, b);
      }
    }
  }

  ghost predicate AtMost(v: Entries, w: Entries) {
    forall n, b :: Get(v, n, b) <= Get(w, n, b)
  }

  // ---------- iteration order ----------

  function RowEntries(n: Name, row: Row, epochs: seq<uint64>): (l: seq<Entry>)
    requires forall b :: b in epochs ==> b in row
    ensures |l| == |epochs|
    ensures forall i :: 0 <= i < |l| ==> l[i] == Entry(n, epochs[i], row[epochs[i]])
  {
    seq(|epochs|, i requires 0 <= i < |epochs| => Entry(n, epochs[i], row[epochs[i]]))
  }

  function Rows(e: Entries, nodes: seq<Name>): (l: seq<Entry>)
    requires forall n :: n in nodes ==> n in e
  {
    if nodes == [] then []
    else
      var n := nodes[|nodes| - 1];
      Rows(e, nodes[..|nodes| - 1]) + RowEntries(n, e[n], SortedNumbers(e[n].Keys))
  }

  /** All entries, node by node and epoch by epoch, as the nested range loops visit them. */
  function Listing(e: Entries): seq<Entry> {
    Rows(e, SortedNames(e.Keys))
  }

  lemma {:induction false} RowsContent(e: Entries, nodes: seq<Name>)
    requires forall n :: n in nodes ==> n in e
    ensures forall x :: x in Rows(e, nodes) ==> x.node in nodes && x.epoch in e[x.node] && x.seqNo == e[x.node][x.epoch]
    ensures forall n, b :: n in nodes && b in e[n] ==> Entry(n, b, e[n][b]) in Rows(e, nodes)
  {
    if nodes != [] {
      var init, n := nodes[..|nodes| - 1], nodes[|nodes| - 1];
      RowsContent(e, init);
      var epochs := SortedNumbers(e[n].Keys);
      var row := RowEntries(n, e[n], epochs);
      forall n', b | n' in nodes && b in e[n'] ensures Entry(n', b, e[n'][b]) in Rows(e, nodes) {
        if n' == n {
          var i :| 0 <= i < |epochs| && epochs[i] == b;
          assert row[i] == Entry(n', b, e[n'][b]);
        } else {
          assert n' in init;
        }
      }
    }
  }

  /** The loops visit exactly the entries of the map. */
  lemma ListingContent(e: Entries)
    ensures forall x :: x in Listing(e) <==> x.node in e && x.epoch in e[x.node] && x.seqNo == e[x.node][x.epoch]
  {
    RowsContent(e, SortedNames(e.Keys));
  }

  // ---------- the class ----------

  ghost predicate IsMaximum(row: Row, m: uint64) {
    (exists b :: b in row && row[b] == m) && forall b :: b in row ==> row[b] <= m
  }

  class VersionVector {
    var entries: Vector
    var latest: map<Name, uint64>

    ghost predicate Valid()
      reads this
    {
      && latest.Keys == entries.Keys
      && forall n :: n in entries ==> IsMaximum(entries[n], latest[n])
    }

    constructor ()
      ensures Valid() && entries == map[]
    {
      entries, latest := map[], map[];
    }

    method RefreshLatest(n: Name)
      requires n in entries
      modifies this`latest
      ensures n in latest && IsMaximum(entries[n], latest[n])
      ensures latest == old(latest)[n := latest[n]]
    {
      var row := entries[n];
      var epochs := SortedNumbers(row.Keys);
      var latestSeqNo: uint64 := 0;
      ghost var best: Option<uint64> := None;
      for i := 0 to |epochs|
        invariant forall j :: 0 <= j < i ==> row[epochs[j]] <= latestSeqNo
        invariant i > 0 ==> best.Some? && best.value in row && row[best.value] == latestSeqNo
        invariant i == 0 ==> latestSeqNo == 0
      {
        assert epochs[i] in row && row[epochs[i]] > 0;
        if latestSeqNo < row[epochs[i]] {
          latestSeqNo, best := row[epochs[i]], Some(epochs[i]);
        }
      }
      assert IsMaximum(row, latestSeqNo) by {
        ghost var b :| b in row;
        assert b in epochs;
        forall b' | b' in row ensures row[b'] <= latestSeqNo {
          var j :| 0 <= j < |epochs| && epochs[j] == b';
        }
      }
      latest := latest[n := latestSeqNo];
    }

    /** Throws on sequence number 0 without touching anything. */
    method Set(n: Name, b: uint64, s: uint64) returns (ok: bool)
      requires Valid()
      modifies this
      ensures Valid()
      ensures ok == (s != 0)
      ensures entries == if ok then Put(old(entries), n, b, s) else old(entries)
      ensures !ok ==> latest == old(latest)
      ensures forall n' :: n' != n && n' in old(latest) ==> n' in latest && latest[n'] == old(latest)[n']
    {
      if s == 0 { return false; }
      entries := Put(entries, n, b, s);
      RefreshLatest(n);
      return true;
    }

    method GetLatest(n: Name) returns (s: uint64)
      requires Valid()
      ensures n !in entries ==> s == 0
      ensures n in entries ==> IsMaximum(entries[n], s)
    {
      s := if n in latest then latest[n] else 0;
    }

    /** Highest epoch of a node, 0 for an unknown one. */
    method GetBootstrapTime(n: Name) returns (b: uint64)
      requires Valid()
      ensures n !in entries ==> b == 0
      ensures n in entries ==> b in entries[n] && forall b' :: b' in entries[n] ==> b' <= b
    {
      if n !in entries { return 0; }
      var epochs := SortedNumbers(entries[n].Keys);
      SortedNumbersAscend(entries[n].Keys);
      ghost var b0 :| b0 in entries[n];
      assert b0 in epochs;
      b := epochs[|epochs| - 1];
      forall b' | b' in entries[n] ensures b' <= b {
        var i :| 0 <= i < |epochs| && epochs[i] == b';
      }
    }
  }
}
