/** Building the segments of a publication and putting them together again (svspubsub.cpp). */
module Reassembly {
  import opened Names
  import opened Tlv
  import opened DataPacket
  import opened Segmentation
  import opened SegmentWire

  datatype Assembly = Assembly(name: Name, payload: seq<byte>)

  function ToSegment(c: Component): Option<uint64> {
    if c.typ == SEGMENT then ReadNni(c.value) else None
  }

  // ---------- slicing ----------

  /** Offset of segment k. */
  function Offset(sizes: seq<nat>, k: nat): nat
    requires k <= |sizes|
  {
    if k == 0 then 0 else Offset(sizes, k - 1) + sizes[k - 1]
  }

  lemma {:induction false} OffsetTail(sizes: seq<nat>, k: nat)
    requires k < |sizes|
    ensures Offset(sizes, k + 1) == sizes[0] + Offset(sizes[1..], k)
  {
    if k > 0 { OffsetTail(sizes, k - 1); }
  }

  lemma {:induction false} OffsetIsSum(sizes: seq<nat>)
    ensures Offset(sizes, |sizes|) == Sum(sizes)
  {
    if sizes != [] {
      OffsetTail(sizes, |sizes| - 1);
      OffsetIsSum(sizes[1..]);
    }
  }

  lemma {:induction false} OffsetMonotone(sizes: seq<nat>, j: nat, k: nat)
    requires j <= k <= |sizes|
    ensures Offset(sizes, j) <= Offset(sizes, k)
    decreases k
  {
    if j < k { OffsetMonotone(sizes, j, k - 1); }
  }

  ghost predicate Covers(sizes: seq<nat>, value: seq<byte>) {
    Offset(sizes, |sizes|) == |value|
  }

  function Slice(sizes: seq<nat>, value: seq<byte>, k: nat): (s: seq<byte>)
    requires k < |sizes| && Covers(sizes, value)
    ensures |s| == sizes[k]
  {
    OffsetMonotone(sizes, k, k + 1);
    OffsetMonotone(sizes, k + 1, |sizes|);
    value[Offset(sizes, k)..Offset(sizes, k + 1)]
  }

  /** The packets of a publication with these segment sizes, in order. */
  ghost function Segments(base: Name, sizes: seq<nat>, value: seq<byte>): seq<Inner>
    requires Covers(sizes, value) && 0 < |sizes| < SIZE_LIMIT
  {
    seq(|sizes|, k requires 0 <= k < |sizes| => SegmentPacket(base, k, |sizes| - 1, Slice(sizes, value, k)))
  }

  datatype Prepared = Packets(inner: seq<Inner>) | Empty | TooLarge

  /** The packets are the slices of the value, each non-empty and within the packet size limit. */
  ghost predicate WellCut(l: Layout, base: Name, value: seq<byte>, sizes: seq<nat>, inner: seq<Inner>) {
    && 0 < |sizes| < SIZE_LIMIT && Covers(sizes, value) && inner == Segments(base, sizes, value)
    && forall k :: 0 <= k < |sizes| ==> 1 <= sizes[k] <= MAX_DATA_SIZE && Fits(l, k, |sizes| - 1, sizes[k])
  }

  method CutSegments(base: Name, value: seq<byte>, sizes: seq<nat>) returns (inner: seq<Inner>)
    requires 0 < |sizes| < SIZE_LIMIT && Covers(sizes, value)
    ensures inner == Segments(base, sizes, value)
  {
    inner := [];
    var offset := 0;
    for k := 0 to |sizes|
      invariant |inner| == k && offset == Offset(sizes, k)
      invariant forall j :: 0 <= j < k ==> inner[j] == SegmentPacket(base, j, |sizes| - 1, Slice(sizes, value, j))
    {
      hide SegmentPacket;
      OffsetMonotone(sizes, k, k + 1);
      OffsetMonotone(sizes, k + 1, |sizes|);
      inner := inner + [SegmentPacket(base, k, |sizes| - 1, value[offset..offset + sizes[k]])];
      offset := offset + sizes[k];
    }
  }

  /** However they are signed, the outer packets of these segments keep the packet limit. */
  ghost predicate AllWiresFit(p: Publication, inner: seq<Inner>) {
    |inner| <= SIZE_LIMIT &&
    forall k, innerSig, outerSig :: 0 <= k < |inner| && SignedBy(p, innerSig) && SignedBy(p, outerSig) ==>
      |Wire(SegmentBlock(p, k, |inner| - 1, inner[k].content, innerSig, outerSig))| <= MAX_NDN_PACKET_SIZE
  }

  lemma WellCutWiresFit(p: Publication, value: seq<byte>, sizes: seq<nat>, inner: seq<Inner>)
    requires WellCut(LayoutOf(p), p.name, value, sizes, inner)
    ensures AllWiresFit(p, inner)
  {
    hide Fits, OuterSize, LayoutOf, SegmentBlock, Wire;
    forall k, innerSig, outerSig | 0 <= k < |inner| && SignedBy(p, innerSig) && SignedBy(p, outerSig)
      ensures |Wire(SegmentBlock(p, k, |inner| - 1, inner[k].content, innerSig, outerSig))| <= MAX_NDN_PACKET_SIZE
    {
      FitsIsWireSize(p, k, |inner| - 1, inner[k].content, innerSig, outerSig);
    }
  }

  method PrepareSegmentedPackets(p: Publication, value: seq<byte>) returns (r: Prepared, ghost sizes: seq<nat>)
    requires |value| < SIZE_LIMIT
    ensures r.Empty? <==> value == []
    ensures r.TooLarge? ==> exists s, f :: 0 <= s < |value| && 0 <= f < |value| && !Fits(LayoutOf(p), s, f, 1)
    ensures r.TooLarge? <==> value != [] && forall final: nat :: !SelfConsistent(LayoutOf(p), |value|, final)
    ensures r.Packets? ==> WellCut(LayoutOf(p), p.name, value, sizes, r.inner) && AllWiresFit(p, r.inner)
    ensures r.Packets? ==> Greedy(LayoutOf(p), |sizes| - 1, 0, sizes)
  {
    hide Fits, Segments, SelfConsistent, BelowAll, LayoutOf, AllWiresFit, Greedy;
    sizes := [];
    var fitting := FitAll(LayoutOf(p), |value|);
    if fitting.EmptyPublication? { return Empty, []; }
    if fitting.SegmentTooLarge? { return TooLarge, []; }
    PackSizes(LayoutOf(p), |fitting.sizes| - 1, |value|, 0);
    PackIsGreedy(LayoutOf(p), |fitting.sizes| - 1, |value|, 0);
    OffsetIsSum(fitting.sizes);
    var inner := CutSegments(p.name, value, fitting.sizes);
    WellCutWiresFit(p, value, fitting.sizes, inner);
    return Packets(inner), fitting.sizes;
  }

  // ---------- reassembly ----------

  /** Base name, segment number and final number of an acceptable packet. */
  function ReadSegment(p: Option<Inner>): (r: Option<(Name, uint64, uint64)>)
    ensures r.Some? ==> p.Some? && r.value.1 <= r.value.2 && p.value.content != []
  {
    if p.None? then None
    else
      var d := p.value;
      if |d.name| < 2 || d.name[|d.name| - 2].typ != VERSION || d.finalBlock.None? then None
      else
        var segmentNo, final := ToSegment(d.name[|d.name| - 1]), ToSegment(d.finalBlock.value);
        if segmentNo.None? || final.None? || segmentNo.value > final.value || d.content == [] then None
        else Some((d.name[..|d.name| - 2], segmentNo.value, final.value))
  }

  /** All packets belong to one base name and final number, and no segment number occurs twice. */
  ghost predicate Consistent(ps: seq<Option<Inner>>, base: Name, final: uint64) {
    && (forall i :: 0 <= i < |ps| ==>
        ReadSegment(ps[i]).Some? && ReadSegment(ps[i]).value.0 == base && ReadSegment(ps[i]).value.2 == final)
    && (forall i, j :: 0 <= i < j < |ps| ==> ReadSegment(ps[i]).value.1 != ReadSegment(ps[j]).value.1)
  }

  /** A complete set: consistent and as many packets as the final number announces. */
  ghost predicate Complete(ps: seq<Option<Inner>>, base: Name, final: uint64) {
    ps != [] && Consistent(ps, base, final) && |ps| == final + 1
  }

  /** The contents by segment number. */
  ghost predicate IsContentMap(ps: seq<Option<Inner>>, m: map<uint64, seq<byte>>) {
    && (forall i :: 0 <= i < |ps| ==>
        ReadSegment(ps[i]).Some? && ReadSegment(ps[i]).value.1 in m
        && m[ReadSegment(ps[i]).value.1] == ps[i].value.content)
    && (forall s :: s in m ==> exists i :: 0 <= i < |ps| && ReadSegment(ps[i]).Some? && ReadSegment(ps[i]).value.1 == s)
  }

  ghost function Concat(m: map<uint64, seq<byte>>, k: nat): seq<byte>
  {
    if k == 0 then [] else Concat(m, k - 1) + if k - 1 in m then m[k - 1] else []
  }

  lemma {:induction false} TooMany(s: set<uint64>, n: nat)
    requires forall x :: x in s ==> x < n
    ensures |s| <= n
    decreases n
  {
    if n > 0 {
      TooMany(s - {n - 1}, n - 1);
      if n - 1 in s { assert |s| == |s - {n - 1}| + 1; } else { assert s - {n - 1} == s; }
    }
  }

  lemma Pigeonhole(s: set<uint64>, n: nat, x: uint64)
    requires (forall y :: y in s ==> y < n) && |s| == n && x < n
    ensures x in s
  {
    if x !in s {
      TooMany(s + {x}, n);
    }
  }

  lemma SegmentNotSeen(ps: seq<Option<Inner>>, i: nat, m: map<uint64, seq<byte>>, base: Name, final: uint64)
    requires Consistent(ps, base, final) && i < |ps| && IsContentMap(ps[..i], m)
    ensures ReadSegment(ps[i]).value.1 !in m
  {
    hide ReadSegment;
    forall x | x in m ensures x != ReadSegment(ps[i]).value.1 {
      var j :| 0 <= j < i && ReadSegment(ps[..i][j]).Some? && ReadSegment(ps[..i][j]).value.1 == x;
      assert ps[..i][j] == ps[j];
    }
  }

  lemma Extend(ps: seq<Option<Inner>>, i: nat, m: map<uint64, seq<byte>>, base: Name, final: uint64)
    requires i < |ps| && IsContentMap(ps[..i], m) && Consistent(ps[..i], base, final)
    requires ReadSegment(ps[i]).Some? && ReadSegment(ps[i]).value.0 == base && ReadSegment(ps[i]).value.2 == final
    requires ReadSegment(ps[i]).value.1 !in m
    ensures Consistent(ps[..i + 1], base, final)
    ensures IsContentMap(ps[..i + 1], m[ReadSegment(ps[i]).value.1 := ps[i].value.content])
  {
    hide ReadSegment;
    var qs := ps[..i + 1];
    assert qs == ps[..i] + [ps[i]];
    ExtendConsistent(ps[..i], ps[i], m, base, final);
    ExtendContents(ps[..i], ps[i], m);
  }

  lemma ExtendConsistent(ps: seq<Option<Inner>>, p: Option<Inner>, m: map<uint64, seq<byte>>, base: Name, final: uint64)
    requires IsContentMap(ps, m) && Consistent(ps, base, final)
    requires ReadSegment(p).Some? && ReadSegment(p).value.0 == base && ReadSegment(p).value.2 == final
    requires ReadSegment(p).value.1 !in m
    ensures Consistent(ps + [p], base, final)
  {
    hide ReadSegment;
  }

  lemma ExtendContents(ps: seq<Option<Inner>>, p: Option<Inner>, m: map<uint64, seq<byte>>)
    requires IsContentMap(ps, m) && ReadSegment(p).Some? && ReadSegment(p).value.1 !in m
    ensures IsContentMap(ps + [p], m[ReadSegment(p).value.1 := p.value.content])
  {
    hide ReadSegment;
    var s, qs := ReadSegment(p).value.1, ps + [p];
    var m' := m[s := p.value.content];
    assert qs[|ps|] == p;
    forall x | x in m'
      ensures exists j :: 0 <= j < |qs| && ReadSegment(qs[j]).Some? && ReadSegment(qs[j]).value.1 == x
    {
      if x != s {
        var j :| 0 <= j < |ps| && ReadSegment(ps[j]).Some? && ReadSegment(ps[j]).value.1 == x;
        assert qs[j] == ps[j];
      }
    }
  }

  lemma FullKeys(ps: seq<Option<Inner>>, base: Name, final: uint64, m: map<uint64, seq<byte>>)
    requires Complete(ps, base, final) && IsContentMap(ps, m) && |m| == |ps|
    ensures forall s :: 0 <= s <= final ==> s in m
  {
    forall s | s in m.Keys ensures s < |ps| {
      var i :| 0 <= i < |ps| && ReadSegment(ps[i]).Some? && ReadSegment(ps[i]).value.1 == s;
    }
    forall s | 0 <= s <= final ensures s in m { Pigeonhole(m.Keys, |ps|, s); }
  }

  /** First loop of decodeInnerSegments: stops at the first packet that cannot belong to a complete set. */
  method CollectSegments(ps: seq<Option<Inner>>)
      returns (ok: bool, base: Name, final: uint64, segments: map<uint64, seq<byte>>)
    requires ps != []
    ensures ok ==> Consistent(ps, base, final) && IsContentMap(ps, segments) && |segments| == |ps|
    ensures !ok ==> forall b, f :: !Consistent(ps, b, f)
  {
    hide ReadSegment;
    ok, base, final, segments := true, [], 0, map[];
    for i := 0 to |ps|
      invariant i > 0 ==>
          ReadSegment(ps[0]).Some? && ReadSegment(ps[0]).value.0 == base && ReadSegment(ps[0]).value.2 == final
      invariant Consistent(ps[..i], base, final)
      invariant IsContentMap(ps[..i], segments) && |segments| == i
    {
      var next := ReadSegment(ps[i]);
      if next.None? || (i > 0 && (next.value.0 != base || next.value.2 != final)) || next.value.1 in segments {
        forall b, f ensures !Consistent(ps, b, f) {
          if next.Some? && Consistent(ps, b, f) { SegmentNotSeen(ps, i, segments, b, f); }
        }
        return false, base, final, segments;
      }
      base, final := next.value.0, next.value.2;
      Extend(ps, i, segments, base, final);
      segments := segments[next.value.1 := ReadContent(ps[i])];
    }
    assert ps[..|ps|] == ps;
  }

  function ReadContent(p: Option<Inner>): seq<byte>
    requires ReadSegment(p).Some?
    ensures p.Some? && ReadContent(p) == p.value.content
  {
    p.value.content
  }

  /** The packets are a complete set of that name, and the payload is their contents in order. */
  ghost predicate Joins(ps: seq<Option<Inner>>, a: Assembly, m: map<uint64, seq<byte>>) {
    && 0 < |ps| <= SIZE_LIMIT && Complete(ps, a.name, |ps| - 1)
    && IsContentMap(ps, m) && a.payload == Concat(m, |ps|)
  }

  /**
   * decodeInnerSegments accepts exactly the complete sets, in any order, and returns the base name
   * with the contents joined by segment number. The size comparison is done in 64 bits.
   */
  method DecodeInnerSegments(ps: seq<Option<Inner>>) returns (r: Option<Assembly>, ghost m: map<uint64, seq<byte>>)
    requires |ps| < SIZE_LIMIT
    ensures r.None? ==> forall base, final :: !Complete(ps, base, final)
    ensures r.Some? ==> Joins(ps, r.value, m)
  {
    hide ReadSegment, Consistent, IsContentMap;
    m := map[];
    if ps == [] { return None, map[]; }
    var ok, base, final, segments := CollectSegments(ps);
    if !ok { return None, map[]; }
    if |segments| != (final + 1) % SIZE_LIMIT {
      forall b, f ensures !Complete(ps, b, f) {
        if Consistent(ps, b, f) { OneFinal(ps, base, final, b, f); }
      }
      return None, map[];
    }
    FullKeys(ps, base, final, segments);
    var payload := JoinSegments(segments, final + 1);
    return Some(Assembly(base, payload)), segments;
  }

  lemma OneFinal(ps: seq<Option<Inner>>, base: Name, final: uint64, b: Name, f: uint64)
    requires ps != [] && Consistent(ps, base, final) && Consistent(ps, b, f)
    ensures f == final
  {
    assert f == ReadSegment(ps[0]).value.2 == final;
  }

  /** Second loop of decodeInnerSegments. */
  method JoinSegments(segments: map<uint64, seq<byte>>, count: nat) returns (payload: seq<byte>)
    requires count <= SIZE_LIMIT && forall s :: 0 <= s < count ==> s in segments
    ensures payload == Concat(segments, count)
  {
    payload := [];
    for s := 0 to count
      invariant payload == Concat(segments, s)
    {
      payload := payload + segments[s];
    }
  }

  /** An accepted list holds every segment number from 0 to the final one exactly once. */
  lemma AcceptedIsComplete(ps: seq<Option<Inner>>, base: Name, final: uint64, s: uint64)
    requires Complete(ps, base, final) && s <= final
    ensures exists i :: 0 <= i < |ps| && ReadSegment(ps[i]).value.1 == s &&
              forall j :: 0 <= j < |ps| && ReadSegment(ps[j]).value.1 == s ==> j == i
  {
    hide ReadSegment;
    var m := BuildMap(ps, base, final, |ps|);
    assert ps[..|ps|] == ps;
    FullKeys(ps, base, final, m);
    assert s in m;
    var i :| 0 <= i < |ps| && ReadSegment(ps[i]).Some? && ReadSegment(ps[i]).value.1 == s;
    forall j | 0 <= j < |ps| && ReadSegment(ps[j]).value.1 == s ensures j == i { assert !(i < j) && !(j < i); }
  }

  lemma {:induction false} BuildMap(ps: seq<Option<Inner>>, base: Name, final: uint64, k: nat)
      returns (m: map<uint64, seq<byte>>)
    requires Consistent(ps, base, final) && k <= |ps|
    ensures IsContentMap(ps[..k], m) && |m| == k
  {
    hide ReadSegment;
    m := map[];
    for i := 0 to k
      invariant IsContentMap(ps[..i], m) && |m| == i
    {
      SegmentNotSeen(ps, i, m, base, final);
      assert Consistent(ps[..i], base, final) by { assert forall j :: 0 <= j < i ==> ps[..i][j] == ps[j]; }
      Extend(ps, i, m, base, final);
      m := m[ReadSegment(ps[i]).value.1 := ReadContent(ps[i])];
    }
  }

  // ---------- round trip ----------

  lemma SegmentReads(base: Name, segmentNo: uint64, final: uint64, content: seq<byte>)
    requires segmentNo <= final && content != []
    ensures ReadSegment(Some(SegmentPacket(base, segmentNo, final, content))) == Some((base, segmentNo, final))
  {
    NniRoundTrip(segmentNo);
    NniRoundTrip(final);
    var d := SegmentPacket(base, segmentNo, final, content);
    assert d.name[..|d.name| - 2] == base;
  }

  ghost function Delivered(packets: seq<Inner>): seq<Option<Inner>> {
    seq(|packets|, i requires 0 <= i < |packets| => Some(packets[i]))
  }

  /** What the packet at position k of the prepared list reads as. */
  lemma DeliveredReads(base: Name, sizes: seq<nat>, value: seq<byte>, k: nat)
    requires Covers(sizes, value) && 0 < |sizes| < SIZE_LIMIT && k < |sizes| && sizes[k] > 0
    ensures var p := Delivered(Segments(base, sizes, value))[k];
            ReadSegment(p) == Some((base, k, |sizes| - 1)) && p.Some? && p.value.content == Slice(sizes, value, k)
  {
    SegmentReads(base, k, |sizes| - 1, Slice(sizes, value, k));
  }

  lemma TwiceIsTwo<T>(s: seq<T>, i: nat, j: nat)
    requires i < j < |s| && s[i] == s[j]
    ensures multiset(s)[s[i]] >= 2
  {
    assert s == s[..j] + [s[j]] + s[j + 1..];
    assert s[i] in s[..j];
  }

  lemma OnceIsOne<T>(s: seq<T>, k: nat)
    requires k < |s| && forall j :: 0 <= j < |s| && j != k ==> s[j] != s[k]
    ensures multiset(s)[s[k]] == 1
  {
    assert s == s[..k] + [s[k]] + s[k + 1..];
    assert s[k] !in s[..k] && s[k] !in s[k + 1..];
  }

  /** A permutation of a list without repetitions has none either. */
  lemma PermutationDistinct<T>(s: seq<T>, t: seq<T>, i: nat, j: nat)
    requires multiset(s) == multiset(t) && i < j < |t|
    requires forall a, b :: 0 <= a < b < |s| ==> s[a] != s[b]
    ensures t[i] != t[j]
  {
    assert t[j] in multiset(s);
    var k :| 0 <= k < |s| && s[k] == t[j];
    OnceIsOne(s, k);
    if t[i] == t[j] { TwiceIsTwo(t, i, j); }
  }

  /** Position of a delivered packet in the prepared list. */
  lemma Origin(all: seq<Option<Inner>>, ps: seq<Option<Inner>>, i: nat) returns (k: nat)
    requires multiset(ps) == multiset(all) && i < |ps|
    ensures k < |all| && all[k] == ps[i]
  {
    assert ps[i] in multiset(all);
    k :| 0 <= k < |all| && all[k] == ps[i];
  }

  /** Any reordering of the packets is a complete set. */
  lemma PermutationIsComplete(base: Name, sizes: seq<nat>, value: seq<byte>, ps: seq<Option<Inner>>)
    requires Covers(sizes, value) && 0 < |sizes| < SIZE_LIMIT && forall k :: 0 <= k < |sizes| ==> sizes[k] > 0
    requires multiset(ps) == multiset(Delivered(Segments(base, sizes, value)))
    ensures Complete(ps, base, |sizes| - 1) && |ps| == |sizes|
  {
    var all := Delivered(Segments(base, sizes, value));
    forall k | 0 <= k < |sizes| ensures ReadSegment(all[k]) == Some((base, k, |sizes| - 1)) {
      DeliveredReads(base, sizes, value, k);
    }
    hide ReadSegment, Segments, Delivered, Slice;
    assert |ps| == |multiset(ps)| == |multiset(all)| == |all| == |sizes|;
    forall i | 0 <= i < |ps|
      ensures ReadSegment(ps[i]).Some? && ReadSegment(ps[i]).value.0 == base
      ensures ReadSegment(ps[i]).value.2 == |sizes| - 1
    {
      var k := Origin(all, ps, i);
    }
    forall i, j | 0 <= i < j < |ps| ensures ReadSegment(ps[i]).value.1 != ReadSegment(ps[j]).value.1 {
      var k := Origin(all, ps, i);
      var k2 := Origin(all, ps, j);
      PermutationDistinct(all, ps, i, j);
    }
  }

  /** ... and its contents by segment number are the slices. */
  lemma PermutationContents(base: Name, sizes: seq<nat>, value: seq<byte>, ps: seq<Option<Inner>>,
                            m: map<uint64, seq<byte>>, k: nat)
    requires Covers(sizes, value) && k < |sizes| < SIZE_LIMIT && sizes[k] > 0
    requires multiset(ps) == multiset(Delivered(Segments(base, sizes, value))) && IsContentMap(ps, m)
    ensures k in m && m[k] == Slice(sizes, value, k)
  {
    var all := Delivered(Segments(base, sizes, value));
    DeliveredReads(base, sizes, value, k);
    hide ReadSegment, Segments, Delivered, Slice;
    var i := Origin(ps, all, k);
  }

  lemma {:induction false} SlicesJoin(sizes: seq<nat>, value: seq<byte>, m: map<uint64, seq<byte>>, k: nat)
    requires Covers(sizes, value) && k <= |sizes| < SIZE_LIMIT
    requires forall j :: 0 <= j < |sizes| ==> j in m && m[j] == Slice(sizes, value, j)
    ensures Offset(sizes, k) <= |value| && Concat(m, k) == value[..Offset(sizes, k)]
  {
    OffsetMonotone(sizes, k, |sizes|);
    if k > 0 {
      SlicesJoin(sizes, value, m, k - 1);
      assert m[k - 1] == Slice(sizes, value, k - 1);
      OneMoreSlice(sizes, value, m, k - 1);
    }
  }

  lemma OneMoreSlice(sizes: seq<nat>, value: seq<byte>, m: map<uint64, seq<byte>>, k: nat)
    requires Covers(sizes, value) && k < |sizes| < SIZE_LIMIT && k in m && m[k] == Slice(sizes, value, k)
    requires Offset(sizes, k) <= |value| && Concat(m, k) == value[..Offset(sizes, k)]
    ensures Offset(sizes, k + 1) <= |value| && Concat(m, k + 1) == value[..Offset(sizes, k + 1)]
  {
    OffsetMonotone(sizes, k, k + 1);
    OffsetMonotone(sizes, k + 1, |sizes|);
    PrefixGrows(value, Offset(sizes, k), Offset(sizes, k + 1));
    hide Offset;
  }

  lemma PrefixGrows<T>(s: seq<T>, from: nat, to: nat)
    requires from <= to <= |s|
    ensures s[..to] == s[..from] + s[from..to]
  {
  }

  /**
   * What prepareSegmentedPackets cuts, decodeInnerSegments puts together again, in whatever order
   * the packets arrive.
   */
  lemma SegmentationRoundTrip(base: Name, sizes: seq<nat>, value: seq<byte>, ps: seq<Option<Inner>>, r: Assembly,
      m: map<uint64, seq<byte>>)
    requires Covers(sizes, value) && 0 < |sizes| < SIZE_LIMIT && forall k :: 0 <= k < |sizes| ==> sizes[k] > 0
    requires multiset(ps) == multiset(Delivered(Segments(base, sizes, value)))
    requires Joins(ps, r, m)
    ensures r == Assembly(base, value)
  {
    hide ReadSegment, Segments, Delivered, Slice;
    PermutationIsComplete(base, sizes, value, ps);
    assert ReadSegment(ps[0]).value.0 == base == r.name;
    forall k | 0 <= k < |sizes| ensures k in m && m[k] == Slice(sizes, value, k) {
      PermutationContents(base, sizes, value, ps, m, k);
    }
    SlicesJoin(sizes, value, m, |sizes|);
    assert value[..|value|] == value;
  }

  // ---------- the same on bytes ----------

  /** The signed inner packets as blocks. */
  ghost function Printed(p: Publication, inner: seq<Inner>, sigs: seq<Signature>): seq<Block>
    requires |sigs| == |inner| <= SIZE_LIMIT
  {
    seq(|inner|, k requires 0 <= k < |inner| => InnerBlock(p, k, |inner| - 1, inner[k].content, sigs[k]))
  }

  function ReadAll(blocks: seq<Block>): (ps: seq<Option<Inner>>)
    ensures |ps| == |blocks|
  {
    seq(|blocks|, i requires 0 <= i < |blocks| => ReadInner(blocks[i]))
  }

  lemma PrintedReads(p: Publication, value: seq<byte>, sizes: seq<nat>, inner: seq<Inner>, sigs: seq<Signature>)
    requires WellCut(LayoutOf(p), p.name, value, sizes, inner)
    requires |sigs| == |inner| && forall k :: 0 <= k < |sigs| ==> SignedBy(p, sigs[k])
    ensures ReadAll(Printed(p, inner, sigs)) == Delivered(inner)
  {
    hide Fits, OuterSize, LayoutOf, ReadInner, InnerBlock, Wire;
    forall k | 0 <= k < |inner| ensures ReadInner(Printed(p, inner, sigs)[k]) == Some(inner[k]) {
      FitsIsWireSize(p, k, |inner| - 1, inner[k].content, sigs[k], sigs[k]);
      OuterReadsBack(p, k, |inner| - 1, inner[k].content, sigs[k], sigs[k]);
    }
  }

  ghost function Without<T>(s: seq<T>, i: nat): seq<T>
    requires i < |s|
  {
    s[..i] + s[i + 1..]
  }

  lemma WithoutOne<T>(s: seq<T>, i: nat)
    requires i < |s|
    ensures multiset(s) == multiset(Without(s, i)) + multiset{s[i]} && |Without(s, i)| == |s| - 1
  {
    assert s == s[..i] + [s[i]] + s[i + 1..];
  }

  lemma ReadAllWithout(blocks: seq<Block>, i: nat)
    requires i < |blocks|
    ensures ReadAll(Without(blocks, i)) == Without(ReadAll(blocks), i)
  {
    hide ReadInner;
  }

  lemma Cancel<T>(x: multiset<T>, y: multiset<T>, z: multiset<T>)
    requires x + z == y + z
    ensures x == y
  {
    assert x == (x + z) - z && y == (y + z) - z;
  }

  lemma Member<T>(a: seq<T>, b: seq<T>) returns (i: nat)
    requires a != [] && multiset(a) == multiset(b)
    ensures i < |b| && b[i] == a[0]
  {
    assert a[0] in multiset(b);
    i :| 0 <= i < |b| && b[i] == a[0];
  }

  /** Reading a reordered list gives the reordered packets. */
  lemma {:induction false} ReadAllPermutes(a: seq<Block>, b: seq<Block>)
    requires multiset(a) == multiset(b)
    ensures multiset(ReadAll(a)) == multiset(ReadAll(b))
    decreases |a|
  {
    hide ReadInner, ReadAll, Without;
    if a == [] {
      assert |multiset(b)| == 0;
      assert a == b;
    } else {
      var i := Member(a, b);
      WithoutOne(a, 0);
      WithoutOne(b, i);
      Cancel(multiset(Without(a, 0)), multiset(Without(b, i)), multiset{a[0]});
      ReadAllPermutes(Without(a, 0), Without(b, i));
      Reassemble(a, b, i);
    }
  }

  lemma Reassemble(a: seq<Block>, b: seq<Block>, i: nat)
    requires a != [] && i < |b| && b[i] == a[0]
    requires multiset(ReadAll(Without(a, 0))) == multiset(ReadAll(Without(b, i)))
    ensures multiset(ReadAll(a)) == multiset(ReadAll(b))
  {
    ReadAllWithout(a, 0);
    ReadAllWithout(b, i);
    WithoutOne(ReadAll(a), 0);
    WithoutOne(ReadAll(b), i);
  }

  /** The receiver's buffer: inner packets one after the other. */
  method DecodeBuffer(buffer: seq<byte>) returns (r: Option<Assembly>, ghost m: map<uint64, seq<byte>>)
    requires |buffer| < SIZE_LIMIT
    ensures Elements(buffer).None? ==> r.None?
    ensures Elements(buffer).Some? && r.None? ==>
        forall base, final :: !Complete(ReadAll(Elements(buffer).value), base, final)
    ensures Elements(buffer).Some? && r.Some? ==> Joins(ReadAll(Elements(buffer).value), r.value, m)
  {
    hide Elements, ReadInner, Complete, IsContentMap;
    var es := Elements(buffer);
    if es.None? { return None, map[]; }
    FewElements(buffer);
    r, m := DecodeInnerSegments(ReadAll(es.value));
  }

  lemma {:induction false} FewElements(s: seq<byte>)
    requires Elements(s).Some?
    ensures |Elements(s).value| <= |s|
    decreases |s|
  {
    if s != [] { FewElements(s[ParseBlock(s).value.1..]); }
  }

  /**
   * End to end on bytes: prepare, sign, reorder the inner packets in any way, read them out of one
   * buffer, reassemble.
   */
  method PrepareThenDecode(p: Publication, value: seq<byte>, ghost sigs: seq<Signature>, ghost blocks: seq<Block>,
                           buffer: seq<byte>)
      returns (prepared: Prepared, r: Option<Assembly>)
    requires |value| < SIZE_LIMIT && |buffer| < SIZE_LIMIT && buffer == Wires(blocks)
    requires forall k :: 0 <= k < |sigs| ==> SignedBy(p, sigs[k])
    ensures prepared.Packets? ==> |prepared.inner| <= SIZE_LIMIT
    ensures prepared.Packets? && |sigs| == |prepared.inner| ==>
        multiset(blocks) == multiset(Printed(p, prepared.inner, sigs)) ==> r == Some(Assembly(p.name, value))
  {
    hide ReadSegment, Segments, Delivered, Slice, Fits, Consistent, ReadAll, Printed, LayoutOf, Elements;
    ghost var sizes, m;
    prepared, sizes := PrepareSegmentedPackets(p, value);
    r, m := DecodeBuffer(buffer);
    if prepared.Packets? && |sigs| == |prepared.inner| {
      if multiset(blocks) == multiset(Printed(p, prepared.inner, sigs)) {
        ElementsOfWires(blocks);
        var ps := ReadAll(blocks);
        PrintedReads(p, value, sizes, prepared.inner, sigs);
        ReadAllPermutes(blocks, Printed(p, prepared.inner, sigs));
        PermutationIsComplete(p.name, sizes, value, ps);
        SegmentationRoundTrip(p.name, sizes, value, ps, r.value, m);
      }
    }
  }
}
