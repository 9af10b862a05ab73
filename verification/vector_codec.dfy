/** Wire format of the state vector, V3 and V2 (version-vector.cpp). */
module VectorCodec {
  import opened Names
  import opened StateVector
  import opened Tlv

  const STATE_VECTOR: TlvType := 201
  const STATE_VECTOR_ENTRY: TlvType := 202
  const SEQ_NO_V2: TlvType := 204
  const SEQ_NO_ENTRY: TlvType := 210
  const BOOTSTRAP_TIME: TlvType := 212
  const SEQ_NO: TlvType := 214
  const ONE_DAY := 86400

  // ---------- layout ----------

  function SeqBlock(b: uint64, s: uint64): Block {
    Block(SEQ_NO_ENTRY, Wires([Block(BOOTSTRAP_TIME, Nni(b)), Block(SEQ_NO, Nni(s))]))
  }

  function RowBlocks(row: Row, epochs: seq<uint64>): (bs: seq<Block>)
    requires forall b :: b in epochs ==> b in row
    ensures |bs| == |epochs|
  {
    seq(|epochs|, i requires 0 <= i < |epochs| => SeqBlock(epochs[i], row[epochs[i]]))
  }

  function NodeBlock(n: Name, row: Row): Block {
    Block(STATE_VECTOR_ENTRY, Wires([NameBlock(n)] + RowBlocks(row, SortedNumbers(row.Keys))))
  }

  function NodeBlocks(v: Entries, nodes: seq<Name>): (bs: seq<Block>)
    requires forall n :: n in nodes ==> n in v
    ensures |bs| == |nodes|
  {
    seq(|nodes|, i requires 0 <= i < |nodes| => NodeBlock(nodes[i], v[nodes[i]]))
  }

  /** Entries in key order, outermost first. */
  function VectorBlock(v: Entries): Block {
    Block(STATE_VECTOR, Wires(NodeBlocks(v, SortedNames(v.Keys))))
  }

  function NodeBlockV2(n: Name, s: uint64): Block {
    Block(STATE_VECTOR_ENTRY, Wires([NameBlock(n), Block(SEQ_NO_V2, Nni(s))]))
  }

  function NodeBlocksV2(latest: map<Name, uint64>, nodes: seq<Name>): (bs: seq<Block>)
    requires forall n :: n in nodes ==> n in latest
    ensures |bs| == |nodes|
  {
    seq(|nodes|, i requires 0 <= i < |nodes| => NodeBlockV2(nodes[i], latest[nodes[i]]))
  }

  function VectorBlockV2(latest: map<Name, uint64>): Block {
    Block(STATE_VECTOR, Wires(NodeBlocksV2(latest, SortedNames(latest.Keys))))
  }

  // ---------- decoding ----------

  predicate TooFarInFuture(b: uint64, now: uint64) { b > (now + ONE_DAY) % SIZE_LIMIT }

  function ReadSeq(x: Block, now: uint64): (r: Option<(uint64, uint64)>)
    ensures r.Some? ==> r.value.1 > 0
  {
    var es := Elements(x.value);
    if x.typ != SEQ_NO_ENTRY || es.None? || |es.value| != 2 || es.value[0].typ != BOOTSTRAP_TIME
        || es.value[1].typ != SEQ_NO then None
    else
      var b, s := ReadNni(es.value[0].value), ReadNni(es.value[1].value);
      if b.None? || TooFarInFuture(b.value, now) || s.None? || s.value == 0 then None else Some((b.value, s.value))
  }

  function ReadRow(bs: seq<Block>, n: Name, now: uint64, acc: Vector): Option<Vector> {
    if bs == [] then Some(acc)
    else
      var x := ReadSeq(bs[0], now);
      if x.None? then None else ReadRow(bs[1..], n, now, Put(acc, n, x.value.0, x.value.1))
  }

  function ReadNode(x: Block, now: uint64, acc: Vector): Option<Vector> {
    var es := Elements(x.value);
    if x.typ != STATE_VECTOR_ENTRY || es.None? || es.value == [] then None
    else
      var n := ReadName(es.value[0]);
      if n.None? then None else ReadRow(es.value[1..], n.value, now, acc)
  }

  function ReadNodes(bs: seq<Block>, now: uint64, acc: Vector): Option<Vector> {
    if bs == [] then Some(acc)
    else
      var x := ReadNode(bs[0], now, acc);
      if x.None? then None else ReadNodes(bs[1..], now, x.value)
  }

  function ReadVector(b: Block, now: uint64): Option<Vector> {
    var es := Elements(b.value);
    if b.typ != STATE_VECTOR || es.None? then None else ReadNodes(es.value, now, map[])
  }

  function ReadNodeV2(x: Block): (r: Option<(Name, uint64)>)
    ensures r.Some? ==> r.value.1 > 0
  {
    var es := Elements(x.value);
    if x.typ != STATE_VECTOR_ENTRY || es.None? || |es.value| != 2 || es.value[1].typ != SEQ_NO_V2 then None
    else
      var n, s := ReadName(es.value[0]), ReadNni(es.value[1].value);
      if n.None? || s.None? || s.value == 0 then None else Some((n.value, s.value))
  }

  /** Epoch 0 stands for the missing epoch field. */
  function ReadNodesV2(bs: seq<Block>, acc: Vector): Option<Vector> {
    if bs == [] then Some(acc)
    else
      var x := ReadNodeV2(bs[0]);
      if x.None? then None else ReadNodesV2(bs[1..], Put(acc, x.value.0, 0, x.value.1))
  }

  function ReadVectorV2(b: Block): Option<Vector> {
    var es := Elements(b.value);
    if b.typ != STATE_VECTOR || es.None? then None else ReadNodesV2(es.value, map[])
  }

  // ---------- round trips ----------

  ghost predicate EpochsAcceptable(v: Entries, now: uint64) {
    forall n, b :: n in v && b in v[n] ==> !TooFarInFuture(b, now)
  }

  lemma PairElements(x: Block, y: Block)
    requires |Wires([x, y])| < SIZE_LIMIT
    ensures Elements(Wires([x, y])) == Some([x, y])
  {
    ElementsOfWires([x, y]);
  }

  lemma SeqRoundTrip(b: uint64, s: uint64, now: uint64)
    requires s > 0
    ensures ReadSeq(SeqBlock(b, s), now) == if TooFarInFuture(b, now) then None else Some((b, s))
  {
    var x, y := Block(BOOTSTRAP_TIME, Nni(b)), Block(SEQ_NO, Nni(s));
    assert [x, y][1..] == [y] && [y][1..] == [];
    assert Wires([y]) == Wire(y) + [];
    assert |Wires([x, y])| == |Wire(x)| + |Wire(y)|;
    PairElements(x, y);
    NniRoundTrip(b);
    NniRoundTrip(s);
  }

  lemma {:induction false} RowRoundTrip(n: Name, row: Row, epochs: seq<uint64>, now: uint64, acc: Vector)
    requires forall b :: b in epochs ==> b in row && row[b] > 0 && !TooFarInFuture(b, now)
    ensures var r := ReadRow(RowBlocks(row, epochs), n, now, acc);
            r.Some? && forall n', b' ::
                Get(r.value, n', b') == if n' == n && b' in epochs then row[b'] else Get(acc, n', b')
    decreases |epochs|
  {
    if epochs != [] {
      var b := epochs[0];
      SeqRoundTrip(b, row[b], now);
      assert RowBlocks(row, epochs)[1..] == RowBlocks(row, epochs[1..]);
      RowRoundTrip(n, row, epochs[1..], now, Put(acc, n, b, row[b]));
      assert forall b' :: b' in epochs <==> b' == b || b' in epochs[1..];
    }
  }

  lemma NodeRoundTrip(n: Name, row: Row, now: uint64, acc: Vector)
    requires forall b :: b in row ==> row[b] > 0 && !TooFarInFuture(b, now)
    requires |NodeBlock(n, row).value| < SIZE_LIMIT
    ensures var r := ReadNode(NodeBlock(n, row), now, acc);
            r.Some? && forall n', b' ::
                Get(r.value, n', b') == if n' == n && b' in row then row[b'] else Get(acc, n', b')
  {
    var bs := RowBlocks(row, SortedNumbers(row.Keys));
    Unpack([NameBlock(n)] + bs);
    assert ([NameBlock(n)] + bs)[1..] == bs;
    NameRoundTrip(n);
    RowRoundTrip(n, row, SortedNumbers(row.Keys), now, acc);
  }

  lemma {:induction false} NodesRoundTrip(v: Vector, nodes: seq<Name>, now: uint64, acc: Vector)
    requires (forall n :: n in nodes ==> n in v) && EpochsAcceptable(v, now)
    requires forall x :: x in NodeBlocks(v, nodes) ==> |x.value| < SIZE_LIMIT
    ensures var r := ReadNodes(NodeBlocks(v, nodes), now, acc);
            r.Some? && forall n', b' ::
                Get(r.value, n', b') == if n' in nodes && b' in v[n'] then v[n'][b'] else Get(acc, n', b')
    decreases |nodes|
  {
    hide NodeBlock, ReadNode, RowBlocks, Wires;
    if nodes != [] {
      var n := nodes[0];
      assert NodeBlocks(v, nodes)[0] == NodeBlock(n, v[n]);
      NodeRoundTrip(n, v[n], now, acc);
      var next := ReadNode(NodeBlock(n, v[n]), now, acc).value;
      assert NodeBlocks(v, nodes)[1..] == NodeBlocks(v, nodes[1..]);
      NodesRoundTrip(v, nodes[1..], now, next);
      assert forall m :: m in nodes <==> m == n || m in nodes[1..];
    }
  }

  /** Decoding the encoding returns the same vector, as long as no epoch is more than a day ahead. */
  lemma VectorRoundTrip(v: Vector, now: uint64)
    requires EpochsAcceptable(v, now) && |VectorBlock(v).value| < SIZE_LIMIT
    ensures ReadVector(VectorBlock(v), now) == Some(v)
  {
    var nodes := SortedNames(v.Keys);
    Unpack(NodeBlocks(v, nodes));
    NodesRoundTrip(v, nodes, now, map[]);
    var r := ReadNodes(NodeBlocks(v, nodes), now, map[]).value;
    forall n, b ensures Get(r, n, b) == Get(v, n, b) { }
    Extensional(r, v);
  }

  lemma {:induction false} RowRejects(n: Name, row: Row, epochs: seq<uint64>, now: uint64, acc: Vector, bad: uint64)
    requires (forall b :: b in epochs ==> b in row && row[b] > 0) && bad in epochs && TooFarInFuture(bad, now)
    ensures ReadRow(RowBlocks(row, epochs), n, now, acc).None?
    decreases |epochs|
  {
    hide SeqBlock, ReadSeq, TooFarInFuture, Wires;
    var b := epochs[0];
    SeqRoundTrip(b, row[b], now);
    assert RowBlocks(row, epochs)[1..] == RowBlocks(row, epochs[1..]);
    if b != bad { RowRejects(n, row, epochs[1..], now, Put(acc, n, b, row[b]), bad); }
  }

  lemma NodeRejects(n: Name, row: Row, now: uint64, acc: Vector, bad: uint64)
    requires (forall b :: b in row ==> row[b] > 0) && bad in row && TooFarInFuture(bad, now)
    requires |NodeBlock(n, row).value| < SIZE_LIMIT
    ensures ReadNode(NodeBlock(n, row), now, acc).None?
  {
    var bs := RowBlocks(row, SortedNumbers(row.Keys));
    Unpack([NameBlock(n)] + bs);
    assert ([NameBlock(n)] + bs)[1..] == bs;
    NameRoundTrip(n);
    RowRejects(n, row, SortedNumbers(row.Keys), now, acc, bad);
  }

  lemma {:induction false} NodesReject(v: Vector, nodes: seq<Name>, now: uint64, acc: Vector, n: Name, bad: uint64)
    requires (forall m :: m in nodes ==> m in v) && n in nodes && bad in v[n] && TooFarInFuture(bad, now)
    requires forall x :: x in NodeBlocks(v, nodes) ==> |x.value| < SIZE_LIMIT
    ensures ReadNodes(NodeBlocks(v, nodes), now, acc).None?
    decreases |nodes|
  {
    var first := nodes[0];
    assert NodeBlocks(v, nodes)[0] == NodeBlock(first, v[first]);
    assert NodeBlocks(v, nodes)[1..] == NodeBlocks(v, nodes[1..]);
    hide NodeBlock, ReadNode, RowBlocks, Wires;
    if first == n {
      NodeRejects(n, v[n], now, acc, bad);
    } else {
      var next := ReadNode(NodeBlock(first, v[first]), now, acc);
      if next.Some? { NodesReject(v, nodes[1..], now, next.value, n, bad); }
    }
  }

  /** The receiver accepts an encoded vector exactly when no epoch is more than a day ahead. */
  lemma VectorAcceptedExactly(v: Vector, now: uint64)
    requires |VectorBlock(v).value| < SIZE_LIMIT
    ensures ReadVector(VectorBlock(v), now) == if EpochsAcceptable(v, now) then Some(v) else None
  {
    if EpochsAcceptable(v, now) {
      VectorRoundTrip(v, now);
    } else {
      var n, b :| n in v && b in v[n] && TooFarInFuture(b, now);
      var nodes := SortedNames(v.Keys);
      Unpack(NodeBlocks(v, nodes));
      hide NodeBlocks, ReadNodes, Wires, Elements, NodeBlock, RowBlocks;
      NodesReject(v, nodes, now, map[], n, b);
    }
  }

  lemma OneRowSize(b: uint64)
    ensures |Wire(SeqBlock(b, 1))| <= 40
  {
    var x, y := Block(BOOTSTRAP_TIME, Nni(b)), Block(SEQ_NO, Nni(1));
    assert |Wire(x)| <= 12 && |Wire(y)| <= 12;
    hide Nni, Wire;
    assert [x, y] == [x] + [y];
    WiresCons(x, [y]);
    WiresOne(y);
    assert SeqBlock(b, 1).value == Wires([x, y]);
    SmallWire(SeqBlock(b, 1));
  }

  lemma SmallWire(b: Block)
    requires |b.value| < 200
    ensures |Wire(b)| <= |b.value| + 6
  {
  }

  lemma OneNodeSize(b: uint64)
    ensures |VectorBlock(Put(map[], [], b, 1)).value| < 100
  {
    hide Wire, SeqBlock, Nni;
    var v := Put(map[], [], b, 1);
    assert v == map[[] := map[b := 1]];
    SortedSingletons([], b);
    OneRowSize(b);
    var node := NodeBlock([], v[[]]);
    assert v.Keys == {[]} && v[[]].Keys == {b};
    assert RowBlocks(v[[]], [b]) == [SeqBlock(b, 1)] && NodeBlocks(v, [[]]) == [node];
    EmptyNameSize();
    WiresCons(Tlv.NameBlock([]), [SeqBlock(b, 1)]);
    WiresOne(SeqBlock(b, 1));
    SmallWire(node);
    WiresOne(node);
  }

  lemma EmptyNameSize()
    ensures |Wire(Tlv.NameBlock([]))| == 2
  {
    assert ComponentBlocks([]) == [] && Wires([]) == [];
  }

  /** A vector that does not come back: its one epoch is a day and a second ahead of the receiver. */
  lemma FutureEpochIsRejected()
    ensures ReadVector(VectorBlock(Put(map[], [], 86401, 1)), 0).None?
  {
    var v := Put(map[], [], 86401, 1);
    OneNodeSize(86401);
    hide VectorBlock, ReadVector;
    assert [] in v && 86401 in v[[]] && TooFarInFuture(86401, 0);
    VectorAcceptedExactly(v, 0);
  }

  lemma NodeRoundTripV2(n: Name, s: uint64)
    requires s > 0 && |NodeBlockV2(n, s).value| < SIZE_LIMIT
    ensures ReadNodeV2(NodeBlockV2(n, s)) == Some((n, s))
  {
    hide Wires, Elements, ReadName, NameBlock, Nni, ReadNni;
    var bs := [NameBlock(n), Block(SEQ_NO_V2, Nni(s))];
    Unpack(bs);
    assert bs[0] in bs && bs[1] in bs;
    NameRoundTrip(n);
    NniRoundTrip(s);
  }

  lemma {:induction false} NodesRoundTripV2(latest: map<Name, uint64>, nodes: seq<Name>, acc: Vector)
    requires forall n :: n in nodes ==> n in latest && latest[n] > 0
    requires forall x :: x in NodeBlocksV2(latest, nodes) ==> |x.value| < SIZE_LIMIT
    ensures var r := ReadNodesV2(NodeBlocksV2(latest, nodes), acc);
            r.Some? && forall n', b' ::
                Get(r.value, n', b') == if n' in nodes && b' == 0 then latest[n'] else Get(acc, n', b')
    decreases |nodes|
  {
    hide NodeBlockV2, ReadNodeV2, Wires;
    if nodes != [] {
      var n := nodes[0];
      assert NodeBlocksV2(latest, nodes)[0] == NodeBlockV2(n, latest[n]);
      NodeRoundTripV2(n, latest[n]);
      assert NodeBlocksV2(latest, nodes)[1..] == NodeBlocksV2(latest, nodes[1..]);
      NodesRoundTripV2(latest, nodes[1..], Put(acc, n, 0, latest[n]));
      assert forall m :: m in nodes <==> m == n || m in nodes[1..];
    }
  }

  /** V2 keeps, per node, the largest sequence number over its epochs, and files it under epoch 0. */
  lemma VectorRoundTripV2(v: Vector, latest: map<Name, uint64>)
    requires latest.Keys == v.Keys && forall n :: n in v ==> IsMaximum(v[n], latest[n])
    requires |VectorBlockV2(latest).value| < SIZE_LIMIT
    ensures var r := ReadVectorV2(VectorBlockV2(latest));
            r.Some? && forall n, b :: Get(r.value, n, b) == if n in v && b == 0 then latest[n] else 0
  {
    LatestPositive(v, latest);
    var nodes := SortedNames(latest.Keys);
    var bs := NodeBlocksV2(latest, nodes);
    Unpack(bs);
    hide NodeBlockV2, NodeBlocksV2, ReadNodeV2, ReadNodesV2, Wires, Elements, IsMaximum;
    NodesRoundTripV2(latest, nodes, map[]);
    assert ReadVectorV2(VectorBlockV2(latest)) == ReadNodesV2(bs, map[]);
  }

  lemma LatestPositive(v: Vector, latest: map<Name, uint64>)
    requires latest.Keys == v.Keys && forall n :: n in v ==> IsMaximum(v[n], latest[n])
    ensures forall n :: n in latest ==> latest[n] > 0
  {
    forall n | n in latest ensures latest[n] > 0 {
      var b :| b in v[n] && v[n][b] == latest[n];
    }
  }

  // ---------- the printers ----------

  lemma WiresStep(bs: seq<Block>, i: nat)
    requires i < |bs|
    ensures Wires(bs[i..]) == Wire(bs[i]) + Wires(bs[i + 1..])
  {
    assert bs[i..][1..] == bs[i + 1..];
  }

  method PrependSeq(enc: EncodingBuffer, b: uint64, s: uint64) returns (k: nat)
    modifies enc
    ensures enc.bytes == Wire(SeqBlock(b, s)) + old(enc.bytes) && k == |Wire(SeqBlock(b, s))|
  {
    ghost var rest := enc.bytes;
    var x, y := Block(BOOTSTRAP_TIME, Nni(b)), Block(SEQ_NO, Nni(s));
    var seqEntryLength := enc.PrependNniBlock(SEQ_NO, s);
    var l := enc.PrependNniBlock(BOOTSTRAP_TIME, b);
    seqEntryLength := seqEntryLength + l;
    WiresCons(x, [y]);
    WiresOne(y);
    assert [x] + [y] == [x, y];
    assert enc.bytes == Wires([x, y]) + rest;
    assert enc.bytes[..seqEntryLength] == Wires([x, y]) && enc.bytes[seqEntryLength..] == rest;
    l := enc.PrependHeader(SEQ_NO_ENTRY, seqEntryLength);
    k := seqEntryLength + l;
  }

  method PrependRow(enc: EncodingBuffer, row: Row, epochs: seq<uint64>) returns (k: nat)
    requires forall b :: b in epochs ==> b in row
    modifies enc
    ensures enc.bytes == Wires(RowBlocks(row, epochs)) + old(enc.bytes) && k == |Wires(RowBlocks(row, epochs))|
  {
    hide SeqBlock, Wire;
    ghost var rest := enc.bytes;
    ghost var bs := RowBlocks(row, epochs);
    k := 0;
    assert Wires(bs[|bs|..]) == [];
    for j := |epochs| downto 0
      invariant enc.bytes == Wires(bs[j..]) + rest
      invariant k == |Wires(bs[j..])|
    {
      var l := PrependSeq(enc, epochs[j], row[epochs[j]]);
      WiresStep(bs, j);
      k := k + l;
      assert Wire(bs[j]) + (Wires(bs[j + 1..]) + rest) == (Wire(bs[j]) + Wires(bs[j + 1..])) + rest;
    }
    assert bs[0..] == bs;
  }

  method PrependNode(enc: EncodingBuffer, n: Name, row: Row) returns (k: nat)
    modifies enc
    ensures enc.bytes == Wire(NodeBlock(n, row)) + old(enc.bytes) && k == |Wire(NodeBlock(n, row))|
  {
    hide RowBlocks, Wires, NameBlock;
    ghost var rest := enc.bytes;
    var epochs := SortedNumbers(row.Keys);
    ghost var bs := RowBlocks(row, epochs);
    var entryLength := PrependRow(enc, row, epochs);
    var l := enc.PrependBlock(NameBlock(n));
    entryLength := entryLength + l;
    WiresCons(NameBlock(n), bs);
    assert Wire(NameBlock(n)) + (Wires(bs) + rest) == Wires([NameBlock(n)] + bs) + rest;
    assert enc.bytes[..entryLength] == Wires([NameBlock(n)] + bs) && enc.bytes[entryLength..] == rest;
    l := enc.PrependHeader(STATE_VECTOR_ENTRY, entryLength);
    k := entryLength + l;
  }

  /** VersionVector::encode: back to front through both maps, with running lengths. */
  method Encode(v: Vector) returns (wire: seq<byte>)
    ensures wire == Wire(VectorBlock(v))
  {
    var enc := new EncodingBuffer();
    var nodes := SortedNames(v.Keys);
    ghost var bs := NodeBlocks(v, nodes);
    var totalLength := 0;
    for i := |nodes| downto 0
      invariant fresh(enc)
      invariant enc.bytes == Wires(bs[i..]) && totalLength == |enc.bytes|
    {
      var l := PrependNode(enc, nodes[i], v[nodes[i]]);
      WiresStep(bs, i);
      totalLength := totalLength + l;
    }
    assert bs[0..] == bs;
    assert enc.bytes[..totalLength] == enc.bytes && enc.bytes[totalLength..] == [];
    var _ := enc.PrependHeader(STATE_VECTOR, totalLength);
    wire := enc.bytes;
  }

  method PrependNodeV2(enc: EncodingBuffer, n: Name, s: uint64) returns (k: nat)
    modifies enc
    ensures enc.bytes == Wire(NodeBlockV2(n, s)) + old(enc.bytes) && k == |Wire(NodeBlockV2(n, s))|
  {
    ghost var rest := enc.bytes;
    var x, y := NameBlock(n), Block(SEQ_NO_V2, Nni(s));
    var entryLength := enc.PrependNniBlock(SEQ_NO_V2, s);
    var l := enc.PrependBlock(x);
    entryLength := entryLength + l;
    WiresCons(x, [y]);
    WiresOne(y);
    assert [x] + [y] == [x, y];
    assert enc.bytes == Wires([x, y]) + rest;
    assert enc.bytes[..entryLength] == Wires([x, y]) && enc.bytes[entryLength..] == rest;
    l := enc.PrependHeader(STATE_VECTOR_ENTRY, entryLength);
    k := entryLength + l;
  }

  /** VersionVector::encodeV2 walks the latest index. */
  method EncodeV2(vv: VersionVector) returns (wire: seq<byte>)
    requires vv.Valid()
    ensures wire == Wire(VectorBlockV2(vv.latest))
  {
    var enc := new EncodingBuffer();
    var latest := vv.latest;
    var nodes := SortedNames(latest.Keys);
    ghost var bs := NodeBlocksV2(latest, nodes);
    var totalLength := 0;
    for i := |nodes| downto 0
      invariant fresh(enc)
      invariant enc.bytes == Wires(bs[i..]) && totalLength == |enc.bytes|
    {
      var l := PrependNodeV2(enc, nodes[i], latest[nodes[i]]);
      WiresStep(bs, i);
      totalLength := totalLength + l;
    }
    assert bs[0..] == bs;
    assert enc.bytes[..totalLength] == enc.bytes && enc.bytes[totalLength..] == [];
    var _ := enc.PrependHeader(STATE_VECTOR, totalLength);
    wire := enc.bytes;
  }

  // ---------- the parsers ----------

  method DecodeRow(bs: seq<Block>, n: Name, now: uint64, vv: VersionVector) returns (ok: bool)
    requires vv.Valid()
    modifies vv
    ensures vv.Valid()
    ensures ReadRow(bs, n, now, old(vv.entries)) == if ok then Some(vv.entries) else None
  {
    for i := 0 to |bs|
      invariant vv.Valid()
      invariant ReadRow(bs[i..], n, now, vv.entries) == ReadRow(bs, n, now, old(vv.entries))
    {
      assert bs[i..][1..] == bs[i + 1..];
      var x := ReadSeq(bs[i], now);
      if x.None? { return false; }
      var _ := vv.Set(n, x.value.0, x.value.1);
    }
    ok := true;
  }

  /** The decoding constructor: every element goes through `set`, the first bad one aborts. */
  method Decode(b: Block, now: uint64) returns (ok: bool, vv: VersionVector)
    ensures fresh(vv) && vv.Valid()
    ensures ReadVector(b, now) == if ok then Some(vv.entries) else None
  {
    vv := new VersionVector();
    var es := Elements(b.value);
    if b.typ != STATE_VECTOR || es.None? { return false, vv; }
    var bs := es.value;
    for i := 0 to |bs|
      invariant fresh(vv) && vv.Valid()
      invariant ReadNodes(bs[i..], now, vv.entries) == ReadVector(b, now)
    {
      assert bs[i..][1..] == bs[i + 1..];
      var inner := Elements(bs[i].value);
      if bs[i].typ != STATE_VECTOR_ENTRY || inner.None? || inner.value == [] { return false, vv; }
      var n := ReadName(inner.value[0]);
      if n.None? { return false, vv; }
      ok := DecodeRow(inner.value[1..], n.value, now, vv);
      if !ok { return; }
    }
    ok := true;
  }

  method DecodeV2(b: Block) returns (ok: bool, vv: VersionVector)
    ensures fresh(vv) && vv.Valid()
    ensures ReadVectorV2(b) == if ok then Some(vv.entries) else None
  {
    vv := new VersionVector();
    var es := Elements(b.value);
    if b.typ != STATE_VECTOR || es.None? { return false, vv; }
    var bs := es.value;
    for i := 0 to |bs|
      invariant fresh(vv) && vv.Valid()
      invariant ReadNodesV2(bs[i..], vv.entries) == ReadVectorV2(b)
    {
      assert bs[i..][1..] == bs[i + 1..];
      var x := ReadNodeV2(bs[i]);
      if x.None? { return false, vv; }
      var _ := vv.Set(x.value.0, 0, x.value.1);
    }
    ok := true;
  }
}
