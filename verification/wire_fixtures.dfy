/** The encodings the repository keeps as independent fixtures, byte for byte (tests/fixtures/svs-v3). */
module WireFixtures {
  import opened Names
  import opened StateVector
  import opened Tlv
  import opened DataPacket
  import opened VectorCodec
  import opened Merge
  import opened ExtensionCodecs
  import opened SyncEnvelope

  const NODE_TEXT: seq<byte> := [0x6e, 0x6f, 0x64, 0x65]

  function NodeName(letter: byte): Name { [Component(8, NODE_TEXT), Component(8, [letter])] }

  /** /node/a and /node/b. */
  const NODE_A := NodeName(0x61)
  const NODE_B := NodeName(0x62)

  /** /ndn/svs-v3-test */
  const GROUP: Name := [Component(8, [0x6e, 0x64, 0x6e]),
                        Component(8, [0x73, 0x76, 0x73, 0x2d, 0x76, 0x33, 0x2d, 0x74, 0x65, 0x73, 0x74])]

  const EPOCH: uint64 := 1700000000

  function NodeBytes(letter: byte): (s: seq<byte>)
    ensures |s| == 11
  {
    [7, 9, 8, 4, 0x6e, 0x6f, 0x64, 0x65, 8, 1, letter]
  }

  /** One epoch and number under it; the epochs differ in their last byte only. */
  function SeqBytes(last: byte, s: byte): (r: seq<byte>)
    ensures |r| == 11
  {
    [0xd2, 9, 0xd4, 4, 0x65, 0x53, 0xf1, last, 0xd6, 1, s]
  }

  lemma ShortWire(b: Block)
    requires b.typ < 253 && |b.value| < 253
    ensures Wire(b) == [b.typ, |b.value|] + b.value
  {
    assert VarNumber(b.typ) + VarNumber(|b.value|) == [b.typ, |b.value|];
  }

  lemma TwoWires(a: Block, b: Block)
    ensures Wires([a, b]) == Wire(a) + Wire(b)
  {
    WiresCons(a, [b]);
    WiresOne(b);
    assert [a] + [b] == [a, b];
  }

  lemma ThreeWires(a: Block, b: Block, c: Block)
    ensures Wires([a, b, c]) == Wire(a) + (Wire(b) + Wire(c))
  {
    WiresCons(a, [b, c]);
    TwoWires(b, c);
    assert [a] + [b, c] == [a, b, c];
  }

  lemma NodeNameBytes(letter: byte)
    ensures Wire(NameBlock(NodeName(letter))) == NodeBytes(letter)
  {
    var x, y := Block(8, NODE_TEXT), Block(8, [letter]);
    assert ComponentBlocks(NodeName(letter)) == [x, y];
    TwoWires(x, y);
    assert Wire(x) == [8, 4, 0x6e, 0x6f, 0x64, 0x65] && Wire(y) == [8, 1, letter];
  }

  lemma EpochBytes(last: byte)
    ensures Nni(EPOCH + last) == [0x65, 0x53, 0xf1, last]
  {
    var n := EPOCH + last;
    assert n / 256 == 0x6553f1 && n % 256 == last;
    assert BigEndian(0x6553f1, 3) == [0x65, 0x53, 0xf1];
  }

  lemma ByteBlock(t: TlvType, n: byte)
    requires t < 253
    ensures Wire(Block(t, Nni(n))) == [t, 1, n]
  {
    assert Nni(n) == [n];
    ShortWire(Block(t, [n]));
  }

  lemma EpochBlock(last: byte)
    ensures Wire(Block(BOOTSTRAP_TIME, Nni(EPOCH + last))) == [0xd4, 4, 0x65, 0x53, 0xf1, last]
  {
    EpochBytes(last);
    ShortWire(Block(BOOTSTRAP_TIME, [0x65, 0x53, 0xf1, last]));
  }

  lemma SeqBlockBytes(last: byte, s: byte)
    ensures Wire(SeqBlock(EPOCH + last, s)) == SeqBytes(last, s)
  {
    hide Wire, Wires, Nni;
    EpochBlock(last);
    ByteBlock(SEQ_NO, s);
    TwoWires(Block(BOOTSTRAP_TIME, Nni(EPOCH + last)), Block(SEQ_NO, Nni(s)));
    ShortWire(SeqBlock(EPOCH + last, s));
    assert [0xd2, 9] + ([0xd4, 4, 0x65, 0x53, 0xf1, last] + [0xd6, 1, s]) == SeqBytes(last, s);
  }

  /** The rows of the fixtures: one epoch, or two. */
  function OneEpoch(last: byte, s: byte): Row { map[EPOCH + last := s] }

  function TwoEpochs(i: byte, s: byte, j: byte, t: byte): Row { map[EPOCH + j := t, EPOCH + i := s] }

  /** A node with a single epoch. */
  lemma NodeBlockBytes(letter: byte, last: byte, s: byte)
    ensures Wire(NodeBlock(NodeName(letter), OneEpoch(last, s)))
      == [0xca, 0x16] + (NodeBytes(letter) + SeqBytes(last, s))
  {
    var row := OneEpoch(last, s);
    SortedSingletons([], EPOCH + last);
    assert row.Keys == {EPOCH + last};
    var n, x := NameBlock(NodeName(letter)), SeqBlock(EPOCH + last, s);
    assert RowBlocks(row, [EPOCH + last]) == [x];
    TwoWires(n, x);
    NodeNameBytes(letter);
    SeqBlockBytes(last, s);
    var node := NodeBlock(NodeName(letter), row);
    assert node.value == Wires([n, x]) by { assert [n] + [x] == [n, x]; }
    hide SeqBlock, NameBlock, NodeBlock, Wires, Wire, NodeBytes, SeqBytes;
    ShortWire(node);
  }

  /** The vector with number 1 of /node/a, and its encoding. */
  function OneNode(): Vector {
    var v: Entries := map[NODE_A := OneEpoch(0, 1)];
    assert EPOCH in v[NODE_A];
    v
  }

  function OneNodeBytes(): seq<byte> { [0xc9, 0x18] + ([0xca, 0x16] + (NodeBytes(0x61) + SeqBytes(0, 1))) }

  lemma OneNodeVector()
    ensures Wire(VectorBlock(OneNode())) == OneNodeBytes()
  {
    hide NodeBlock, Wires, Wire, OneEpoch, NodeBytes, SeqBytes, NodeName;
    var v := OneNode();
    SortedSingletons(NODE_A, 0);
    assert v.Keys == {NODE_A};
    var node := NodeBlock(NODE_A, OneEpoch(0, 1));
    assert NodeBlocks(v, [NODE_A]) == [node];
    assert VectorBlock(v) == Block(STATE_VECTOR, Wires([node]));
    WiresOne(node);
    NodeBlockBytes(0x61, 0, 1);
    hide VectorBlock;
    ShortWire(VectorBlock(v));
  }

  // ---------- the V3 envelope ----------

  /** A digest signature: SHA-256 type, then 32 bytes. */
  function Digest(value: seq<byte>): Signature { Signature([0x1b, 1, 0], value) }

  function GroupBytes(): (s: seq<byte>)
    ensures |s| == 23
  {
    [7, 0x15] + ([8, 3, 0x6e, 0x64, 0x6e]
      + ([8, 11, 0x73, 0x76, 0x73, 0x2d, 0x76, 0x33, 0x2d, 0x74, 0x65, 0x73, 0x74] + [0x36, 1, 3]))
  }

  lemma GroupComponents()
    ensures ComponentBlocks(SyncName(GROUP, V3))
      == [Block(8, GROUP[0].value), Block(8, GROUP[1].value), Block(54, [3])]
  {
    assert Nni(3) == [3];
    assert SyncName(GROUP, V3) == [GROUP[0], GROUP[1], Component(54, [3])];
  }

  lemma GroupNameBytes()
    ensures Wire(NameBlock(SyncName(GROUP, V3))) == GroupBytes()
  {
    hide Wire, Wires, SyncName;
    var x, y, z := Block(8, GROUP[0].value), Block(8, GROUP[1].value), Block(54, [3]);
    GroupComponents();
    ThreeWires(x, y, z);
    ShortWire(x);
    ShortWire(y);
    ShortWire(z);
    assert [8, 3] + x.value == [8, 3, 0x6e, 0x64, 0x6e];
    assert [8, 11] + y.value == [8, 11, 0x73, 0x76, 0x73, 0x2d, 0x76, 0x33, 0x2d, 0x74, 0x65, 0x73, 0x74];
    ShortWire(NameBlock(SyncName(GROUP, V3)));
  }

  /** A signed packet under the group name with this content. */
  lemma StateDataBytes(content: seq<byte>, value: seq<byte>)
    requires |content| < 100 && |value| == 32
    ensures var d := DataBlock(StateData(GROUP, content), Digest(value));
      Wire(d) == [6, (66 + |content|)] + (GroupBytes() + ([0x14, 0] + (([0x15, |content|] + content)
        + ([0x16, 3, 0x1b, 1, 0] + ([0x17, 0x20] + value)))))
  {
    var p := StateData(GROUP, content);
    var b, c := Block(META_INFO, []), Block(CONTENT, content);
    var d, e := Block(SIGNATURE_INFO, [0x1b, 1, 0]), Block(SIGNATURE_VALUE, value);
    DataValue(p, Digest(value));
    GroupNameBytes();
    hide NameBlock, SyncName, Wires, Wire, GroupBytes;
    ShortWire(b);
    ShortWire(c);
    ShortWire(d);
    ShortWire(e);
    ShortWire(DataBlock(p, Digest(value)));
  }

  /**
   * The one-node fixture: what the sender puts into the Interest for that vector without extensions is, byte for
   * byte, what an independent encoder wrote.
   */
  lemma OneNodeEnvelope(value: seq<byte>, latest: map<Name, uint64>)
    requires |value| == 32
    ensures Wire(Block(APPLICATION_PARAMETERS, ParameterValue(GROUP, V3, OneNode(), latest, [], Digest(value))))
      == [0x24, 0x5e] + ([6, 0x5c] + (GroupBytes() + ([0x14, 0] + (([0x15, 0x1a] + OneNodeBytes())
        + ([0x16, 3, 0x1b, 1, 0] + ([0x17, 0x20] + value))))))
  {
    hide DataBlock, StateData, Wires, Wire, VectorBlock, OneNode, NodeBytes, SeqBytes, GroupBytes;
    var vector := VectorBlock(OneNode());
    OneNodeVector();
    WiresOne(vector);
    assert [vector] + [] == [vector];
    var d := DataBlock(StateData(GROUP, OneNodeBytes()), Digest(value));
    StateDataBytes(OneNodeBytes(), value);
    WiresOne(d);
    assert |OneNodeBytes()| == 0x1a;
    var all := Block(APPLICATION_PARAMETERS, ParameterValue(GROUP, V3, OneNode(), latest, [], Digest(value)));
    ShortWire(all);
  }

  // ---------- several nodes and epochs ----------

  lemma SortedNumberPair(x: uint64, y: uint64)
    requires x < y
    ensures SortedNumbers({x, y}) == [x, y]
  {
    SortedNumbersAscend({x, y});
    NatOrder();
    SortedAscending<uint64>(NatLess, {x, y});
    var numbers := SortedNumbers({x, y});
    assert x in numbers && y in numbers && |numbers| == 2;
  }

  lemma SortedNamePair(a: Name, b: Name)
    requires NameLess(a, b)
    ensures SortedNames({a, b}) == [a, b] && a != b
  {
    NameOrder();
    SortedAscending(NameLess, {a, b});
    assert !NameLess(b, a) && a != b;
    hide NameLess;
    var names := SortedNames({a, b});
    assert a in names && b in names && |names| == 2;
  }

  lemma LettersAreOrdered()
    ensures NameLess(NODE_A, NODE_B)
  {
    var a, b := ComponentKey(NODE_A[1]), ComponentKey(NODE_B[1]);
    assert a == [8, 1, 0x61] && b == [8, 1, 0x62];
    assert a[1..] == [1, 0x61] && b[1..] == [1, 0x62] && a[1..][1..] == [0x61] && b[1..][1..] == [0x62];
    assert LexLess([0x61], [0x62]) && LexLess(a[1..], b[1..]) && LexLess(a, b);
    assert NODE_A[1..] == [NODE_A[1]] && NODE_B[1..] == [NODE_B[1]];
    assert NameLess(NODE_A[1..], NODE_B[1..]);
  }

  lemma TwoEpochsBlock(letter: byte, i: byte, s: byte, j: byte, t: byte)
    requires i < j
    ensures NodeBlock(NodeName(letter), TwoEpochs(i, s, j, t)) == Block(STATE_VECTOR_ENTRY,
      Wires([NameBlock(NodeName(letter)), SeqBlock(EPOCH + i, s), SeqBlock(EPOCH + j, t)]))
  {
    hide SeqBlock, NameBlock, Wires;
    var row := TwoEpochs(i, s, j, t);
    SortedNumberPair(EPOCH + i, EPOCH + j);
    assert row.Keys == {EPOCH + i, EPOCH + j};
    var n, x, y := NameBlock(NodeName(letter)), SeqBlock(EPOCH + i, s), SeqBlock(EPOCH + j, t);
    assert RowBlocks(row, [EPOCH + i, EPOCH + j]) == [x, y];
    assert [n] + [x, y] == [n, x, y];
  }

  /** A node with two epochs. */
  lemma TwoEpochsBytes(letter: byte, i: byte, s: byte, j: byte, t: byte)
    requires i < j
    ensures Wire(NodeBlock(NodeName(letter), TwoEpochs(i, s, j, t)))
      == [0xca, 0x21] + (NodeBytes(letter) + (SeqBytes(i, s) + SeqBytes(j, t)))
  {
    hide SeqBlock, NameBlock, NodeBlock, Wires, Wire, NodeBytes, SeqBytes, TwoEpochs;
    TwoEpochsBlock(letter, i, s, j, t);
    ThreeWires(NameBlock(NodeName(letter)), SeqBlock(EPOCH + i, s), SeqBlock(EPOCH + j, t));
    NodeNameBytes(letter);
    SeqBlockBytes(i, s);
    SeqBlockBytes(j, t);
    ShortWire(NodeBlock(NodeName(letter), TwoEpochs(i, s, j, t)));
  }

  /** /node/a with two epochs, /node/b with one. */
  function MultiEpoch(): Vector {
    var v: Entries := map[NODE_B := OneEpoch(200, 3), NODE_A := TwoEpochs(0, 7, 100, 2)];
    assert EPOCH + 200 in v[NODE_B] && EPOCH in v[NODE_A];
    v
  }

  lemma MultiEpochBlocks()
    ensures var a := NodeBlock(NODE_A, TwoEpochs(0, 7, 100, 2));
      var b := NodeBlock(NODE_B, OneEpoch(200, 3));
      VectorBlock(MultiEpoch()) == Block(STATE_VECTOR, Wires([a, b]))
  {
    var v := MultiEpoch();
    LettersAreOrdered();
    hide NodeBlock, Wires, OneEpoch, TwoEpochs, NodeName, NameLess;
    SortedNamePair(NODE_A, NODE_B);
    assert v.Keys == {NODE_A, NODE_B};
    assert NodeBlocks(v, [NODE_A, NODE_B]) == [NodeBlock(NODE_A, v[NODE_A]), NodeBlock(NODE_B, v[NODE_B])];
  }

  /** The fixture with several epochs: nodes in canonical order, epochs ascending. */
  lemma MultiEpochVector()
    ensures Wire(VectorBlock(MultiEpoch())) == [0xc9, 0x3b]
      + (([0xca, 0x21] + (NodeBytes(0x61) + (SeqBytes(0, 7) + SeqBytes(0x64, 2))))
         + ([0xca, 0x16] + (NodeBytes(0x62) + SeqBytes(0xc8, 3))))
  {
    MultiEpochBlocks();
    hide OneEpoch, TwoEpochs, NodeBlock, Wires, Wire, MultiEpoch, VectorBlock, NodeBytes, SeqBytes;
    var a := NodeBlock(NODE_A, TwoEpochs(0, 7, 100, 2));
    var b := NodeBlock(NODE_B, OneEpoch(200, 3));
    TwoWires(a, b);
    TwoEpochsBytes(0x61, 0, 7, 0x64, 2);
    NodeBlockBytes(0x62, 0xc8, 3);
    ShortWire(VectorBlock(MultiEpoch()));
  }

  // ---------- V2 ----------

  lemma NodeBytesV2(letter: byte, s: byte)
    ensures Wire(NodeBlockV2(NodeName(letter), s)) == [0xca, 0x0e] + (NodeBytes(letter) + [0xcc, 1, s])
  {
    var n, x := NameBlock(NodeName(letter)), Block(SEQ_NO_V2, Nni(s));
    assert Nni(s) == [s] && Wire(x) == [0xcc, 1, s];
    TwoWires(n, x);
    NodeNameBytes(letter);
    var node := NodeBlockV2(NodeName(letter), s);
    hide Wires, Wire, NameBlock, Nni, NodeBytes;
    ShortWire(node);
  }

  lemma BaselineVectorV2()
    ensures Wire(VectorBlockV2(map[NODE_A := 1])) == [0xc9, 0x10] + ([0xca, 0x0e] + (NodeBytes(0x61) + [0xcc, 1, 1]))
  {
    var latest: map<Name, uint64> := map[NODE_A := 1];
    SortedSingletons(NODE_A, 0);
    assert latest.Keys == {NODE_A};
    var node := NodeBlockV2(NODE_A, 1);
    hide NodeBlockV2;
    assert NodeBlocksV2(latest, [NODE_A]) == [node];
    WiresOne(node);
    NodeBytesV2(0x61, 1);
    var vector := VectorBlockV2(latest);
    assert vector == Block(STATE_VECTOR, Wires([node]));
    hide Wires, Wire, VectorBlockV2, NodeBytes;
    ShortWire(vector);
  }

  /** The V2 baseline: number 1 of /node/a in plain parameters, without an epoch. */
  lemma BaselineV2(v: Vector, sig: Signature)
    ensures Wire(Block(APPLICATION_PARAMETERS, ParameterValue(GROUP, V2, v, map[NODE_A := 1], [], sig)))
      == [0x24, 0x12] + ([0xc9, 0x10] + ([0xca, 0x0e] + (NodeBytes(0x61) + [0xcc, 1, 1])))
  {
    var vector := VectorBlockV2(map[NODE_A := 1]);
    BaselineVectorV2();
    WiresOne(vector);
    assert [vector] + [] == [vector];
    var all := Block(APPLICATION_PARAMETERS, ParameterValue(GROUP, V2, v, map[NODE_A := 1], [], sig));
    hide VectorBlockV2, Wires, Wire, NodeBytes;
    ShortWire(all);
  }

  // ---------- mapping lists and repair requests ----------

  /** Mapping of number s of /node/a to the name /node/b, without extra blocks. */
  function OneMapping(s: uint64): MappingList { MappingList(NODE_A, [MappingEntry(EPOCH, s, NODE_B, [])]) }

  lemma OneMappingBlock(s: byte, p: Protocol)
    ensures var number := NumberBlock(MappingEntry(EPOCH, s, NODE_B, []), p);
      var e := Block(MAPPING_ENTRY, Wires([number, NameBlock(NODE_B)]));
      MappingBlock(OneMapping(s), p) == Block(MAPPING_DATA, Wires([NameBlock(NODE_A), e]))
  {
    hide NumberBlock, NameBlock, Wires;
    var x := MappingEntry(EPOCH, s, NODE_B, []);
    var number, name := NumberBlock(x, p), NameBlock(NODE_B);
    assert [number, name] + Reverse([]) == [number, name];
    var e := EntryBlock(x, p);
    assert e == Block(MAPPING_ENTRY, Wires([number, name]));
    hide EntryBlock;
    assert Reverse(EntryBlocks([x], p)) == [e];
    assert [NameBlock(NODE_A)] + [e] == [NameBlock(NODE_A), e];
  }

  lemma MappingWire(s: byte, p: Protocol, number: seq<byte>)
    requires Wire(NumberBlock(MappingEntry(EPOCH, s, NODE_B, []), p)) == number && |number| < 20
    ensures Wire(MappingBlock(OneMapping(s), p)) == [0xcd, 24 + |number|]
      + (NodeBytes(0x61) + ([0xce, 11 + |number|] + (number + NodeBytes(0x62))))
  {
    hide NumberBlock, NameBlock, Wires, Wire, NodeBytes, MappingBlock, NodeName;
    OneMappingBlock(s, p);
    var n := NumberBlock(MappingEntry(EPOCH, s, NODE_B, []), p);
    var e := Block(MAPPING_ENTRY, Wires([n, NameBlock(NODE_B)]));
    NodeNameBytes(0x61);
    NodeNameBytes(0x62);
    TwoWires(n, NameBlock(NODE_B));
    ShortWire(e);
    TwoWires(NameBlock(NODE_A), e);
    ShortWire(MappingBlock(OneMapping(s), p));
  }

  /** A mapping in V3, with its epoch, and in V2, without. */
  lemma MappingBytes(s: byte)
    ensures Wire(MappingBlock(OneMapping(s), V3)) == [0xcd, 0x23]
      + (NodeBytes(0x61) + ([0xce, 0x16] + (SeqBytes(0, s) + NodeBytes(0x62))))
    ensures Wire(MappingBlock(OneMapping(s), V2)) == [0xcd, 0x1b]
      + (NodeBytes(0x61) + ([0xce, 0x0e] + ([0xd6, 1, s] + NodeBytes(0x62))))
  {
    hide MappingBlock, NodeBytes, SeqBytes, SeqBlock;
    SeqBlockBytes(0, s);
    MappingWire(s, V3, SeqBytes(0, s));
    ByteBlock(SEQ_NO, s);
    MappingWire(s, V2, [0xd6, 1, s]);
  }

  lemma RepairEntryBytes(low: byte, high: byte)
    ensures Wire(RepairEntryBlock(Range(NODE_A, low, high, EPOCH))) == [0xd9, 0x17]
      + (NodeBytes(0x61) + ([0xd4, 4, 0x65, 0x53, 0xf1, 0] + ([0xd6, 1, low] + [0xd6, 1, high])))
  {
    hide Wire, Wires, NameBlock, NodeBytes, Nni;
    var r := Range(NODE_A, low, high, EPOCH);
    var a, b := NameBlock(NODE_A), Block(BOOTSTRAP_TIME, Nni(EPOCH + 0));
    var c, d := Block(SEQ_NO, Nni(low)), Block(SEQ_NO, Nni(high));
    EpochBlock(0);
    NodeNameBytes(0x61);
    ByteBlock(SEQ_NO, low);
    ByteBlock(SEQ_NO, high);
    WiresCons(a, [b, c, d]);
    ThreeWires(b, c, d);
    assert [a] + [b, c, d] == RepairFields(r);
    ShortWire(RepairEntryBlock(r));
  }

  /** A repair request for a range of numbers of /node/a. */
  lemma RepairBytes(low: byte, high: byte)
    ensures Wire(RepairBlock([Range(NODE_A, low, high, EPOCH)])) == [0xd8, 0x19] + ([0xd9, 0x17]
      + (NodeBytes(0x61) + ([0xd4, 4, 0x65, 0x53, 0xf1, 0] + ([0xd6, 1, low] + [0xd6, 1, high]))))
  {
    var r := Range(NODE_A, low, high, EPOCH);
    hide RepairEntryBlock, Wire, Wires, NodeBytes;
    assert RepairBlocks([r]) == [RepairEntryBlock(r)];
    WiresOne(RepairEntryBlock(r));
    RepairEntryBytes(low, high);
    ShortWire(RepairBlock([r]));
  }

  // ---------- which extensions are refused ----------

  ghost predicate Twice(xs: seq<Block>, t: int) {
    exists i, j :: 0 <= i < j < |xs| && xs[i].typ == xs[j].typ == t
  }

  /**
   * The sender refuses extensions exactly when there are more than 16, one has the type of a state vector or of
   * Data, or two are mapping blocks or two are repair blocks. Blocks of any other type may repeat.
   */
  lemma RefusedExactly(p: Protocol, v: Vector, latest: map<Name, uint64>, xs: seq<Block>, sig: Signature,
      digest: seq<byte>)
    ensures EncodeInterest(GROUP, p, v, latest, xs, sig, digest).None? <==>
      || |xs| > 16
      || (exists x :: x in xs && (x.typ == 201 || x.typ == 6))
      || Twice(xs, 205) || Twice(xs, 216)
  {
    hide ParameterValue;
    if !Acceptable(xs) && |xs| <= 16 && forall x :: x in xs ==> x.typ != 201 && x.typ != 6 {
      var i, j :| 0 <= i < j < |xs| && Known(xs[i].typ) && xs[i].typ == xs[j].typ;
      assert Twice(xs, xs[i].typ);
    }
  }
}
