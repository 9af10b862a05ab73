/** Mapping lists (mapping-provider.cpp) and repair requests (svspubsub.cpp) on the wire. */
module ExtensionCodecs {
  import opened Names
  import opened Tlv
  import opened VectorCodec
  import opened Merge

  const MAPPING_DATA: TlvType := 205
  const MAPPING_ENTRY: TlvType := 206
  const REPAIR_DATA: TlvType := 216
  const REPAIR_ENTRY: TlvType := 217

  datatype Protocol = V2 | V3

  datatype MappingEntry = MappingEntry(epoch: uint64, seqNo: uint64, name: Name, extra: seq<Block>)
  datatype MappingList = MappingList(node: Name, pairs: seq<MappingEntry>)

  function Reverse<T>(s: seq<T>): (r: seq<T>)
    ensures |r| == |s|
  {
    seq(|s|, i requires 0 <= i < |s| => s[|s| - 1 - i])
  }

  lemma ReverseSnoc<T>(s: seq<T>, k: nat)
    requires k < |s|
    ensures Reverse(s[..k + 1]) == [s[k]] + Reverse(s[..k])
  {
  }

  // ---------- mapping lists ----------

  function NumberBlock(e: MappingEntry, p: Protocol): Block {
    if p.V2? then Block(SEQ_NO, Nni(e.seqNo)) else SeqBlock(e.epoch, e.seqNo)
  }

  /** The printer prepends in forward order, so the extra blocks come out reversed ... */
  function EntryBlock(e: MappingEntry, p: Protocol): Block {
    Block(MAPPING_ENTRY, Wires([NumberBlock(e, p), NameBlock(e.name)] + Reverse(e.extra)))
  }

  function EntryBlocks(pairs: seq<MappingEntry>, p: Protocol): (bs: seq<Block>)
    ensures |bs| == |pairs|
  {
    seq(|pairs|, i requires 0 <= i < |pairs| => EntryBlock(pairs[i], p))
  }

  /** ... and so do the entries. */
  function MappingBlock(l: MappingList, p: Protocol): Block {
    Block(MAPPING_DATA, Wires([NameBlock(l.node)] + Reverse(EntryBlocks(l.pairs, p))))
  }

  /** Epoch and number of a mapping; V2 has no epoch field. */
  function ReadNumber(b: Block, p: Protocol): Option<(uint64, uint64)> {
    if p.V2? then
      var s := ReadNni(b.value);
      if b.typ != SEQ_NO || s.None? then None else Some((0, s.value))
    else
      var es := Elements(b.value);
      if b.typ != SEQ_NO_ENTRY || es.None? || |es.value| < 2 || es.value[0].typ != BOOTSTRAP_TIME
          || es.value[1].typ != SEQ_NO then None
      else
        var e, s := ReadNni(es.value[0].value), ReadNni(es.value[1].value);
        if e.None? || s.None? then None else Some((e.value, s.value))
  }

  function ReadEntry(b: Block, p: Protocol): Option<MappingEntry> {
    var es := Elements(b.value);
    if es.None? || |es.value| < 2 then None
    else
      var number, name := ReadNumber(es.value[0], p), ReadName(es.value[1]);
      if number.None? || name.None? then None
      else Some(MappingEntry(number.value.0, number.value.1, name.value, es.value[2..]))
  }

  /** Unknown elements are skipped. */
  function ReadElements(bs: seq<Block>, p: Protocol, acc: MappingList): Option<MappingList> {
    if bs == [] then Some(acc)
    else if bs[0].typ == NAME_TYPE then
      var n := ReadName(bs[0]);
      if n.None? then None else ReadElements(bs[1..], p, acc.(node := n.value))
    else if bs[0].typ == MAPPING_ENTRY then
      var e := ReadEntry(bs[0], p);
      if e.None? then None else ReadElements(bs[1..], p, acc.(pairs := acc.pairs + [e.value]))
    else ReadElements(bs[1..], p, acc)
  }

  function ReadMapping(b: Block, p: Protocol): Option<MappingList> {
    var es := Elements(b.value);
    if es.None? then None else ReadElements(es.value, p, MappingList([], []))
  }

  /** What one pass over the wire does to an entry. */
  function Turned(e: MappingEntry, p: Protocol): MappingEntry {
    MappingEntry(if p.V2? then 0 else e.epoch, e.seqNo, e.name, Reverse(e.extra))
  }

  function TurnedAll(pairs: seq<MappingEntry>, p: Protocol): (r: seq<MappingEntry>)
    ensures |r| == |pairs|
  {
    seq(|pairs|, i requires 0 <= i < |pairs| => Turned(pairs[i], p))
  }

  lemma NumberRoundTrip(e: MappingEntry, p: Protocol)
    ensures ReadNumber(NumberBlock(e, p), p) == Some((if p.V2? then 0 else e.epoch, e.seqNo))
  {
    NniRoundTrip(e.seqNo);
    if p.V3? {
      var x, y := Block(BOOTSTRAP_TIME, Nni(e.epoch)), Block(SEQ_NO, Nni(e.seqNo));
      WiresCons(x, [y]);
      WiresOne(y);
      assert [x] + [y] == [x, y];
      PairElements(x, y);
      NniRoundTrip(e.epoch);
    }
  }

  lemma EntryRoundTrip(e: MappingEntry, p: Protocol)
    requires |EntryBlock(e, p).value| < SIZE_LIMIT
    ensures ReadEntry(EntryBlock(e, p), p) == Some(Turned(e, p)) && EntryBlock(e, p).typ == MAPPING_ENTRY
  {
    var bs := [NumberBlock(e, p), NameBlock(e.name)] + Reverse(e.extra);
    Unpack(bs);
    assert bs[1] == NameBlock(e.name) && bs[1] in bs && bs[2..] == Reverse(e.extra);
    NumberRoundTrip(e, p);
    NameRoundTrip(e.name);
  }

  lemma {:induction false} ElementsRoundTrip(pairs: seq<MappingEntry>, p: Protocol, acc: MappingList)
    requires forall x :: x in EntryBlocks(pairs, p) ==> |x.value| < SIZE_LIMIT
    ensures ReadElements(EntryBlocks(pairs, p), p, acc) == Some(acc.(pairs := acc.pairs + TurnedAll(pairs, p)))
    decreases |pairs|
  {
    hide EntryBlock, ReadEntry, Turned, Elements, Wires;
    if pairs == [] {
      assert acc.pairs + TurnedAll(pairs, p) == acc.pairs;
    } else {
      assert EntryBlocks(pairs, p)[0] == EntryBlock(pairs[0], p);
      EntryRoundTrip(pairs[0], p);
      assert EntryBlocks(pairs, p)[1..] == EntryBlocks(pairs[1..], p);
      var next := acc.(pairs := acc.pairs + [Turned(pairs[0], p)]);
      ElementsRoundTrip(pairs[1..], p, next);
      assert TurnedAll(pairs, p) == [Turned(pairs[0], p)] + TurnedAll(pairs[1..], p);
      assert next.pairs + TurnedAll(pairs[1..], p) == acc.pairs + TurnedAll(pairs, p);
    }
  }

  /** One pass keeps the node and reverses the pairs and each pair's extra blocks; V2 loses the epochs. */
  lemma MappingRoundTrip(l: MappingList, p: Protocol)
    requires |MappingBlock(l, p).value| < SIZE_LIMIT
    ensures ReadMapping(MappingBlock(l, p), p) == Some(MappingList(l.node, TurnedAll(Reverse(l.pairs), p)))
  {
    var entries := EntryBlocks(Reverse(l.pairs), p);
    assert Reverse(EntryBlocks(l.pairs, p)) == entries;
    var bs := [NameBlock(l.node)] + entries;
    Unpack(bs);
    assert bs[0] in bs && bs[1..] == entries;
    forall x | x in entries ensures |x.value| < SIZE_LIMIT { assert x in bs; }
    NameRoundTrip(l.node);
    NameIsName(l.node);
    hide EntryBlocks, TurnedAll, ReadEntry, Reverse, Elements, Wires, NameBlock, ReadName;
    ElementsRoundTrip(Reverse(l.pairs), p, MappingList(l.node, []));
    var turned := TurnedAll(Reverse(l.pairs), p);
    assert [] + turned == turned;
    assert ReadElements(bs, p, MappingList([], [])) == ReadElements(entries, p, MappingList(l.node, []));
  }

  lemma NameIsName(n: Name)
    ensures NameBlock(n).typ == NAME_TYPE
  {
  }

  /** Two V3 passes are the identity. */
  lemma MappingTwice(l: MappingList)
    requires |MappingBlock(l, V3).value| < SIZE_LIMIT
    requires ReadMapping(MappingBlock(l, V3), V3).Some?
    requires |MappingBlock(ReadMapping(MappingBlock(l, V3), V3).value, V3).value| < SIZE_LIMIT
    ensures ReadMapping(MappingBlock(ReadMapping(MappingBlock(l, V3), V3).value, V3), V3) == Some(l)
  {
    hide MappingBlock, ReadMapping;
    MappingRoundTrip(l, V3);
    var once := MappingList(l.node, TurnedAll(Reverse(l.pairs), V3));
    MappingRoundTrip(once, V3);
    TurnedTwice(l.pairs);
  }

  lemma TurnedTwice(pairs: seq<MappingEntry>)
    ensures TurnedAll(Reverse(TurnedAll(Reverse(pairs), V3)), V3) == pairs
  {
    var once := TurnedAll(Reverse(pairs), V3);
    forall i | 0 <= i < |pairs| ensures TurnedAll(Reverse(once), V3)[i] == pairs[i] {
      assert Reverse(once)[i] == Turned(pairs[i], V3);
      assert Reverse(Reverse(pairs[i].extra)) == pairs[i].extra;
    }
  }

  method PrependReversed(enc: EncodingBuffer, bs: seq<Block>) returns (k: nat)
    modifies enc
    ensures enc.bytes == Wires(Reverse(bs)) + old(enc.bytes) && k == |Wires(Reverse(bs))|
  {
    hide Wire;
    ghost var rest := enc.bytes;
    k := 0;
    assert Reverse(bs[..0]) == [] && Wires([]) == [];
    for i := 0 to |bs|
      invariant enc.bytes == Wires(Reverse(bs[..i])) + rest && k == |Wires(Reverse(bs[..i]))|
    {
      var l := enc.PrependBlock(bs[i]);
      k := k + l;
      ReverseSnoc(bs, i);
      WiresCons(bs[i], Reverse(bs[..i]));
      assert Wire(bs[i]) + (Wires(Reverse(bs[..i])) + rest) == (Wire(bs[i]) + Wires(Reverse(bs[..i]))) + rest;
    }
    assert bs[..|bs|] == bs;
  }

  method PrependEntry(enc: EncodingBuffer, e: MappingEntry, p: Protocol) returns (k: nat)
    modifies enc
    ensures enc.bytes == Wire(EntryBlock(e, p)) + old(enc.bytes) && k == |Wire(EntryBlock(e, p))|
  {
    hide Wires, NameBlock, SeqBlock, Reverse;
    ghost var rest := enc.bytes;
    var extra := Reverse(e.extra);
    var entryLength := PrependReversed(enc, e.extra);
    var l := enc.PrependBlock(NameBlock(e.name));
    entryLength := entryLength + l;
    if p.V2? { l := enc.PrependNniBlock(SEQ_NO, e.seqNo); } else { l := PrependSeq(enc, e.epoch, e.seqNo); }
    entryLength := entryLength + l;
    ghost var bs := [NumberBlock(e, p), NameBlock(e.name)] + extra;
    WiresCons(NameBlock(e.name), extra);
    WiresCons(NumberBlock(e, p), [NameBlock(e.name)] + extra);
    assert [NumberBlock(e, p)] + ([NameBlock(e.name)] + extra) == bs;
    assert enc.bytes == Wires(bs) + rest;
    assert enc.bytes[..entryLength] == Wires(bs) && enc.bytes[entryLength..] == rest;
    l := enc.PrependHeader(MAPPING_ENTRY, entryLength);
    k := entryLength + l;
  }

  /** MappingList::encode. */
  method EncodeMapping(l: MappingList, p: Protocol) returns (wire: seq<byte>)
    ensures wire == Wire(MappingBlock(l, p))
  {
    var enc := new EncodingBuffer();
    ghost var bs := EntryBlocks(l.pairs, p);
    var totalLength := 0;
    assert Reverse(bs[..0]) == [] && Wires([]) == [];
    for i := 0 to |l.pairs|
      invariant fresh(enc)
      invariant enc.bytes == Wires(Reverse(bs[..i])) && totalLength == |enc.bytes|
    {
      hide EntryBlock, Wire;
      var k := PrependEntry(enc, l.pairs[i], p);
      ReverseSnoc(bs, i);
      WiresCons(bs[i], Reverse(bs[..i]));
      totalLength := totalLength + k;
    }
    assert bs[..|bs|] == bs;
    var k := enc.PrependBlock(NameBlock(l.node));
    totalLength := totalLength + k;
    WiresCons(NameBlock(l.node), Reverse(bs));
    assert enc.bytes[..totalLength] == enc.bytes && enc.bytes[totalLength..] == [];
    k := enc.PrependHeader(MAPPING_DATA, totalLength);
    wire := enc.bytes;
  }

  method DecodeMapping(b: Block, p: Protocol) returns (r: Option<MappingList>)
    ensures r == ReadMapping(b, p)
  {
    var es := Elements(b.value);
    if es.None? { return None; }
    var bs := es.value;
    var list := MappingList([], []);
    for i := 0 to |bs|
      invariant ReadElements(bs[i..], p, list) == ReadMapping(b, p)
    {
      assert bs[i..][1..] == bs[i + 1..];
      if bs[i].typ == NAME_TYPE {
        var n := ReadName(bs[i]);
        if n.None? { return None; }
        list := list.(node := n.value);
      } else if bs[i].typ == MAPPING_ENTRY {
        var e := ReadEntry(bs[i], p);
        if e.None? { return None; }
        list := list.(pairs := list.pairs + [e.value]);
      }
    }
    r := Some(list);
  }

  // ---------- repair requests ----------

  function RepairBlocks(rs: seq<Range>): (bs: seq<Block>)
    ensures |bs| == |rs|
  {
    seq(|rs|, i requires 0 <= i < |rs| => RepairEntryBlock(rs[i]))
  }

  function RepairFields(r: Range): seq<Block> {
    [NameBlock(r.node), Block(BOOTSTRAP_TIME, Nni(r.epoch)), Block(SEQ_NO, Nni(r.low)), Block(SEQ_NO, Nni(r.high))]
  }

  function RepairEntryBlock(r: Range): Block { Block(REPAIR_ENTRY, Wires(RepairFields(r))) }

  function RepairBlock(rs: seq<Range>): Block { Block(REPAIR_DATA, Wires(RepairBlocks(rs))) }

  predicate ValidRange(r: Range) { 1 <= r.low <= r.high }

  function ReadRepair(b: Block): Option<Range> {
    var es := Elements(b.value);
    if b.typ != REPAIR_ENTRY || es.None? || |es.value| != 4 || es.value[1].typ != BOOTSTRAP_TIME
        || es.value[2].typ != SEQ_NO || es.value[3].typ != SEQ_NO then None
    else
      var n, e := ReadName(es.value[0]), ReadNni(es.value[1].value);
      var low, high := ReadNni(es.value[2].value), ReadNni(es.value[3].value);
      if n.None? || e.None? || low.None? || high.None? then None
      else
        var r := Range(n.value, low.value, high.value, e.value);
        if ValidRange(r) then Some(r) else None
  }

  function ReadRepairList(bs: seq<Block>): Option<seq<Range>> {
    if bs == [] then Some([])
    else
      var r := ReadRepair(bs[0]);
      if r.None? then None
      else
        var rest := ReadRepairList(bs[1..]);
        if rest.None? then None else Some([r.value] + rest.value)
  }

  function ReadRepairs(b: Block): Option<seq<Range>> {
    var es := Elements(b.value);
    if es.None? then None else ReadRepairList(es.value)
  }

  lemma RepairEntryRoundTrip(r: Range)
    requires |RepairEntryBlock(r).value| < SIZE_LIMIT
    ensures ReadRepair(RepairEntryBlock(r)) == if ValidRange(r) then Some(r) else None
  {
    hide Wires, Elements, ReadName, NameBlock, Nni, ReadNni;
    var bs := RepairFields(r);
    Unpack(bs);
    assert bs[0] in bs;
    NameRoundTrip(r.node);
    NameIsName(r.node);
    NniRoundTrip(r.epoch);
    NniRoundTrip(r.low);
    NniRoundTrip(r.high);
  }

  lemma {:induction false} RepairListRoundTrip(rs: seq<Range>)
    requires forall x :: x in RepairBlocks(rs) ==> |x.value| < SIZE_LIMIT
    ensures ReadRepairList(RepairBlocks(rs)) == if forall r :: r in rs ==> ValidRange(r) then Some(rs) else None
    decreases |rs|
  {
    hide RepairEntryBlock, ReadRepair, Wires;
    if rs != [] {
      assert RepairBlocks(rs)[0] == RepairEntryBlock(rs[0]);
      RepairEntryRoundTrip(rs[0]);
      assert RepairBlocks(rs)[1..] == RepairBlocks(rs[1..]);
      RepairListRoundTrip(rs[1..]);
      assert rs == [rs[0]] + rs[1..];
      assert forall r :: r in rs <==> r == rs[0] || r in rs[1..];
    }
  }

  /** Requests come back in order, exactly when every range is non-empty and starts at 1 or above. */
  lemma RepairRoundTrip(rs: seq<Range>)
    requires |RepairBlock(rs).value| < SIZE_LIMIT
    ensures ReadRepairs(RepairBlock(rs)) == if forall r :: r in rs ==> ValidRange(r) then Some(rs) else None
  {
    Unpack(RepairBlocks(rs));
    RepairListRoundTrip(rs);
  }

  method PrependRepair(enc: EncodingBuffer, r: Range) returns (k: nat)
    modifies enc
    ensures enc.bytes == Wire(RepairEntryBlock(r)) + old(enc.bytes) && k == |Wire(RepairEntryBlock(r))|
  {
    hide Wire, Wires, NameBlock;
    ghost var rest := enc.bytes;
    var l0 := enc.PrependNniBlock(SEQ_NO, r.high);
    var l1 := enc.PrependNniBlock(SEQ_NO, r.low);
    var l2 := enc.PrependNniBlock(BOOTSTRAP_TIME, r.epoch);
    var l3 := enc.PrependBlock(NameBlock(r.node));
    var entryLength := l0 + l1 + l2 + l3;
    ghost var n, e, lo, hi :=
        NameBlock(r.node), Block(BOOTSTRAP_TIME, Nni(r.epoch)), Block(SEQ_NO, Nni(r.low)), Block(SEQ_NO, Nni(r.high));
    WiresOne(hi);
    WiresCons(lo, [hi]);
    WiresCons(e, [lo] + [hi]);
    WiresCons(n, [e] + ([lo] + [hi]));
    assert [n] + ([e] + ([lo] + [hi])) == RepairFields(r);
    assert enc.bytes == Wires(RepairFields(r)) + rest;
    assert enc.bytes[..entryLength] == Wires(RepairFields(r)) && enc.bytes[entryLength..] == rest;
    var l := enc.PrependHeader(REPAIR_ENTRY, entryLength);
    k := entryLength + l;
  }

  /** encodeRepairRequests. */
  method EncodeRepairs(rs: seq<Range>) returns (wire: seq<byte>)
    ensures wire == Wire(RepairBlock(rs))
  {
    var enc := new EncodingBuffer();
    ghost var bs := RepairBlocks(rs);
    var totalLength := 0;
    for i := |rs| downto 0
      invariant fresh(enc)
      invariant enc.bytes == Wires(bs[i..]) && totalLength == |enc.bytes|
    {
      hide RepairEntryBlock, Wire;
      var l := PrependRepair(enc, rs[i]);
      WiresStep(bs, i);
      totalLength := totalLength + l;
    }
    assert bs[0..] == bs;
    assert enc.bytes[..totalLength] == enc.bytes && enc.bytes[totalLength..] == [];
    var _ := enc.PrependHeader(REPAIR_DATA, totalLength);
    wire := enc.bytes;
  }

  method DecodeRepairs(b: Block) returns (r: Option<seq<Range>>)
    ensures r == ReadRepairs(b)
  {
    hide ReadRepair, Elements;
    var es := Elements(b.value);
    if es.None? { return None; }
    var bs := es.value;
    var requests: seq<Range> := [];
    ghost var all := ReadRepairList(bs);
    assert bs[0..] == bs && (all.Some? ==> [] + all.value == all.value);
    for i := 0 to |bs|
      invariant var rest := ReadRepairList(bs[i..]);
                ReadRepairs(b) == if rest.None? then None else Some(requests + rest.value)
    {
      assert bs[i..][1..] == bs[i + 1..];
      var x := ReadRepair(bs[i]);
      if x.None? { return None; }
      ghost var rest := ReadRepairList(bs[i + 1..]);
      assert rest.Some? ==> requests + ([x.value] + rest.value) == (requests + [x.value]) + rest.value;
      requests := requests + [x.value];
    }
    assert requests + [] == requests;
    r := Some(requests);
  }
}
