/** The signed segments of a publication, inner and outer, down to bytes (svspubsub.cpp, prepareOuterSegment). */
module SegmentWire {
  import opened Names
  import opened Tlv
  import opened DataPacket
  import opened Segmentation

  const CONTENT_TYPE: TlvType := 24
  const FRESHNESS_PERIOD: TlvType := 25
  const FINAL_BLOCK_ID: TlvType := 26

  /** What all segments of a publication share. The signer's blocks have the same sizes on every packet. */
  datatype Publication = Publication(
    name: Name, dataName: Name, freshness: uint64, signatureInfo: nat, signatureValue: nat)

  /** An inner Data packet; a wire that does not parse as Data is None in a list of packets. */
  datatype Inner = Inner(name: Name, finalBlock: Option<Component>, content: seq<byte>)

  function SegmentComponent(n: uint64): Component { Component(SEGMENT, Nni(n)) }

  /** The name of one segment: version 0, then the segment number. */
  function SegmentName(base: Name, segmentNo: uint64): Name {
    base + [Component(VERSION, Nni(0)), SegmentComponent(segmentNo)]
  }

  function SegmentPacket(base: Name, segmentNo: uint64, final: uint64, content: seq<byte>): Inner {
    Inner(SegmentName(base, segmentNo), Some(SegmentComponent(final)), content)
  }

  // ---------- packets ----------

  function ComponentBlock(c: Component): Block { Block(c.typ, c.value) }

  /** The meta information before the FinalBlockId; defaults are not encoded. */
  function FixedMeta(contentType: uint64, freshness: uint64): seq<Block> {
    (if contentType == 0 then [] else [Block(CONTENT_TYPE, Nni(contentType))])
    + (if freshness == 0 then [] else [Block(FRESHNESS_PERIOD, Nni(freshness))])
  }

  function FinalBlock(c: Component): Block { Block(FINAL_BLOCK_ID, Wire(ComponentBlock(c))) }

  function Meta(contentType: uint64, freshness: uint64, final: Component): seq<byte> {
    Wires(FixedMeta(contentType, freshness) + [FinalBlock(final)])
  }

  function InnerPacket(p: Publication, segmentNo: uint64, final: uint64, content: seq<byte>): Packet {
    Packet(SegmentName(p.name, segmentNo), Meta(0, p.freshness, SegmentComponent(final)), content)
  }

  function InnerBlock(p: Publication, segmentNo: uint64, final: uint64, content: seq<byte>, sig: Signature): Block {
    DataBlock(InnerPacket(p, segmentNo, final, content), sig)
  }

  /** The packet that goes out: its content is the whole inner packet, which its content type says. */
  function OuterBlock(p: Publication, segmentNo: uint64, final: uint64, inner: Block, sig: Signature): Block {
    DataBlock(Packet(SegmentName(p.dataName, segmentNo), Meta(DATA, p.freshness, SegmentComponent(final)), Wire(inner)),
              sig)
  }

  ghost predicate SignedBy(p: Publication, sig: Signature) {
    |sig.info| == p.signatureInfo && |sig.value| == p.signatureValue
  }

  // ---------- sizes ----------

  /** The sizes of the parts that are the same in every segment. */
  function LayoutOf(p: Publication): Layout {
    var signature := TlvSize(p.signatureInfo) + TlvSize(p.signatureValue);
    Layout(FixedName(p.name), FixedName(p.dataName),
           |Wires(FixedMeta(0, p.freshness))|, |Wires(FixedMeta(DATA, p.freshness))|, signature, signature)
  }

  function FixedName(base: Name): nat { |Wires(ComponentBlocks(base + [Component(VERSION, Nni(0))]))| }

  lemma WireSize(b: Block)
    requires b.typ < 253
    ensures |Wire(b)| == TlvSize(|b.value|)
  {
  }

  lemma WiresSnoc(bs: seq<Block>, b: Block)
    ensures Wires(bs + [b]) == Wires(bs) + Wire(b)
  {
    WiresAppend(bs, [b]);
    WiresOne(b);
  }

  lemma NameSize(base: Name, n: uint64)
    ensures |NameBlock(SegmentName(base, n)).value| == FixedName(base) + TlvSize(NniWidth(n))
  {
    var fixed := base + [Component(VERSION, Nni(0))];
    var last := ComponentBlock(SegmentComponent(n));
    assert SegmentName(base, n) == fixed + [SegmentComponent(n)];
    assert ComponentBlocks(fixed + [SegmentComponent(n)]) == ComponentBlocks(fixed) + [last];
    WiresSnoc(ComponentBlocks(fixed), last);
    WireSize(last);
  }

  lemma MetaSize(contentType: uint64, freshness: uint64, n: uint64)
    ensures |Meta(contentType, freshness, SegmentComponent(n))|
         == |Wires(FixedMeta(contentType, freshness))| + TlvSize(TlvSize(NniWidth(n)))
  {
    hide FixedMeta;
    var c := SegmentComponent(n);
    WiresSnoc(FixedMeta(contentType, freshness), FinalBlock(c));
    WireSize(ComponentBlock(c));
    WireSize(FinalBlock(c));
  }

  /** What the size function measures: the wire of a signed segment. */
  lemma DataWireSize(base: Name, contentType: uint64, freshness: uint64, segmentNo: uint64, final: uint64,
                     content: seq<byte>, sig: Signature)
    ensures var d := DataBlock(
        Packet(SegmentName(base, segmentNo), Meta(contentType, freshness, SegmentComponent(final)), content), sig);
      |Wire(d)| == DataSize(FixedName(base), |Wires(FixedMeta(contentType, freshness))|,
                            TlvSize(|sig.info|) + TlvSize(|sig.value|), NniWidth(segmentNo), NniWidth(final), |content|)
  {
    NameSize(base, segmentNo);
    MetaSize(contentType, freshness, final);
    var meta := Meta(contentType, freshness, SegmentComponent(final));
    var p := Packet(SegmentName(base, segmentNo), meta, content);
    DataValue(p, sig);
    WireSize(NameBlock(p.name));
    WireSize(Block(META_INFO, meta));
    WireSize(Block(CONTENT, content));
    WireSize(Block(SIGNATURE_INFO, sig.info));
    WireSize(Block(SIGNATURE_VALUE, sig.value));
    WireSize(DataBlock(p, sig));
    hide Wire, Wires, TlvSize, Meta, SegmentName, FixedMeta, NniWidth, NameBlock, DataBlock;
  }

  /** The outer packet that goes out for a segment. */
  function SegmentBlock(p: Publication, segmentNo: uint64, final: uint64, content: seq<byte>, innerSig: Signature,
                        outerSig: Signature): Block {
    OuterBlock(p, segmentNo, final, InnerBlock(p, segmentNo, final, content, innerSig), outerSig)
  }

  /** A segment fits exactly when the wire of its signed outer packet keeps the packet limit. */
  lemma FitsIsWireSize(p: Publication, segmentNo: uint64, final: uint64, content: seq<byte>, innerSig: Signature,
                       outerSig: Signature)
    requires SignedBy(p, innerSig) && SignedBy(p, outerSig)
    ensures var wire := Wire(SegmentBlock(p, segmentNo, final, content, innerSig, outerSig));
      && |wire| == OuterSize(LayoutOf(p), NniWidth(segmentNo), NniWidth(final), |content|)
      && (Fits(LayoutOf(p), segmentNo, final, |content|) <==> |wire| <= MAX_NDN_PACKET_SIZE)
  {
    hide Wires, DataSize, TlvSize, Meta, SegmentName, FixedMeta, NniWidth, DataBlock;
    var inner := InnerBlock(p, segmentNo, final, content, innerSig);
    DataWireSize(p.name, 0, p.freshness, segmentNo, final, content, innerSig);
    DataWireSize(p.dataName, DATA, p.freshness, segmentNo, final, Wire(inner), outerSig);
  }

  // ---------- reading segments back ----------

  /** The final segment component that the meta information names, if any. */
  function ReadFinalBlock(es: seq<Block>): Option<Component> {
    if es == [] then None
    else if es[0].typ != FINAL_BLOCK_ID then ReadFinalBlock(es[1..])
    else
      var c := Elements(es[0].value);
      if c.None? || |c.value| != 1 || c.value[0].typ > 0xFFFF then None
      else Some(Component(c.value[0].typ, c.value[0].value))
  }

  /** A block read as an inner packet, None when it is not a Data packet. */
  function ReadInner(b: Block): Option<Inner> {
    var d := ReadData(b);
    if d.None? then None
    else
      var es := Elements(d.value.meta);
      if es.None? then None else Some(Inner(d.value.name, ReadFinalBlock(es.value), d.value.content))
  }

  lemma FinalBlockReads(contentType: uint64, freshness: uint64, c: Component)
    requires |Meta(contentType, freshness, c)| < SIZE_LIMIT
    ensures Elements(Meta(contentType, freshness, c)) == Some(FixedMeta(contentType, freshness) + [FinalBlock(c)])
    ensures ReadFinalBlock(FixedMeta(contentType, freshness) + [FinalBlock(c)]) == Some(c)
  {
    var fixed, last := FixedMeta(contentType, freshness), FinalBlock(c);
    var all := fixed + [last];
    Unpack(all);
    assert all[|fixed|] == last;
    assert last in all;
    WiresOne(ComponentBlock(c));
    Unpack([ComponentBlock(c)]);
    hide Elements, Wires, Wire, Nni;
    assert ReadFinalBlock([last]) == Some(c);
    SkipToLast(fixed, last);
  }

  lemma {:induction false} SkipToLast(fixed: seq<Block>, last: Block)
    requires forall b :: b in fixed ==> b.typ != FINAL_BLOCK_ID
    ensures ReadFinalBlock(fixed + [last]) == ReadFinalBlock([last])
  {
    if fixed == [] {
      assert fixed + [last] == [last];
    } else {
      assert (fixed + [last])[1..] == fixed[1..] + [last];
      SkipToLast(fixed[1..], last);
    }
  }

  /** An inner packet reads back with the name, final number and content it was built from. */
  lemma InnerReadsBack(p: Publication, segmentNo: uint64, final: uint64, content: seq<byte>, sig: Signature)
    requires |InnerBlock(p, segmentNo, final, content, sig).value| < SIZE_LIMIT
    ensures ReadInner(InnerBlock(p, segmentNo, final, content, sig))
         == Some(SegmentPacket(p.name, segmentNo, final, content))
  {
    var d := InnerPacket(p, segmentNo, final, content);
    DataRoundTrip(d, sig);
    var es := DataElements(d, sig);
    WiresLength(es);
    assert es[1] in es;
    FinalBlockReads(0, p.freshness, SegmentComponent(final));
    hide Elements, Wires, ReadData, ReadFinalBlock, SegmentName;
  }

  /** From the wire of an outer packet that fits, the receiver gets the inner packet back. */
  lemma OuterReadsBack(p: Publication, segmentNo: uint64, final: uint64, content: seq<byte>, innerSig: Signature,
                       outerSig: Signature)
    requires |Wire(SegmentBlock(p, segmentNo, final, content, innerSig, outerSig))| <= MAX_NDN_PACKET_SIZE
    ensures var outer := SegmentBlock(p, segmentNo, final, content, innerSig, outerSig);
      var d := ReadData(outer);
      && ParseBlock(Wire(outer)) == Some((outer, |Wire(outer)|))
      && d.Some? && d.value.name == SegmentName(p.dataName, segmentNo)
      && Elements(d.value.content) == Some([InnerBlock(p, segmentNo, final, content, innerSig)])
      && ReadInner(InnerBlock(p, segmentNo, final, content, innerSig))
         == Some(SegmentPacket(p.name, segmentNo, final, content))
  {
    var inner := InnerBlock(p, segmentNo, final, content, innerSig);
    var meta := Meta(DATA, p.freshness, SegmentComponent(final));
    var packet := Packet(SegmentName(p.dataName, segmentNo), meta, Wire(inner));
    var outer := DataBlock(packet, outerSig);
    ParseWire(outer, []);
    assert Wire(outer) + [] == Wire(outer);
    DataRoundTrip(packet, outerSig);
    var es := DataElements(packet, outerSig);
    WiresLength(es);
    assert es[2] in es && |Wire(inner)| < SIZE_LIMIT;
    WiresOne(inner);
    Unpack([inner]);
    InnerReadsBack(p, segmentNo, final, content, innerSig);
    hide Wire, Wires, Elements, ReadData, ReadInner, SegmentName, Meta;
  }
}
