/** Signed Data packets as TLV blocks ("Data Packet" section of the NDN Packet Format Specification v0.3). */
module DataPacket {
  import opened Names
  import opened Tlv

  const DATA: TlvType := 6
  const META_INFO: TlvType := 20
  const CONTENT: TlvType := 21
  const SIGNATURE_INFO: TlvType := 22
  const SIGNATURE_VALUE: TlvType := 23

  /** What the signer attaches to a packet. */
  datatype Signature = Signature(info: seq<byte>, value: seq<byte>)

  /** The parts of a packet that its readers look at. */
  datatype Packet = Packet(name: Name, meta: seq<byte>, content: seq<byte>)

  function SignatureBlocks(sig: Signature): seq<Block> {
    [Block(SIGNATURE_INFO, sig.info), Block(SIGNATURE_VALUE, sig.value)]
  }

  function DataElements(p: Packet, sig: Signature): seq<Block> {
    [NameBlock(p.name), Block(META_INFO, p.meta), Block(CONTENT, p.content)] + SignatureBlocks(sig)
  }

  function DataBlock(p: Packet, sig: Signature): Block {
    Block(DATA, Wires(DataElements(p, sig)))
  }

  /** Name, meta information and content of a Data block. */
  function ReadData(b: Block): Option<Packet> {
    var es := Elements(b.value);
    if b.typ != DATA || es.None? || |es.value| != 5 then None
    else if es.value[1].typ != META_INFO || es.value[2].typ != CONTENT || es.value[3].typ != SIGNATURE_INFO
        || es.value[4].typ != SIGNATURE_VALUE then None
    else
      var n := ReadName(es.value[0]);
      if n.None? then None else Some(Packet(n.value, es.value[1].value, es.value[2].value))
  }

  /** A packet's value: the wires of its five parts, one after the other. */
  lemma DataValue(p: Packet, sig: Signature)
    ensures DataBlock(p, sig).value == Wire(NameBlock(p.name)) + (Wire(Block(META_INFO, p.meta))
      + (Wire(Block(CONTENT, p.content)) + (Wire(Block(SIGNATURE_INFO, sig.info))
      + Wire(Block(SIGNATURE_VALUE, sig.value)))))
  {
    hide Wire, NameBlock;
    var a, b, c := NameBlock(p.name), Block(META_INFO, p.meta), Block(CONTENT, p.content);
    var d, e := Block(SIGNATURE_INFO, sig.info), Block(SIGNATURE_VALUE, sig.value);
    WiresCons(a, [b, c, d, e]);
    WiresCons(b, [c, d, e]);
    WiresCons(c, [d, e]);
    WiresCons(d, [e]);
    WiresOne(e);
    assert [a, b, c] + [d, e] == [a] + [b, c, d, e] && [b, c, d, e] == [b] + [c, d, e];
    assert [c, d, e] == [c] + [d, e] && [d, e] == [d] + [e];
  }

  lemma DataRoundTrip(p: Packet, sig: Signature)
    requires |DataBlock(p, sig).value| < SIZE_LIMIT
    ensures ReadData(DataBlock(p, sig)) == Some(p)
  {
    hide Wires, Elements, ReadName, NameBlock;
    var es := DataElements(p, sig);
    Unpack(es);
    assert es[0] in es;
    NameRoundTrip(p.name);
  }
}
