/**
 * What the readers accept, as grammars: a byte string is accepted exactly when it can be written down in the form
 * that the format prescribes. With the round trips this leaves a reader no freedom.
 */
module WireGrammar {
  import opened Names
  import opened StateVector
  import opened Tlv
  import opened DataPacket
  import opened VectorCodec
  import opened Merge
  import opened ExtensionCodecs
  import opened SyncEnvelope

  // ---------- blocks ----------

  lemma {:induction false} BigEndianOfValue(s: seq<byte>)
    ensures BigEndian(Value(s), |s|) == s
  {
    if s != [] {
      var init, last := s[..|s| - 1], s[|s| - 1];
      BigEndianOfValue(init);
      assert Value(s) / 256 == Value(init) && Value(s) % 256 == last;
      assert s == init + [last];
    }
  }

  /** A number is read from its shortest form only. */
  lemma VarNumberExactly(s: seq<byte>)
    ensures var r := ReadVarNumber(s);
      r.Some? ==> r.value.0 < SIZE_LIMIT && r.value.1 == VarSize(r.value.0) && s[..r.value.1] == VarNumber(r.value.0)
  {
    var r := ReadVarNumber(s);
    if r.Some? && s[0] >= 253 {
      var w := r.value.1 - 1;
      BigEndianOfValue(s[1..1 + w]);
      ValueBounded(s[1..1 + w]);
      Powers();
      assert s[..1 + w] == [s[0]] + s[1..1 + w];
    }
  }

  lemma ParseExactly(s: seq<byte>)
    ensures var r := ParseBlock(s); r.Some? ==> r.value.1 == |Wire(r.value.0)| && s[..r.value.1] == Wire(r.value.0)
  {
    hide ReadVarNumber, VarNumber, VarSize;
    var r := ParseBlock(s);
    if r.Some? {
      var t := ReadVarNumber(s);
      var l := ReadVarNumber(s[t.value.1..]);
      VarNumberExactly(s);
      VarNumberExactly(s[t.value.1..]);
      var start := t.value.1 + l.value.1;
      assert s[..start] == s[..t.value.1] + s[t.value.1..][..l.value.1];
      assert s[..r.value.1] == s[..start] + s[start..r.value.1];
    }
  }

  /** Parsing and printing a sequence of blocks are inverse to each other: nothing else parses. */
  lemma {:induction false} ElementsExactly(s: seq<byte>, bs: seq<Block>)
    requires |s| < SIZE_LIMIT
    ensures Elements(s) == Some(bs) <==> s == Wires(bs)
    decreases |s|
  {
    if s == Wires(bs) { ElementsOfWires(bs); }
    if Elements(s) == Some(bs) && s != [] {
      var b := ParseBlock(s).value;
      ParseExactly(s);
      ElementsExactly(s[b.1..], bs[1..]);
      assert s == s[..b.1] + s[b.1..];
    }
  }

  lemma {:induction false} ComponentsExactly(bs: seq<Block>, n: Name)
    requires BlocksToName(bs) == Some(n)
    ensures bs == ComponentBlocks(n)
  {
    if bs != [] {
      ComponentsExactly(bs[1..], n[1..]);
      assert ComponentBlocks(n)[1..] == ComponentBlocks(n[1..]);
      assert bs == [bs[0]] + bs[1..];
    }
  }

  lemma NameExactly(b: Block, n: Name)
    requires |b.value| < SIZE_LIMIT
    ensures ReadName(b) == Some(n) <==> b == NameBlock(n)
  {
    if ReadName(b) == Some(n) {
      var bs := Elements(b.value).value;
      ElementsExactly(b.value, bs);
      ComponentsExactly(bs, n);
    } else if b == NameBlock(n) {
      NameRoundTrip(n);
    }
  }

  lemma DataExactly(b: Block, p: Packet)
    requires |b.value| < SIZE_LIMIT
    ensures ReadData(b) == Some(p) <==> exists sig :: b == DataBlock(p, sig)
  {
    if sig :| b == DataBlock(p, sig) {
      hide DataBlock, ReadData;
      DataRoundTrip(p, sig);
    }
    if ReadData(b) == Some(p) {
      var sig := DataShape(b, p);
    }
  }

  lemma DataShape(b: Block, p: Packet) returns (sig: Signature)
    requires |b.value| < SIZE_LIMIT && ReadData(b) == Some(p)
    ensures b == DataBlock(p, sig)
  {
    hide Wires, NameBlock, ReadName;
    var es := Elements(b.value).value;
    ElementsExactly(b.value, es);
    WiresLength(es);
    assert es[0] in es;
    NameExactly(es[0], p.name);
    hide Elements;
    sig := Signature(es[3].value, es[4].value);
    assert es == DataElements(p, sig);
  }

  // ---------- the state vector ----------

  /** SeqNoEntry: bootstrap time, then sequence number, each in 1, 2, 4 or 8 bytes. */
  function SeqShape(epoch: seq<byte>, number: seq<byte>): Block {
    Block(210, Wires([Block(212, epoch), Block(214, number)]))
  }

  ghost predicate SeqForm(x: Block, now: uint64, b: uint64, s: uint64) {
    && s > 0 && b <= (now + 86400) % 0x1_0000_0000_0000_0000
    && exists epoch, number :: x == SeqShape(epoch, number) && ReadNni(epoch) == Some(b) && ReadNni(number) == Some(s)
  }

  lemma SeqExactly(x: Block, now: uint64, b: uint64, s: uint64)
    requires |x.value| < SIZE_LIMIT
    ensures ReadSeq(x, now) == Some((b, s)) <==> SeqForm(x, now, b, s)
  {
    hide Wires, ReadNni;
    if ReadSeq(x, now) == Some((b, s)) {
      var es := Elements(x.value).value;
      ElementsExactly(x.value, es);
      assert es == [Block(212, es[0].value), Block(214, es[1].value)];
      assert x == SeqShape(es[0].value, es[1].value);
    }
    if SeqForm(x, now, b, s) {
      var epoch, number :|
        x == SeqShape(epoch, number) && ReadNni(epoch) == Some(b) && ReadNni(number) == Some(s);
      ElementsExactly(x.value, [Block(212, epoch), Block(214, number)]);
    }
  }

  ghost predicate Readable(x: Block, now: uint64) { exists b, s :: SeqForm(x, now, b, s) }

  lemma {:induction false} RowExactly(bs: seq<Block>, n: Name, now: uint64, acc: Vector)
    requires forall x :: x in bs ==> |x.value| < SIZE_LIMIT
    ensures ReadRow(bs, n, now, acc).Some? <==> forall x :: x in bs ==> Readable(x, now)
    decreases |bs|
  {
    hide ReadSeq, SeqForm;
    if bs != [] {
      var x := bs[0];
      assert x in bs && forall y :: y in bs <==> y == x || y in bs[1..];
      var r := ReadSeq(x, now);
      if r.Some? {
        SeqExactly(x, now, r.value.0, r.value.1);
        assert Readable(x, now);
        RowExactly(bs[1..], n, now, Put(acc, n, r.value.0, r.value.1));
      } else if Readable(x, now) {
        var b, s :| SeqForm(x, now, b, s);
        SeqExactly(x, now, b, s);
        assert false;
      }
    }
  }

  /** StateVectorEntry: a name, then its SeqNoEntries. */
  ghost predicate NodeForm(x: Block, now: uint64) {
    exists n, rows :: x == Block(202, Wires([NameBlock(n)] + rows)) && forall y :: y in rows ==> Readable(y, now)
  }

  lemma NodeExactly(x: Block, now: uint64, acc: Vector)
    requires |x.value| < SIZE_LIMIT
    ensures ReadNode(x, now, acc).Some? <==> NodeForm(x, now)
  {
    hide Wires, Readable, ReadName, NameBlock, ReadRow;
    if ReadNode(x, now, acc).Some? {
      var es := Elements(x.value).value;
      ElementsExactly(x.value, es);
      Unpack(es);
      assert es[0] in es;
      NameExactly(es[0], ReadName(es[0]).value);
      RowExactly(es[1..], ReadName(es[0]).value, now, acc);
      assert es == [NameBlock(ReadName(es[0]).value)] + es[1..];
    }
    if NodeForm(x, now) {
      var n, rows :| x == Block(202, Wires([NameBlock(n)] + rows)) && forall y :: y in rows ==> Readable(y, now);
      var es := [NameBlock(n)] + rows;
      Unpack(es);
      assert es[0] in es && es[1..] == rows;
      NameExactly(NameBlock(n), n);
      RowExactly(rows, n, now, acc);
    }
  }

  lemma {:induction false} NodesExactly(bs: seq<Block>, now: uint64, acc: Vector)
    requires forall x :: x in bs ==> |x.value| < SIZE_LIMIT
    ensures ReadNodes(bs, now, acc).Some? <==> forall x :: x in bs ==> NodeForm(x, now)
    decreases |bs|
  {
    hide ReadNode, NodeForm;
    if bs != [] {
      var x := bs[0];
      assert x in bs && forall y :: y in bs <==> y == x || y in bs[1..];
      NodeExactly(x, now, acc);
      var r := ReadNode(x, now, acc);
      if r.Some? { NodesExactly(bs[1..], now, r.value); }
    }
  }

  ghost predicate VectorForm(b: Block, now: uint64) {
    b.typ == 201 && exists nodes :: b.value == Wires(nodes) && forall x :: x in nodes ==> NodeForm(x, now)
  }

  /**
   * A V3 state vector is accepted exactly when it is a list of entries, each a name with a list of epochs and numbers,
   * no number 0 and no epoch more than a day ahead; nothing may be missing, added or of another type.
   */
  lemma VectorExactly(b: Block, now: uint64)
    requires |b.value| < SIZE_LIMIT
    ensures ReadVector(b, now).Some? <==> VectorForm(b, now)
  {
    hide Wires, ReadNodes, NodeForm;
    if ReadVector(b, now).Some? {
      var es := Elements(b.value).value;
      ElementsExactly(b.value, es);
      Unpack(es);
      NodesExactly(es, now, map[]);
    }
    if VectorForm(b, now) {
      var nodes :| b.value == Wires(nodes) && forall x :: x in nodes ==> NodeForm(x, now);
      Unpack(nodes);
      NodesExactly(nodes, now, map[]);
    }
  }

  // ---------- the envelope ----------

  /** The name of a Sync Interest: group, version, parameters digest, and the digest is right. */
  ghost predicate NameForm(i: Interest, group: Name, version: byte) {
    i.digestValid && exists digest :: i.name == group + [Component(54, [version]), Component(2, digest)]
  }

  lemma NameMatchesExactly(i: Interest, group: Name, p: Protocol)
    ensures NameMatches(i, group, p) <==> NameForm(i, group, if p.V2? then 2 else 3)
  {
    assert Nni(2) == [2] && Nni(3) == [3];
    var version: byte := if p.V2? then 2 else 3;
    assert SyncName(group, p) == group + [Component(54, [version])];
    if NameMatches(i, group, p) {
      var last := i.name[|i.name| - 1];
      assert i.name == SyncName(group, p) + [last];
      assert i.name == group + [Component(54, [version]), Component(2, last.value)];
    }
    if NameForm(i, group, version) {
      var digest :| i.name == group + [Component(54, [version]), Component(2, digest)];
      assert i.name == SyncName(group, p) + [Component(2, digest)];
    }
  }

  /** What a V3 packet carries under the group's name. */
  ghost predicate Carries(b: Block, group: Name, meta: seq<byte>, vector: Block, xs: seq<Block>, sig: Signature) {
    b == DataBlock(Packet(SyncName(group, V3), meta, Wires([vector] + xs)), sig)
  }

  ghost predicate EnvelopeForm(value: seq<byte>, group: Name, now: uint64, xs: seq<Block>, b: Block) {
    && value == Wire(b) && Acceptable(xs)
    && exists meta, vector, sig :: Carries(b, group, meta, vector, xs, sig) && VectorForm(vector, now)
  }

  /**
   * A V3 Sync Interest is accepted, with these extensions, exactly when it has the group's name and a right digest and
   * its parameters are one signed Data packet under that name and nothing else, whose content is a state vector of
   * the right form followed by these extensions, which obey the sender's rules.
   */
  lemma AcceptedExactlyV3(i: Interest, group: Name, now: uint64, xs: seq<Block>)
    requires i.parameters.Some? ==> |i.parameters.value.value| < SIZE_LIMIT
    ensures var e := DecodeInterest(i, group, V3, now, true);
      e.Some? && e.value.extensions == xs <==>
        && NameForm(i, group, 3) && i.parameters.Some?
        && exists b :: EnvelopeForm(i.parameters.value.value, group, now, xs, b)
  {
    NameMatchesExactly(i, group, V3);
    hide NameMatches, NameForm, DecodeV3, EnvelopeForm;
    if NameForm(i, group, 3) && i.parameters.Some? {
      var value := i.parameters.value.value;
      var e := DecodeInterest(i, group, V3, now, true);
      if e.Some? && e.value.extensions == xs {
        var es := Elements(value).value;
        ElementsExactly(value, es);
        Unpack(es);
        assert es[0] in es;
        BlockAccepted(es[0], es[1..], group, now, xs);
        assert es == [es[0]];
        WiresOne(es[0]);
        FormOfWire(value, group, now, xs, es[0]);
      }
      if b :| EnvelopeForm(value, group, now, xs, b) {
        WireOfForm(value, group, now, xs, b);
        WiresOne(b);
        ElementsExactly(value, [b]);
        assert [b][1..] == [];
        BlockAccepted(b, [], group, now, xs);
      }
    }
  }

  lemma FormOfWire(value: seq<byte>, group: Name, now: uint64, xs: seq<Block>, b: Block)
    requires value == Wire(b) && EnvelopeForm(Wire(b), group, now, xs, b)
    ensures EnvelopeForm(value, group, now, xs, b)
  {
  }

  lemma WireOfForm(value: seq<byte>, group: Name, now: uint64, xs: seq<Block>, b: Block)
    requires EnvelopeForm(value, group, now, xs, b)
    ensures value == Wire(b) && |b.value| < |value| && EnvelopeForm(Wire(b), group, now, xs, b)
  {
  }

  /** The same for the parsed parameters. */
  lemma BlockAccepted(b: Block, rest: seq<Block>, group: Name, now: uint64, xs: seq<Block>)
    requires |b.value| < SIZE_LIMIT
    ensures var e := DecodeV3(b, rest, group, now, true);
      e.Some? && e.value.extensions == xs <==> rest == [] && EnvelopeForm(Wire(b), group, now, xs, b)
  {
    hide Wires, Wire, Acceptable, VectorForm, ReadVector, SyncName, ReadData;
    var e := DecodeV3(b, rest, group, now, true);
    if e.Some? && e.value.extensions == xs {
      var d := ReadData(b).value;
      DataExactly(b, d);
      var sig :| b == DataBlock(d, sig);
      ContentLength(d, sig);
      var es := Elements(d.content).value;
      ElementsExactly(d.content, es);
      Unpack(es);
      assert es[0] in es && es == [es[0]] + xs;
      VectorExactly(es[0], now);
      assert Carries(b, group, d.meta, es[0], xs, sig);
    }
    if rest == [] && EnvelopeForm(Wire(b), group, now, xs, b) {
      var meta, vector, sig :| Carries(b, group, meta, vector, xs, sig) && VectorForm(vector, now);
      var d := Packet(SyncName(group, V3), meta, Wires([vector] + xs));
      DataExactly(b, d);
      ContentLength(d, sig);
      var es := [vector] + xs;
      Unpack(es);
      assert es[0] in es && es[1..] == xs;
      VectorExactly(vector, now);
      FormHasType(vector, now);
    }
  }

  lemma FormHasType(b: Block, now: uint64)
    requires VectorForm(b, now)
    ensures b.typ == STATE_VECTOR
  {
  }

  lemma ContentLength(p: Packet, sig: Signature)
    requires |DataBlock(p, sig).value| < SIZE_LIMIT
    ensures |p.content| < SIZE_LIMIT
  {
    var es := DataElements(p, sig);
    WiresLength(es);
    assert es[2] in es;
  }

  // ---------- V2 ----------

  /** StateVectorEntry of V2: a name and one number above 0. */
  ghost predicate NodeFormV2(x: Block, n: Name, s: uint64) {
    s > 0 && exists number :: x == Block(202, Wires([NameBlock(n), Block(204, number)])) && ReadNni(number) == Some(s)
  }

  lemma NodeExactlyV2(x: Block, n: Name, s: uint64)
    requires |x.value| < SIZE_LIMIT
    ensures ReadNodeV2(x) == Some((n, s)) <==> NodeFormV2(x, n, s)
  {
    hide Wires, ReadNni, ReadName, NameBlock;
    if ReadNodeV2(x) == Some((n, s)) {
      var es := Elements(x.value).value;
      ElementsExactly(x.value, es);
      Unpack(es);
      assert es[0] in es;
      NameExactly(es[0], n);
      assert es == [NameBlock(n), Block(204, es[1].value)];
    }
    if NodeFormV2(x, n, s) {
      var number :| x == Block(202, Wires([NameBlock(n), Block(204, number)])) && ReadNni(number) == Some(s);
      var es := [NameBlock(n), Block(204, number)];
      Unpack(es);
      assert es[0] in es;
      NameExactly(es[0], n);
    }
  }

  ghost predicate ReadableV2(x: Block) { exists n, s :: NodeFormV2(x, n, s) }

  lemma {:induction false} NodesExactlyV2(bs: seq<Block>, acc: Vector)
    requires forall x :: x in bs ==> |x.value| < SIZE_LIMIT
    ensures ReadNodesV2(bs, acc).Some? <==> forall x :: x in bs ==> ReadableV2(x)
    decreases |bs|
  {
    hide ReadNodeV2, NodeFormV2;
    if bs != [] {
      var x := bs[0];
      assert x in bs && forall y :: y in bs <==> y == x || y in bs[1..];
      var r := ReadNodeV2(x);
      if r.Some? {
        NodeExactlyV2(x, r.value.0, r.value.1);
        assert ReadableV2(x);
        NodesExactlyV2(bs[1..], Put(acc, r.value.0, 0, r.value.1));
      } else if ReadableV2(x) {
        var n, s :| NodeFormV2(x, n, s);
        NodeExactlyV2(x, n, s);
        assert false;
      }
    }
  }

  ghost predicate VectorFormV2(b: Block) {
    b.typ == 201 && exists nodes :: b.value == Wires(nodes) && forall x :: x in nodes ==> ReadableV2(x)
  }

  lemma VectorExactlyV2(b: Block)
    requires |b.value| < SIZE_LIMIT
    ensures ReadVectorV2(b).Some? <==> VectorFormV2(b)
  {
    hide Wires, ReadNodesV2, ReadableV2;
    if ReadVectorV2(b).Some? {
      var es := Elements(b.value).value;
      ElementsExactly(b.value, es);
      Unpack(es);
      NodesExactlyV2(es, map[]);
    }
    if VectorFormV2(b) {
      var nodes :| b.value == Wires(nodes) && forall x :: x in nodes ==> ReadableV2(x);
      Unpack(nodes);
      NodesExactlyV2(nodes, map[]);
    }
  }

  ghost predicate EnvelopeFormV2(value: seq<byte>, xs: seq<Block>, vector: Block) {
    value == Wires([vector] + xs) && VectorFormV2(vector) && Acceptable(xs)
  }

  /** A V2 Sync Interest is accepted exactly when its plain parameters are a V2 vector followed by the extensions. */
  lemma AcceptedExactlyV2(i: Interest, group: Name, now: uint64, xs: seq<Block>)
    requires i.parameters.Some? ==> |i.parameters.value.value| < SIZE_LIMIT
    ensures var e := DecodeInterest(i, group, V2, now, true);
      e.Some? && e.value.extensions == xs <==>
        && NameForm(i, group, 2) && i.parameters.Some?
        && exists vector :: EnvelopeFormV2(i.parameters.value.value, xs, vector)
  {
    NameMatchesExactly(i, group, V2);
    hide NameMatches, NameForm, VectorFormV2, ReadVectorV2, Acceptable, Wires;
    if NameForm(i, group, 2) && i.parameters.Some? {
      var value := i.parameters.value.value;
      var e := DecodeInterest(i, group, V2, now, true);
      if e.Some? && e.value.extensions == xs {
        var es := Elements(value).value;
        ElementsExactly(value, es);
        Unpack(es);
        assert es[0] in es && es == [es[0]] + xs;
        VectorExactlyV2(es[0]);
        assert EnvelopeFormV2(value, xs, es[0]);
      }
      if vector :| EnvelopeFormV2(value, xs, vector) {
        var es := [vector] + xs;
        Unpack(es);
        assert es[0] in es && es[1..] == xs;
        VectorExactlyV2(vector);
        FormHasTypeV2(vector);
      }
    }
  }

  lemma FormHasTypeV2(b: Block)
    requires VectorFormV2(b)
    ensures b.typ == STATE_VECTOR
  {
  }

  // ---------- repair requests ----------

  function RepairShape(n: Name, epoch: seq<byte>, low: seq<byte>, high: seq<byte>): seq<Block> {
    [NameBlock(n), Block(212, epoch), Block(214, low), Block(214, high)]
  }

  ghost predicate Numbers(r: Range, epoch: seq<byte>, low: seq<byte>, high: seq<byte>) {
    ReadNni(epoch) == Some(r.epoch) && ReadNni(low) == Some(r.low) && ReadNni(high) == Some(r.high)
  }

  /** RepairEntry: node, epoch and a range that starts at 1 or above and does not end before it starts. */
  ghost predicate RepairForm(x: Block, r: Range) {
    && 1 <= r.low <= r.high
    && exists epoch, low, high ::
         x == Block(217, Wires(RepairShape(r.node, epoch, low, high))) && Numbers(r, epoch, low, high)
  }

  lemma RepairOfForm(x: Block, r: Range)
    requires |x.value| < SIZE_LIMIT && RepairForm(x, r)
    ensures ReadRepair(x) == Some(r)
  {
    hide Wires, ReadNni, ReadName, NameBlock;
    var epoch, low, high :|
      x == Block(217, Wires(RepairShape(r.node, epoch, low, high))) && Numbers(r, epoch, low, high);
    var es := RepairShape(r.node, epoch, low, high);
    Unpack(es);
    assert es[0] in es;
    NameExactly(es[0], r.node);
  }

  lemma FormOfRepair(x: Block, r: Range)
    requires |x.value| < SIZE_LIMIT && ReadRepair(x) == Some(r)
    ensures RepairForm(x, r)
  {
    hide Wires, ReadNni, ReadName, NameBlock;
    var es := Elements(x.value).value;
    ElementsExactly(x.value, es);
    Unpack(es);
    assert es[0] in es;
    NameExactly(es[0], r.node);
    assert es == RepairShape(r.node, es[1].value, es[2].value, es[3].value);
    assert Numbers(r, es[1].value, es[2].value, es[3].value);
  }

  lemma {:induction false} RepairListExactly(bs: seq<Block>, rs: seq<Range>)
    requires forall x :: x in bs ==> |x.value| < SIZE_LIMIT
    ensures ReadRepairList(bs) == Some(rs)
       <==> |bs| == |rs| && forall i :: 0 <= i < |bs| ==> RepairForm(bs[i], rs[i])
    decreases |bs|
  {
    hide ReadRepair, RepairForm;
    if bs != [] && rs != [] {
      assert bs[0] in bs;
      if RepairForm(bs[0], rs[0]) { RepairOfForm(bs[0], rs[0]); }
      if ReadRepair(bs[0]) == Some(rs[0]) { FormOfRepair(bs[0], rs[0]); }
      RepairListExactly(bs[1..], rs[1..]);
      assert rs == [rs[0]] + rs[1..];
      if |bs| == |rs| && forall i :: 0 <= i < |bs| ==> RepairForm(bs[i], rs[i]) {
        forall i | 0 <= i < |bs| - 1 ensures RepairForm(bs[1..][i], rs[1..][i]) {
          assert RepairForm(bs[i + 1], rs[i + 1]);
        }
      }
      if ReadRepairList(bs) == Some(rs) {
        forall i | 0 <= i < |bs| ensures RepairForm(bs[i], rs[i]) {
          if i > 0 { assert RepairForm(bs[1..][i - 1], rs[1..][i - 1]); }
        }
      }
    }
  }

  /**
   * A repair extension is read as these ranges exactly when it lists them, in order, and all are valid. The type of
   * the block itself is not looked at.
   */
  lemma RepairsExactly(b: Block, rs: seq<Range>)
    requires |b.value| < SIZE_LIMIT
    ensures ReadRepairs(b) == Some(rs) <==> exists bs ::
      b.value == Wires(bs) && |bs| == |rs| && forall i :: 0 <= i < |bs| ==> RepairForm(bs[i], rs[i])
  {
    hide Wires, ReadRepairList, RepairForm;
    if ReadRepairs(b) == Some(rs) {
      var bs := Elements(b.value).value;
      ElementsExactly(b.value, bs);
      Unpack(bs);
      RepairListExactly(bs, rs);
    }
    if bs :| b.value == Wires(bs) && |bs| == |rs| && forall i :: 0 <= i < |bs| ==> RepairForm(bs[i], rs[i]) {
      Unpack(bs);
      RepairListExactly(bs, rs);
    }
  }
}
