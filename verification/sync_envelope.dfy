/** The envelope of a Sync Interest, V2 and V3, without compression (sync-protocol.cpp). */
module SyncEnvelope {
  import opened Names
  import opened StateVector
  import opened Tlv
  import opened DataPacket
  import opened VectorCodec
  import opened ExtensionCodecs

  const MAX_EXTENSION_BLOCKS := 16
  const APPLICATION_PARAMETERS: TlvType := 36
  const VERSION_COMPONENT: ComponentType := 54
  const PARAMETERS_DIGEST: ComponentType := 2

  datatype Interest = Interest(name: Name, digestValid: bool, parameters: Option<Block>)

  /** `state` is None when the V3 vector was left undecoded on request. */
  datatype Envelope = Envelope(state: Option<Vector>, extensions: seq<Block>, stateData: Option<Block>)

  function SyncName(group: Name, p: Protocol): Name {
    group + [Component(VERSION_COMPONENT, Nni(if p.V2? then 2 else 3))]
  }

  predicate Known(t: TlvType) { t == MAPPING_DATA || t == REPAIR_DATA }

  predicate Core(t: TlvType) { t == STATE_VECTOR || t == DATA }

  /** At most 16 extensions, none of a core type, known types at most once. */
  ghost predicate Acceptable(xs: seq<Block>) {
    && |xs| <= MAX_EXTENSION_BLOCKS
    && (forall x :: x in xs ==> !Core(x.typ))
    && (forall i, j :: 0 <= i < j < |xs| && Known(xs[i].typ) ==> xs[i].typ != xs[j].typ)
  }

  /** The V3 Data: signed, with nothing in its meta information. */
  function StateData(group: Name, content: seq<byte>): Packet { Packet(SyncName(group, V3), [], content) }

  // ---------- encode ----------

  function ParameterValue(group: Name, p: Protocol, v: Vector, latest: map<Name, uint64>, xs: seq<Block>,
      sig: Signature): seq<byte> {
    match p
    case V3 => Wires([DataBlock(StateData(group, Wires([VectorBlock(v)] + xs)), sig)])
    case V2 => Wires([VectorBlockV2(latest)] + xs)
  }

  ghost function EncodeInterest(group: Name, p: Protocol, v: Vector, latest: map<Name, uint64>, xs: seq<Block>,
      sig: Signature, digest: seq<byte>): Option<Interest> {
    if !Acceptable(xs) then None
    else Some(Interest(SyncName(group, p) + [Component(PARAMETERS_DIGEST, digest)], true,
                       Some(Block(APPLICATION_PARAMETERS, ParameterValue(group, p, v, latest, xs, sig)))))
  }

  // ---------- decode ----------

  predicate NameMatches(i: Interest, group: Name, p: Protocol) {
    var prefix := SyncName(group, p);
    && |i.name| == |prefix| + 1 && i.name[..|prefix|] == prefix
    && i.name[|prefix|].typ == PARAMETERS_DIGEST && i.digestValid
  }

  /** The V3 content: a state vector block followed by the extensions. */
  function ReadContent(b: Block, group: Name): Option<(Block, seq<Block>)> {
    var d := ReadData(b);
    if d.None? || d.value.name != SyncName(group, V3) then None
    else
      var es := Elements(d.value.content);
      if es.None? || es.value == [] || es.value[0].typ != STATE_VECTOR then None else Some((es.value[0], es.value[1..]))
  }

  ghost function DecodeV3(b: Block, rest: seq<Block>, group: Name, now: uint64, semantic: bool): Option<Envelope> {
    var c := ReadContent(b, group);
    if b.typ != DATA || c.None? || !Acceptable(c.value.1) || rest != [] then None
    else if !semantic then Some(Envelope(None, c.value.1, Some(b)))
    else
      var v := ReadVector(c.value.0, now);
      if v.None? then None else Some(Envelope(v, c.value.1, Some(b)))
  }

  ghost function DecodeV2(b: Block, rest: seq<Block>): Option<Envelope> {
    var v := ReadVectorV2(b);
    if b.typ != STATE_VECTOR || v.None? || !Acceptable(rest) then None else Some(Envelope(v, rest, None))
  }

  ghost function DecodeInterest(i: Interest, group: Name, p: Protocol, now: uint64, semantic: bool): Option<Envelope> {
    if !NameMatches(i, group, p) || i.parameters.None? then None
    else
      var es := Elements(i.parameters.value.value);
      if es.None? || es.value == [] then None
      else if p.V3? then DecodeV3(es.value[0], es.value[1..], group, now, semantic)
      else DecodeV2(es.value[0], es.value[1..])
  }

  /** decodeStateVector: the vector kept by a V2 envelope, or read from the signed Data of a V3 one. */
  function StateVectorOf(e: Envelope, p: Protocol, now: uint64): Option<Vector> {
    if p.V2? then e.state
    else if e.stateData.None? then None
    else
      var d := ReadData(e.stateData.value);
      var es := if d.None? then None else Elements(d.value.content);
      if es.None? || es.value == [] || es.value[0].typ != STATE_VECTOR then None else ReadVector(es.value[0], now)
  }

  /** An inspected envelope with its vector filled in; nothing when there was none or the vector is bad. */
  function Completed(inspected: Option<Envelope>, p: Protocol, now: uint64): Option<Envelope> {
    if inspected.None? then None
    else
      var v := StateVectorOf(inspected.value, p, now);
      if v.None? then None else Some(inspected.value.(state := v))
  }

  // ---------- round trips ----------

  lemma ContentRoundTrip(group: Name, v: Vector, xs: seq<Block>, sig: Signature)
    requires var content := Wires([VectorBlock(v)] + xs);
             |content| < SIZE_LIMIT && |DataBlock(StateData(group, content), sig).value| < SIZE_LIMIT
    ensures ReadContent(DataBlock(StateData(group, Wires([VectorBlock(v)] + xs)), sig), group)
        == Some((VectorBlock(v), xs))
    ensures |VectorBlock(v).value| < SIZE_LIMIT
  {
    var es := [VectorBlock(v)] + xs;
    DataRoundTrip(StateData(group, Wires(es)), sig);
    Unpack(es);
    assert es[0] in es && es[1..] == xs;
    hide Wires, Elements, ReadData, DataBlock, SyncName;
  }

  lemma InterestName(group: Name, p: Protocol, digest: seq<byte>, b: Block)
    ensures NameMatches(Interest(SyncName(group, p) + [Component(PARAMETERS_DIGEST, digest)], true, Some(b)), group, p)
  {
    hide SyncName;
    var prefix := SyncName(group, p);
    assert (prefix + [Component(PARAMETERS_DIGEST, digest)])[..|prefix|] == prefix;
  }

  lemma V3BlockRoundTrip(group: Name, v: Vector, xs: seq<Block>, sig: Signature, now: uint64)
    requires Acceptable(xs)
    requires |DataBlock(StateData(group, Wires([VectorBlock(v)] + xs)), sig).value| < SIZE_LIMIT
    ensures var d := DataBlock(StateData(group, Wires([VectorBlock(v)] + xs)), sig);
      DecodeV3(d, [], group, now, true)
      == if EpochsAcceptable(v, now) then Some(Envelope(Some(v), xs, Some(d))) else None
  {
    var content := Wires([VectorBlock(v)] + xs);
    var es := DataElements(StateData(group, content), sig);
    WiresLength(es);
    assert es[2] in es && es[2].value == content;
    ContentRoundTrip(group, v, xs, sig);
    VectorAcceptedExactly(v, now);
    hide Wires, Elements, SyncName, ReadContent, VectorBlock, ReadVector, Acceptable, EpochsAcceptable;
  }

  /** A receiver of these parameters under the right name decodes its first element and the rest. */
  lemma Delivers(group: Name, p: Protocol, es: seq<Block>, digest: seq<byte>, now: uint64)
    requires es != [] && |Wires(es)| < SIZE_LIMIT
    ensures var parameters := Block(APPLICATION_PARAMETERS, Wires(es));
            var i := Interest(SyncName(group, p) + [Component(PARAMETERS_DIGEST, digest)], true, Some(parameters));
            DecodeInterest(i, group, p, now, true) ==
              if p.V3? then DecodeV3(es[0], es[1..], group, now, true) else DecodeV2(es[0], es[1..])
  {
    Unpack(es);
    hide Wires, Elements, SyncName, NameMatches, DecodeV3, DecodeV2;
    InterestName(group, p, digest, Block(APPLICATION_PARAMETERS, Wires(es)));
  }

  /**
   * Whenever the sender accepts the extensions, a V3 receiver accepts the Interest exactly when no
   * epoch is more than a day ahead, and then returns the same state vector and the same extensions in
   * the same order.
   */
  lemma EnvelopeRoundTripV3(group: Name, v: Vector, latest: map<Name, uint64>, xs: seq<Block>, sig: Signature,
                            digest: seq<byte>, now: uint64)
    requires Acceptable(xs)
    requires |ParameterValue(group, V3, v, latest, xs, sig)| < SIZE_LIMIT
    ensures var i := EncodeInterest(group, V3, v, latest, xs, sig, digest);
      var e := DecodeInterest(i.value, group, V3, now, true);
      && (e.Some? <==> EpochsAcceptable(v, now))
      && (e.Some? ==> e.value.state == Some(v) && e.value.extensions == xs)
  {
    var d := DataBlock(StateData(group, Wires([VectorBlock(v)] + xs)), sig);
    WiresLength([d]);
    assert d in [d] && [d][1..] == [];
    hide Wires, Elements, SyncName, DataBlock, VectorBlock, DecodeV3, DecodeInterest, EpochsAcceptable, Acceptable;
    V3BlockRoundTrip(group, v, xs, sig, now);
    Delivers(group, V3, [d], digest, now);
  }

  /** Likewise for V2, where the vector is the latest-per-node projection under epoch 0. */
  lemma EnvelopeRoundTripV2(group: Name, v: Vector, latest: map<Name, uint64>, xs: seq<Block>, sig: Signature,
      digest: seq<byte>, now: uint64)
    requires Acceptable(xs) && latest.Keys == v.Keys && forall n :: n in v ==> IsMaximum(v[n], latest[n])
    requires |ParameterValue(group, V2, v, latest, xs, sig)| < SIZE_LIMIT
    ensures var i := EncodeInterest(group, V2, v, latest, xs, sig, digest);
            var e := DecodeInterest(i.value, group, V2, now, true);
            && e.Some? && e.value.extensions == xs && e.value.state.Some?
            && forall n, b :: Get(e.value.state.value, n, b) == if n in v && b == 0 then latest[n] else 0
  {
    var es := [VectorBlockV2(latest)] + xs;
    WiresLength(es);
    assert es[0] in es && es[1..] == xs;
    VectorRoundTripV2(v, latest);
    assert VectorBlockV2(latest).typ == STATE_VECTOR;
    hide Wires, Elements, SyncName, ReadVectorV2, VectorBlockV2, DecodeInterest, Acceptable, IsMaximum;
    Delivers(group, V2, es, digest, now);
  }

  /**
   * A receiver inspects the envelope first, has its signed Data validated, and decodes the vector only
   * then. For every Interest, accepted or not, this gives exactly what decoding at once gives: the same
   * rejections, the same extensions and signed Data, the same vector.
   */
  lemma InspectThenDecode(i: Interest, group: Name, p: Protocol, now: uint64)
    ensures DecodeInterest(i, group, p, now, true) == Completed(DecodeInterest(i, group, p, now, false), p, now)
  {
    hide Elements, ReadVector, ReadVectorV2, ReadData, NameMatches, Acceptable, SyncName;
  }

  // ---------- the loops ----------

  /** The checks encode makes; decode makes the same ones element by element. */
  method CheckExtensions(xs: seq<Block>) returns (ok: bool)
    ensures ok <==> Acceptable(xs)
  {
    if |xs| > MAX_EXTENSION_BLOCKS { return false; }
    var known: set<TlvType> := {};
    for i := 0 to |xs|
      invariant forall t :: t in known <==> Known(t) && exists j :: 0 <= j < i && xs[j].typ == t
      invariant forall j :: 0 <= j < i ==> !Core(xs[j].typ)
      invariant forall j, k :: 0 <= j < k < i && Known(xs[j].typ) ==> xs[j].typ != xs[k].typ
    {
      var t := xs[i].typ;
      if Known(t) {
        if t in known { return false; }
        known := known + {t};
      }
      if Core(t) { return false; }
    }
    ok := true;
  }

  method CollectExtensions(es: seq<Block>) returns (r: Option<seq<Block>>)
    ensures r == if Acceptable(es) then Some(es) else None
  {
    var known: set<TlvType> := {};
    var extensions: seq<Block> := [];
    for i := 0 to |es|
      invariant extensions == es[..i] && i <= MAX_EXTENSION_BLOCKS
      invariant forall t :: t in known <==> Known(t) && exists j :: 0 <= j < i && es[j].typ == t
      invariant forall j :: 0 <= j < i ==> !Core(es[j].typ)
      invariant forall j, k :: 0 <= j < k < i && Known(es[j].typ) ==> es[j].typ != es[k].typ
    {
      if |extensions| >= MAX_EXTENSION_BLOCKS { return None; }
      var t := es[i].typ;
      if Core(t) { return None; }
      if Known(t) {
        if t in known { return None; }
        known := known + {t};
      }
      extensions := extensions + [es[i]];
    }
    assert es[..|es|] == es;
    r := Some(extensions);
  }

  /** V3: the signed content is filled front to back. */
  method SignedContent(v: Vector, xs: seq<Block>) returns (content: seq<byte>)
    ensures content == Wires([VectorBlock(v)] + xs)
  {
    hide Wires, VectorBlock;
    var vector := Encode(v);
    content := vector;
    assert xs[..0] == [] && vector + Wires([]) == vector by { NoWires(); }
    for i := 0 to |xs|
      invariant content == vector + Wires(xs[..i])
    {
      assert xs[..i + 1] == xs[..i] + [xs[i]];
      WiresAppend(xs[..i], [xs[i]]);
      WiresOne(xs[i]);
      content := content + Wire(xs[i]);
    }
    assert xs[..|xs|] == xs;
    WiresCons(VectorBlock(v), xs);
  }

  lemma NoWires()
    ensures Wires([]) == []
  {
  }

  /** V2: vector and extensions are prepended back to front. */
  method PlainParameters(vv: VersionVector, xs: seq<Block>) returns (wire: seq<byte>)
    requires vv.Valid()
    ensures wire == Wires([VectorBlockV2(vv.latest)] + xs)
  {
    hide Wires, VectorBlockV2;
    var enc := new EncodingBuffer();
    assert xs[|xs|..] == [] && Wires([]) == [] by { NoWires(); }
    for i := |xs| downto 0
      invariant fresh(enc) && enc.bytes == Wires(xs[i..])
    {
      WiresStep(xs, i);
      var _ := enc.PrependBlock(xs[i]);
    }
    assert xs[0..] == xs;
    var vector := EncodeV2(vv);
    var _ := enc.PrependBytes(vector);
    WiresCons(VectorBlockV2(vv.latest), xs);
    wire := enc.bytes;
  }

  method EncodeSync(group: Name, p: Protocol, vv: VersionVector, xs: seq<Block>, sig: Signature, digest: seq<byte>)
      returns (r: Option<Interest>)
    requires vv.Valid()
    ensures r == EncodeInterest(group, p, vv.entries, vv.latest, xs, sig, digest)
  {
    hide Wires, Wire, VectorBlockV2, VectorBlock, Acceptable;
    var ok := CheckExtensions(xs);
    if !ok { return None; }
    var wire;
    if p.V3? {
      var content := SignedContent(vv.entries, xs);
      var d := DataBlock(StateData(group, content), sig);
      WiresOne(d);
      wire := Wire(d);
    } else {
      wire := PlainParameters(vv, xs);
    }
    var name := SyncName(group, p) + [Component(PARAMETERS_DIGEST, digest)];
    r := Some(Interest(name, true, Some(Block(APPLICATION_PARAMETERS, wire))));
  }

  method DecodeSync(i: Interest, group: Name, p: Protocol, now: uint64, semantic: bool) returns (r: Option<Envelope>)
    ensures r == DecodeInterest(i, group, p, now, semantic)
  {
    if !NameMatches(i, group, p) || i.parameters.None? { return None; }
    var es := Elements(i.parameters.value.value);
    if es.None? || es.value == [] { return None; }
    var first, rest := es.value[0], es.value[1..];
    if p.V3? {
      if first.typ != DATA { return None; }
      var c := ReadContent(first, group);
      if c.None? { return None; }
      var extensions := CollectExtensions(c.value.1);
      if extensions.None? { return None; }
      if !semantic { return if rest == [] then Some(Envelope(None, extensions.value, Some(first))) else None; }
      var ok, vv := Decode(c.value.0, now);
      return if ok && rest == [] then Some(Envelope(Some(vv.entries), extensions.value, Some(first))) else None;
    }
    if first.typ != STATE_VECTOR { return None; }
    var ok, vv := VectorCodec.DecodeV2(first);
    if !ok { return None; }
    var extensions := CollectExtensions(rest);
    return if extensions.None? then None else Some(Envelope(Some(vv.entries), extensions.value, None));
  }

  method DecodeStateVector(e: Envelope, p: Protocol, now: uint64) returns (r: Option<Vector>)
    ensures r == StateVectorOf(e, p, now)
  {
    if p.V2? { return e.state; }
    if e.stateData.None? { return None; }
    var d := ReadData(e.stateData.value);
    if d.None? { return None; }
    var es := Elements(d.value.content);
    if es.None? || es.value == [] || es.value[0].typ != STATE_VECTOR { return None; }
    var ok, vv := Decode(es.value[0], now);
    return if ok then Some(vv.entries) else None;
  }

  /** The two stages of a V3 receiver without a validator, or with one that accepts the signed Data. */
  method OnSyncInterest(i: Interest, group: Name, p: Protocol, now: uint64) returns (r: Option<Envelope>)
    ensures r == DecodeInterest(i, group, p, now, true)
  {
    InspectThenDecode(i, group, p, now);
    var inspected := DecodeSync(i, group, p, now, false);
    if inspected.None? { return None; }
    var v := DecodeStateVector(inspected.value, p, now);
    return if v.None? then None else Some(inspected.value.(state := v));
  }
}
