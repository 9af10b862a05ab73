/**
 * What a Sync Interest carries besides the vector (svspubsub.cpp): new mappings, repeated mappings,
 * small publications and repair requests, packed newest first under a size limit.
 */
module Piggyback {
  import opened Names
  import opened Tlv
  import DataPacket
  import opened Merge
  import opened Runs
  import opened ExtensionCodecs

  datatype Item = Mapping(node: Name, entry: MappingEntry) | Packet(value: seq<byte>) | Repair(range: Range)

  function Encoded(item: Item): Block {
    match item
    case Mapping(node, entry) => MappingBlock(MappingList(node, [entry]), V3)
    case Packet(value) => Block(DataPacket.DATA, value)
    case Repair(range) => RepairBlock([range])
  }

  /** `age` counts the rounds an entry has been through; it only records history. */
  datatype Entry = Entry(item: Item, sent: nat, missed: nat, age: nat)

  datatype Limits = Limits(appParams: nat, repeat: nat, repairRepeat: nat, missLimit: nat)

  datatype Queues = Queues(notify: MappingList, mappings: seq<Entry>, packets: seq<Entry>, repairs: seq<Entry>)

  function Size(e: Entry): nat { |Wire(Encoded(e.item))| }

  // ---------- one queue, one round ----------

  datatype Pass = Pass(retained: seq<Entry>, chosen: seq<Block>, size: nat)

  function Charge(e: Entry, fits: bool): Entry {
    if fits then e.(sent := e.sent + 1, age := e.age + 1) else e.(missed := e.missed + 1, age := e.age + 1)
  }

  /** Whether a charged entry stays for another round. */
  predicate Stays(e: Entry, fits: bool, repeat: nat, missLimit: nat) {
    if fits then e.sent < repeat else e.missed < missLimit
  }

  /** From the newest entry, at the back, to the oldest. */
  function PassOver(q: seq<Entry>, size: nat, limit: nat, repeat: nat, missLimit: nat): Pass {
    if q == [] then Pass([], [], size)
    else
      var front, last := q[..|q| - 1], q[|q| - 1];
      var fits := size + Size(last) <= limit;
      var e := Charge(last, fits);
      var rest := PassOver(front, if fits then size + Size(last) else size, limit, repeat, missLimit);
      Pass(rest.retained + if Stays(e, fits, repeat, missLimit) then [e] else [],
           (if fits then [Encoded(last.item)] else []) + rest.chosen, rest.size)
  }

  // ---------- what the round means ----------

  /** Bytes taken by the entries marked as sent. */
  function Taken(q: seq<Entry>, sent: seq<bool>): nat
    requires |q| == |sent|
  {
    if q == [] then 0 else Taken(q[1..], sent[1..]) + if sent[0] then Size(q[0]) else 0
  }

  function Survivors(q: seq<Entry>, sent: seq<bool>, repeat: nat, missLimit: nat): seq<Entry>
    requires |q| == |sent|
  {
    if q == [] then []
    else
      var e := Charge(q[0], sent[0]);
      (if Stays(e, sent[0], repeat, missLimit) then [e] else []) + Survivors(q[1..], sent[1..], repeat, missLimit)
  }

  /** Blocks of the sent entries, newest first. */
  function SentBlocks(q: seq<Entry>, sent: seq<bool>): seq<Block>
    requires |q| == |sent|
  {
    if q == [] then [] else SentBlocks(q[1..], sent[1..]) + if sent[0] then [Encoded(q[0].item)] else []
  }

  /** An entry is sent exactly when it fits after the newer ones that were sent. */
  ghost predicate NewestFirstFit(q: seq<Entry>, sent: seq<bool>, size: nat, limit: nat) {
    |q| == |sent| && forall i :: 0 <= i < |q| ==>
        (sent[i] <==> size + Taken(q[i + 1..], sent[i + 1..]) + Size(q[i]) <= limit)
  }

  lemma DropSnoc<T>(s: seq<T>, x: T, k: nat)
    requires k <= |s|
    ensures (s + [x])[k..] == s[k..] + [x]
  {
  }

  lemma NothingTaken()
    ensures Taken([], []) == 0
  {
  }

  lemma {:induction false} TakenSnoc(q: seq<Entry>, sent: seq<bool>, e: Entry, fits: bool)
    requires |q| == |sent|
    ensures Taken(q + [e], sent + [fits]) == Taken(q, sent) + if fits then Size(e) else 0
  {
    hide Size;
    if q == [] {
      assert (q + [e])[1..] == [] && (sent + [fits])[1..] == [];
    } else {
      TakenSnoc(q[1..], sent[1..], e, fits);
      assert (q + [e])[1..] == q[1..] + [e] && (sent + [fits])[1..] == sent[1..] + [fits];
    }
  }

  lemma {:induction false} SurvivorsSnoc(q: seq<Entry>, sent: seq<bool>, e: Entry, fits: bool, repeat: nat,
      missLimit: nat)
    requires |q| == |sent|
    ensures Survivors(q + [e], sent + [fits], repeat, missLimit)
         == Survivors(q, sent, repeat, missLimit)
            + if Stays(Charge(e, fits), fits, repeat, missLimit) then [Charge(e, fits)] else []
  {
    hide Charge, Stays;
    if q == [] {
      assert (q + [e])[1..] == [] && (sent + [fits])[1..] == [];
    } else {
      SurvivorsSnoc(q[1..], sent[1..], e, fits, repeat, missLimit);
      var longer, marks := q + [e], sent + [fits];
      assert longer[1..] == q[1..] + [e] && marks[1..] == sent[1..] + [fits];
      assert longer[0] == q[0] && marks[0] == sent[0];
    }
  }

  lemma {:induction false} SentBlocksSnoc(q: seq<Entry>, sent: seq<bool>, e: Entry, fits: bool)
    requires |q| == |sent|
    ensures SentBlocks(q + [e], sent + [fits]) == (if fits then [Encoded(e.item)] else []) + SentBlocks(q, sent)
  {
    if q == [] {
      assert (q + [e])[1..] == [] && (sent + [fits])[1..] == [];
    } else {
      SentBlocksSnoc(q[1..], sent[1..], e, fits);
      assert (q + [e])[1..] == q[1..] + [e] && (sent + [fits])[1..] == sent[1..] + [fits];
    }
  }

  /**
   * One pass charges every entry exactly once, as sent or as missed: sent is what fits after the
   * newer sent ones, the survivors keep their order, and the size grows by what was sent.
   */
  lemma {:induction false} PassIsNewestFirstFit(q: seq<Entry>, size: nat, limit: nat, repeat: nat, missLimit: nat)
      returns (sent: seq<bool>)
    ensures NewestFirstFit(q, sent, size, limit)
    ensures PassOver(q, size, limit, repeat, missLimit)
        == Pass(Survivors(q, sent, repeat, missLimit), SentBlocks(q, sent), size + Taken(q, sent))
  {
    hide Size, Encoded;
    if q == [] {
      sent := [];
    } else {
      hide Taken, Survivors, SentBlocks, Charge, Stays, NewestFirstFit;
      var front, last := q[..|q| - 1], q[|q| - 1];
      var fits := size + Size(last) <= limit;
      var grown := if fits then size + Size(last) else size;
      var before := PassIsNewestFirstFit(front, grown, limit, repeat, missLimit);
      SameLength(front, before, grown, limit);
      sent := before + [fits];
      assert q == front + [last];
      TakenSnoc(front, before, last, fits);
      SurvivorsSnoc(front, before, last, fits, repeat, missLimit);
      SentBlocksSnoc(front, before, last, fits);
      FitSnoc(front, before, last, fits, size, limit);
    }
  }

  lemma FitSnoc(front: seq<Entry>, before: seq<bool>, last: Entry, fits: bool, size: nat, limit: nat)
    requires fits <==> size + Size(last) <= limit
    requires NewestFirstFit(front, before, if fits then size + Size(last) else size, limit)
    ensures NewestFirstFit(front + [last], before + [fits], size, limit)
  {
    hide Taken, Size;
    var q, sent := front + [last], before + [fits];
    forall i | 0 <= i < |q| ensures sent[i] <==> size + Taken(q[i + 1..], sent[i + 1..]) + Size(q[i]) <= limit {
      if i < |front| {
        TakenSnoc(front[i + 1..], before[i + 1..], last, fits);
        DropSnoc(front, last, i + 1);
        DropSnoc(before, fits, i + 1);
      } else {
        assert q[i + 1..] == [] && sent[i + 1..] == [];
        NothingTaken();
      }
    }
  }

  lemma {:induction false} PassWithinLimit(q: seq<Entry>, size: nat, limit: nat, repeat: nat, missLimit: nat)
    ensures var p := PassOver(q, size, limit, repeat, missLimit);
      && p.size == size + |Wires(p.chosen)|
      && (p.size <= limit <==> size <= limit)
  {
    hide Encoded, Wire;
    if q != [] {
      var last := q[|q| - 1];
      var fits := size + Size(last) <= limit;
      var grown := if fits then size + Size(last) else size;
      PassWithinLimit(q[..|q| - 1], grown, limit, repeat, missLimit);
      var rest := PassOver(q[..|q| - 1], grown, limit, repeat, missLimit);
      WiresCons(Encoded(last.item), rest.chosen);
      assert [] + rest.chosen == rest.chosen;
    }
  }

  // ---------- new mappings ----------

  /** First fit over the new mappings, in order. */
  function Select(node: Name, pairs: seq<MappingEntry>, limit: nat): (included: seq<MappingEntry>) {
    if pairs == [] then []
    else
      var included := Select(node, pairs[..|pairs| - 1], limit);
      var candidate := included + [pairs[|pairs| - 1]];
      if |Wire(MappingBlock(MappingList(node, candidate), V3))| <= limit then candidate else included
  }

  function Base(notify: MappingList, limit: nat): Block {
    var included := if notify.node != [] then Select(notify.node, notify.pairs, limit) else [];
    MappingBlock(MappingList(notify.node, included), V3)
  }

  function ListSize(node: Name, pairs: seq<MappingEntry>): nat { |Wire(MappingBlock(MappingList(node, pairs), V3))| }

  lemma OneMore(node: Name, pairs: seq<MappingEntry>, e: MappingEntry)
    ensures |MappingBlock(MappingList(node, pairs + [e]), V3).value|
        == |MappingBlock(MappingList(node, pairs), V3).value| + |Wire(EntryBlock(e, V3))|
  {
    hide EntryBlock, NameBlock, Wire;
    var bs, cs := EntryBlocks(pairs, V3), EntryBlocks(pairs + [e], V3);
    assert cs == bs + [EntryBlock(e, V3)];
    ReverseSnoc(cs, |bs|);
    assert cs[..|bs| + 1] == cs && cs[..|bs|] == bs;
    WiresCons(NameBlock(node), Reverse(bs));
    WiresCons(NameBlock(node), Reverse(cs));
    WiresCons(EntryBlock(e, V3), Reverse(bs));
  }

  /** Adding an entry to a longer list costs at least as much as adding it to a shorter one. */
  lemma ListGrows(node: Name, pairs: seq<MappingEntry>, e: MappingEntry)
    ensures ListSize(node, pairs) <= ListSize(node, pairs + [e])
  {
    hide MappingBlock;
    OneMore(node, pairs, e);
  }

  lemma {:induction false} ListMonotone(node: Name, pairs: seq<MappingEntry>, more: seq<MappingEntry>, e: MappingEntry)
    ensures ListSize(node, pairs) <= ListSize(node, pairs + more)
    ensures ListSize(node, pairs + [e]) <= ListSize(node, pairs + more + [e])
    decreases |more|
  {
    hide ListSize, MappingBlock;
    if more == [] {
      assert pairs + more == pairs;
    } else {
      var front, last := more[..|more| - 1], more[|more| - 1];
      ListMonotone(node, pairs, front, e);
      assert pairs + more == (pairs + front) + [last];
      ListGrows(node, pairs + front, last);
      Swap(node, pairs + front, last, e);
    }
  }

  lemma Swap(node: Name, pairs: seq<MappingEntry>, last: MappingEntry, e: MappingEntry)
    ensures ListSize(node, pairs + [e]) <= ListSize(node, pairs + [last] + [e])
  {
    hide MappingBlock;
    OneMore(node, pairs, e);
    OneMore(node, pairs, last);
    OneMore(node, pairs + [last], e);
  }

  /** Whether the new mappings leave the block within the limit depends on the producer's name alone. */
  lemma {:induction false} SelectionFits(node: Name, pairs: seq<MappingEntry>, limit: nat)
    ensures ListSize(node, Select(node, pairs, limit)) <= limit <==> ListSize(node, []) <= limit
  {
    hide MappingBlock;
    if pairs != [] {
      var front := pairs[..|pairs| - 1];
      SelectionFits(node, front, limit);
      var candidate := Select(node, front, limit) + [pairs[|pairs| - 1]];
      ListMonotone(node, [], candidate, pairs[0]);
      assert [] + candidate == candidate;
    }
  }

  /** No mapping that was left out could still be added: the selection is maximal. */
  lemma {:induction false} SelectionIsMaximal(node: Name, pairs: seq<MappingEntry>, limit: nat)
      returns (taken: seq<bool>)
    ensures |taken| == |pairs|
    ensures Select(node, pairs, limit) == Picked(pairs, taken)
    ensures forall i :: 0 <= i < |pairs| && !taken[i] ==>
        ListSize(node, Select(node, pairs, limit) + [pairs[i]]) > limit
  {
    hide MappingBlock;
    if pairs == [] {
      taken := [];
    } else {
      var front, last := pairs[..|pairs| - 1], pairs[|pairs| - 1];
      var before := SelectionIsMaximal(node, front, limit);
      var included := Select(node, front, limit);
      var fits := ListSize(node, included + [last]) <= limit;
      taken := before + [fits];
      assert taken[..|pairs| - 1] == before;
      if fits {
        forall i | 0 <= i < |front| && !before[i] ensures ListSize(node, included + [last] + [pairs[i]]) > limit {
          assert front[i] == pairs[i];
          Swap(node, included, last, pairs[i]);
        }
      }
    }
  }

  /** The marked elements, in order. */
  function Picked<T>(s: seq<T>, marks: seq<bool>): seq<T>
    requires |s| == |marks|
  {
    if s == [] then []
    else Picked(s[..|s| - 1], marks[..|s| - 1]) + if marks[|s| - 1] then [s[|s| - 1]] else []
  }

  // ---------- one round over all queues ----------

  datatype Round = Round(queues: Queues, block: Block, size: nat)

  ghost function DoRound(p: Queues, l: Limits): Round {
    var base := Base(p.notify, l.appParams);
    var a := PassOver(p.mappings, |Wire(base)|, l.appParams, l.repeat, l.missLimit);
    var b := PassOver(p.packets, a.size, l.appParams, l.repeat, l.missLimit);
    var c := PassOver(p.repairs, b.size, l.appParams, l.repairRepeat, l.missLimit);
    Round(Queues(MappingList([], []), a.retained, b.retained, c.retained),
          Block(MAPPING_DATA, base.value + Wires(a.chosen) + Wires(b.chosen) + Wires(c.chosen)), c.size)
  }

  lemma BaseType(notify: MappingList, limit: nat)
    ensures Base(notify, limit).typ == MAPPING_DATA
  {
  }

  /**
   * The running size stays within the limit exactly when the producer's name alone fits; the encoded
   * block exceeds it by no more than its own length field grew.
   */
  lemma RoundRespectsLimit(p: Queues, l: Limits)
    ensures var r, base := DoRound(p, l), Base(p.notify, l.appParams);
      && (r.size <= l.appParams <==> ListSize(p.notify.node, []) <= l.appParams)
      && |Wire(r.block)| == r.size + VarSize(|r.block.value|) - VarSize(|base.value|)
      && (r.size <= l.appParams && |r.block.value| <= 0xFFFF ==> |Wire(r.block)| <= l.appParams + 2)
  {
    hide MappingBlock, Select;
    var base := Base(p.notify, l.appParams);
    SelectionFits(p.notify.node, p.notify.pairs, l.appParams);
    PassWithinLimit(p.mappings, |Wire(base)|, l.appParams, l.repeat, l.missLimit);
    var a := PassOver(p.mappings, |Wire(base)|, l.appParams, l.repeat, l.missLimit);
    PassWithinLimit(p.packets, a.size, l.appParams, l.repeat, l.missLimit);
    var b := PassOver(p.packets, a.size, l.appParams, l.repeat, l.missLimit);
    PassWithinLimit(p.repairs, b.size, l.appParams, l.repairRepeat, l.missLimit);
    hide PassOver;
    BaseType(p.notify, l.appParams);
  }

  function TotalSize(q: seq<Entry>): nat {
    if q == [] then 0 else TotalSize(q[..|q| - 1]) + Size(q[|q| - 1])
  }

  /** When a whole queue fits, all of it is sent. */
  lemma {:induction false} AllFit(q: seq<Entry>, size: nat, limit: nat, repeat: nat, missLimit: nat)
    requires size + TotalSize(q) <= limit
    ensures |Wires(PassOver(q, size, limit, repeat, missLimit).chosen)| == TotalSize(q)
  {
    hide Encoded, Wire;
    if q != [] {
      var last := q[|q| - 1];
      AllFit(q[..|q| - 1], size + Size(last), limit, repeat, missLimit);
      WiresCons(Encoded(last.item), PassOver(q[..|q| - 1], size + Size(last), limit, repeat, missLimit).chosen);
    }
  }

  /** No notification and nothing queued but packets. */
  function OnlyPackets(packets: seq<Entry>): Queues { Queues(MappingList([], []), [], packets, []) }

  lemma BareBase(limit: nat)
    ensures var base := Base(MappingList([], []), limit);
      |base.value| == 2 && |Wire(base)| == 4 && ListSize([], []) == 4
  {
    var name := NameBlock([]);
    assert ComponentBlocks([]) == [] && Wires([]) == [];
    assert [name] + Reverse(EntryBlocks([], V3)) == [name];
    WiresOne(name);
  }

  lemma PacketsRound(packets: seq<Entry>, l: Limits)
    requires 4 + TotalSize(packets) <= l.appParams
    ensures var r, total := DoRound(OnlyPackets(packets), l), TotalSize(packets);
      |Wire(r.block)| == 3 + total + VarSize(2 + total) && r.size == 4 + total
  {
    hide Base, Size;
    var p, base := OnlyPackets(packets), Base(MappingList([], []), l.appParams);
    BareBase(l.appParams);
    BaseType(p.notify, l.appParams);
    AllFit(packets, 4, l.appParams, l.repeat, l.missLimit);
    assert Wires([]) == [];
    assert PassOver([], 4, l.appParams, l.repeat, l.missLimit) == Pass([], [], 4);
    PassWithinLimit(packets, 4, l.appParams, l.repeat, l.missLimit);
    assert |DoRound(p, l).block.value| == 2 + TotalSize(packets);
  }

  function PacketOf(length: nat): Entry { Entry(Packet(seq(length, i => 0)), 0, 0, 0) }

  lemma OnePacketSize(length: nat)
    ensures TotalSize([PacketOf(length)]) == Size(PacketOf(length)) == 1 + VarSize(length) + length
    ensures PacketOf(length).item.Packet?
  {
    var q := [PacketOf(length)];
    assert q[..0] == [] && TotalSize([]) == 0;
    assert Size(q[0]) == 1 + VarSize(length) + length;
  }

  /** Packets of at least `least` and less than twice `least` bytes that take `total` bytes together. */
  function Filling(total: nat, least: nat): seq<Entry>
    requires 2 <= least <= 127 && least <= total
  {
    if total < 2 * least then [PacketOf(total - 2)] else Filling(total - least, least) + [PacketOf(least - 2)]
  }

  lemma {:induction false} FillingSize(total: nat, least: nat)
    requires 2 <= least <= 127 && least <= total
    ensures TotalSize(Filling(total, least)) == total
    ensures forall e :: e in Filling(total, least) ==> e.item.Packet? && least <= Size(e) < 2 * least
    decreases total
  {
    hide Size, TotalSize, PacketOf;
    if total < 2 * least {
      OnePacketSize(total - 2);
    } else {
      FillingSize(total - least, least);
      OnePacketSize(least - 2);
      TotalSnoc(Filling(total - least, least), PacketOf(least - 2));
    }
  }

  lemma TotalSnoc(q: seq<Entry>, e: Entry)
    ensures TotalSize(q + [e]) == TotalSize(q) + Size(e)
  {
    assert (q + [e])[..|q|] == q;
  }

  /** The packets on the queue are at least `least` bytes long and none exceeds the piggyback cap. */
  ghost predicate PacketsWithin(p: Queues, least: nat, cap: nat) {
    forall e :: e in p.packets ==> least <= Size(e) <= cap
  }

  /**
   * The limit is kept for every content of the queues exactly when it is at most 254 bytes, where the
   * length field of a block that fits cannot have grown. Above, packets within the cap that fill the
   * limit to the last byte overflow it; this takes no packet larger than twice the smallest.
   */
  lemma LimitIsKeptExactly(l: Limits, least: nat, cap: nat)
    requires 2 <= least <= 127 && 2 * least <= cap
    ensures (forall p: Queues :: PacketsWithin(p, least, cap) && ListSize(p.notify.node, []) <= l.appParams
               ==> |Wire(DoRound(p, l).block)| <= l.appParams)
       <==> l.appParams <= 254
  {
    hide DoRound, ListSize, Size, TotalSize, Filling;
    if l.appParams <= 254 {
      forall p: Queues | PacketsWithin(p, least, cap) && ListSize(p.notify.node, []) <= l.appParams
        ensures |Wire(DoRound(p, l).block)| <= l.appParams
      {
        RoundRespectsLimit(p, l);
        RoundType(p, l);
      }
    } else {
      var total := l.appParams - 4;
      FillingSize(total, least);
      PacketsRound(Filling(total, least), l);
      BareBase(l.appParams);
      var p := OnlyPackets(Filling(total, least));
      assert PacketsWithin(p, least, cap);
      assert ListSize(p.notify.node, []) <= l.appParams < |Wire(DoRound(p, l).block)|;
    }
  }

  lemma RoundType(p: Queues, l: Limits)
    ensures DoRound(p, l).block.typ == MAPPING_DATA
  {
  }

  /** The smallest overflow: one 251-byte packet under a limit of 255 makes a block of 257 bytes. */
  lemma LimitExceededByTwo()
    ensures var r := DoRound(OnlyPackets([PacketOf(249)]), Limits(255, 3, 3, 3));
      r.size == 255 && |Wire(r.block)| == 257
  {
    OnePacketSize(249);
    PacketsRound([PacketOf(249)], Limits(255, 3, 3, 3));
  }

  // ---------- whole runs ----------

  datatype Event =
    | NewMapping(node: Name, entry: MappingEntry)
    | RepeatMapping(node: Name, entry: MappingEntry)
    | NewPacket(value: seq<byte>)
    | AskRepair(range: Range)
    | SyncRound

  function Fresh(item: Item): Entry { Entry(item, 0, 0, 0) }

  /** A first mapping, or one of the same producer, also goes into the notification list. */
  function Notified(notify: MappingList, node: Name, entry: MappingEntry): MappingList {
    if notify.node == [] || notify.node == node then MappingList(node, notify.pairs + [entry]) else notify
  }

  ghost predicate Asked(q: seq<Entry>, range: Range) { exists i :: 0 <= i < |q| && q[i].item == Repair(range) }

  ghost function Step(l: Limits): (Queues, Event) -> Queues {
    (p: Queues, e: Event) =>
      match e
      case NewMapping(node, entry) =>
        p.(notify := Notified(p.notify, node, entry), mappings := p.mappings + [Fresh(Mapping(node, entry))])
      case RepeatMapping(node, entry) => p.(mappings := p.mappings + [Fresh(Mapping(node, entry))])
      case NewPacket(value) => p.(packets := p.packets + [Fresh(Packet(value))])
      case AskRepair(range) => if Asked(p.repairs, range) then p else p.(repairs := p.repairs + [Fresh(Repair(range))])
      case SyncRound => DoRound(p, l).queues
  }

  /** Sent and missed rounds are all rounds there were, and neither count has reached its limit. */
  predicate Due(e: Entry, repeat: nat, missLimit: nat) {
    && e.age == e.sent + e.missed
    && (e.sent == 0 || e.sent < repeat) && (e.missed == 0 || e.missed < missLimit)
  }

  ghost predicate AllDue(q: seq<Entry>, repeat: nat, missLimit: nat) {
    forall i :: 0 <= i < |q| ==> Due(q[i], repeat, missLimit)
  }

  ghost predicate Distinct(q: seq<Entry>) {
    forall i, j :: 0 <= i < j < |q| ==> q[i].item != q[j].item
  }

  ghost predicate Invariant(l: Limits, p: Queues) {
    && AllDue(p.mappings, l.repeat, l.missLimit) && AllDue(p.packets, l.repeat, l.missLimit)
    && AllDue(p.repairs, l.repairRepeat, l.missLimit) && Distinct(p.repairs)
    && (forall e :: e in p.mappings ==> e.item.Mapping?) && (forall e :: e in p.packets ==> e.item.Packet?)
    && (forall e :: e in p.repairs ==> e.item.Repair?)
  }

  lemma {:induction false} PassKeepsDue(q: seq<Entry>, size: nat, limit: nat, repeat: nat, missLimit: nat)
    requires AllDue(q, repeat, missLimit)
    ensures AllDue(PassOver(q, size, limit, repeat, missLimit).retained, repeat, missLimit)
  {
    hide Size, Encoded;
    if q != [] {
      var last := q[|q| - 1];
      assert Due(last, repeat, missLimit);
      var grown := if size + Size(last) <= limit then size + Size(last) else size;
      PassKeepsDue(q[..|q| - 1], grown, limit, repeat, missLimit);
    }
  }

  ghost predicate From(kept: seq<Entry>, q: seq<Entry>) {
    forall j :: 0 <= j < |kept| ==> exists i :: 0 <= i < |q| && q[i].item == kept[j].item
  }

  lemma FromSnoc(kept: seq<Entry>, q: seq<Entry>, last: Entry, e: Entry)
    requires From(kept, q) && e.item == last.item
    ensures From(kept, q + [last]) && From(kept + [e], q + [last])
    ensures Distinct(q + [last]) && Distinct(kept) ==> Distinct(kept + [e])
  {
    var longer := q + [last];
    forall j | 0 <= j < |kept| ensures exists i :: 0 <= i < |longer| && longer[i].item == kept[j].item {
      var i :| 0 <= i < |q| && q[i].item == kept[j].item;
      assert longer[i] == q[i];
    }
    assert longer[|q|].item == e.item;
    if Distinct(longer) && Distinct(kept) {
      forall j | 0 <= j < |kept| ensures kept[j].item != e.item {
        var i :| 0 <= i < |q| && q[i].item == kept[j].item;
        assert longer[i].item != longer[|q|].item;
      }
    }
  }

  lemma {:induction false} PassKeepsItems(q: seq<Entry>, size: nat, limit: nat, repeat: nat, missLimit: nat)
    ensures var kept := PassOver(q, size, limit, repeat, missLimit).retained;
      From(kept, q) && (Distinct(q) ==> Distinct(kept))
  {
    hide Size, Encoded;
    if q != [] {
      var front, last := q[..|q| - 1], q[|q| - 1];
      var fits := size + Size(last) <= limit;
      var grown := if fits then size + Size(last) else size;
      PassKeepsItems(front, grown, limit, repeat, missLimit);
      var kept := PassOver(front, grown, limit, repeat, missLimit).retained;
      assert Distinct(q) ==> Distinct(front);
      FromSnoc(kept, front, last, Charge(last, fits));
      assert q == front + [last] && kept + [] == kept;
      hide From, Distinct;
    }
  }

  lemma PassKeeps(q: seq<Entry>, size: nat, limit: nat, repeat: nat, missLimit: nat)
    requires AllDue(q, repeat, missLimit)
    ensures var kept := PassOver(q, size, limit, repeat, missLimit).retained;
      AllDue(kept, repeat, missLimit) && From(kept, q) && (Distinct(q) ==> Distinct(kept))
  {
    PassKeepsDue(q, size, limit, repeat, missLimit);
    PassKeepsItems(q, size, limit, repeat, missLimit);
  }

  lemma RoundKeeps(l: Limits, p: Queues)
    requires Invariant(l, p)
    ensures Invariant(l, DoRound(p, l).queues)
  {
    hide PassOver, Base, Due;
    var base := Base(p.notify, l.appParams);
    PassKeeps(p.mappings, |Wire(base)|, l.appParams, l.repeat, l.missLimit);
    var a := PassOver(p.mappings, |Wire(base)|, l.appParams, l.repeat, l.missLimit);
    PassKeeps(p.packets, a.size, l.appParams, l.repeat, l.missLimit);
    var b := PassOver(p.packets, a.size, l.appParams, l.repeat, l.missLimit);
    PassKeeps(p.repairs, b.size, l.appParams, l.repairRepeat, l.missLimit);
  }

  lemma AppendKeeps(q: seq<Entry>, item: Item, repeat: nat, missLimit: nat)
    requires AllDue(q, repeat, missLimit)
    ensures AllDue(q + [Fresh(item)], repeat, missLimit)
    ensures Distinct(q) && (item.Repair? ==> !Asked(q, item.range)) && item.Repair? ==> Distinct(q + [Fresh(item)])
  {
  }

  lemma StepKeeps(l: Limits, p: Queues, e: Event)
    requires Invariant(l, p)
    ensures Invariant(l, Step(l)(p, e))
  {
    hide DoRound, AllDue, Distinct, Asked;
    match e
    case NewMapping(node, entry) => AppendKeeps(p.mappings, Mapping(node, entry), l.repeat, l.missLimit);
    case RepeatMapping(node, entry) => AppendKeeps(p.mappings, Mapping(node, entry), l.repeat, l.missLimit);
    case NewPacket(value) => AppendKeeps(p.packets, Packet(value), l.repeat, l.missLimit);
    case AskRepair(range) => AppendKeeps(p.repairs, Repair(range), l.repairRepeat, l.missLimit);
    case SyncRound => RoundKeeps(l, p);
  }

  /**
   * What is told between two rounds goes to the back of its queue, uncharged, and moves nothing else. A mapping is
   * also notified exactly when nothing is yet, or only of the same producer.
   */
  lemma QueuedAsTold(l: Limits, p: Queues, e: Event)
    requires !e.SyncRound? && !e.AskRepair?
    ensures var q := Step(l)(p, e);
      && q.mappings == p.mappings + (if e.NewPacket? then [] else [Entry(Mapping(e.node, e.entry), 0, 0, 0)])
      && q.packets == p.packets + (if e.NewPacket? then [Entry(Packet(e.value), 0, 0, 0)] else [])
      && q.repairs == p.repairs
      && (e.NewMapping? && (p.notify.node == [] || p.notify.node == e.node) ==>
           q.notify.node == e.node && q.notify.pairs == p.notify.pairs + [e.entry])
      && (!e.NewMapping? || (p.notify.node != [] && p.notify.node != e.node) ==> q.notify == p.notify)
  {
    hide DoRound;
    var q := Step(l)(p, e);
    if e.NewPacket? {
      assert q == p.(packets := p.packets + [Fresh(Packet(e.value))]);
      assert p.mappings + [] == p.mappings;
    } else {
      assert q == p.(notify := q.notify, mappings := p.mappings + [Fresh(Mapping(e.node, e.entry))]);
      assert p.packets + [] == p.packets;
    }
  }

  /** A repair request is queued afterwards, once: as before if it was queued already, else at the back. */
  lemma AskedOnce(l: Limits, p: Queues, range: Range)
    ensures var q := Step(l)(p, AskRepair(range));
      && Asked(q.repairs, range) && q == p.(repairs := q.repairs)
      && q.repairs == p.repairs + (if Asked(p.repairs, range) then [] else [Entry(Repair(range), 0, 0, 0)])
  {
    assert p.repairs + [] == p.repairs;
    if !Asked(p.repairs, range) {
      var asked := p.repairs + [Fresh(Repair(range))];
      assert asked[|p.repairs|].item == Repair(range);
      assert Asked(asked, range);
    }
  }

  function AtLeastOne(n: nat): nat { if n == 0 then 1 else n }

  const EMPTY := Queues(MappingList([], []), [], [], [])

  lemma Reachable(l: Limits, es: seq<Event>)
    ensures Invariant(l, Run(Step(l), EMPTY, es))
  {
    var inv := (p: Queues) => Invariant(l, p);
    forall p, e | inv(p) ensures inv(Step(l)(p, e)) { StepKeeps(l, p, e); }
    AllAdmissible(Step(l), EMPTY, es);
    Invariance(Step(l), Always, inv, EMPTY, es);
    assert inv(Run(Step(l), EMPTY, es));
  }

  /**
   * However the queues fill and however large the blocks are: an entry still queued has been through
   * at most max(1, repeat) + max(1, missLimit) - 2 rounds, so it leaves in the next one at the latest,
   * having been sent at most max(1, repeat) times; and no repair request is queued twice.
   */
  lemma EntriesLeaveInTime(l: Limits, es: seq<Event>, e: Entry)
    requires var p := Run(Step(l), EMPTY, es); e in p.mappings || e in p.packets || e in p.repairs
    ensures var p := Run(Step(l), EMPTY, es);
      var repeat := if e.item.Repair? then l.repairRepeat else l.repeat;
      && e.age == e.sent + e.missed <= AtLeastOne(repeat) + AtLeastOne(l.missLimit) - 2
      && e.sent < AtLeastOne(repeat) && e.missed < AtLeastOne(l.missLimit)
      && Distinct(p.repairs)
  {
    Reachable(l, es);
  }

  // ---------- budgets are used ----------

  /** What a round makes of one entry: sent or missed once more, and kept while that leaves budget. */
  ghost predicate Charged(old_: Entry, sent: bool, e: Entry, repeat: nat, missLimit: nat) {
    && e.item == old_.item && e.age == old_.age + 1
    && e.sent == old_.sent + (if sent then 1 else 0) && e.missed == old_.missed + (if sent then 0 else 1)
    && (if sent then old_.sent + 1 < repeat else old_.missed + 1 < missLimit)
  }

  /** The entries kept are exactly the charged ones that have budget left. */
  ghost predicate KeepsCharged(q: seq<Entry>, sent: seq<bool>, kept: seq<Entry>, repeat: nat, missLimit: nat) {
    |q| == |sent| && forall e :: e in kept <==> exists i :: 0 <= i < |q| && Charged(q[i], sent[i], e, repeat, missLimit)
  }

  lemma {:induction false} SurvivorsExactly(q: seq<Entry>, sent: seq<bool>, repeat: nat, missLimit: nat)
    requires |q| == |sent|
    ensures KeepsCharged(q, sent, Survivors(q, sent, repeat, missLimit), repeat, missLimit)
  {
    if q != [] {
      SurvivorsExactly(q[1..], sent[1..], repeat, missLimit);
      var rest := Survivors(q[1..], sent[1..], repeat, missLimit);
      forall e
        ensures e in Survivors(q, sent, repeat, missLimit)
           <==> exists i :: 0 <= i < |q| && Charged(q[i], sent[i], e, repeat, missLimit)
      {
        if e in rest {
          var i :| 0 <= i < |q| - 1 && Charged(q[1..][i], sent[1..][i], e, repeat, missLimit);
          assert Charged(q[i + 1], sent[i + 1], e, repeat, missLimit);
        } else if e in Survivors(q, sent, repeat, missLimit) {
          assert Charged(q[0], sent[0], e, repeat, missLimit);
        }
        if i :| 0 <= i < |q| && Charged(q[i], sent[i], e, repeat, missLimit) {
          if i == 0 {
            assert e == Charge(q[0], sent[0]);
          } else {
            assert Charged(q[1..][i - 1], sent[1..][i - 1], e, repeat, missLimit);
          }
        }
      }
    }
  }

  /** A round charges every entry of every queue as sent or missed, keeps what has budget left, and notifies once. */
  lemma RoundCharges(l: Limits, p: Queues) returns (a: seq<bool>, b: seq<bool>, c: seq<bool>)
    ensures Packed(l, p, a, b, c)
    ensures var q := Step(l)(p, SyncRound);
      && q.notify == MappingList([], [])
      && KeepsCharged(p.mappings, a, q.mappings, l.repeat, l.missLimit)
      && KeepsCharged(p.packets, b, q.packets, l.repeat, l.missLimit)
      && KeepsCharged(p.repairs, c, q.repairs, l.repairRepeat, l.missLimit)
  {
    hide Base, Wires, SentBlocks, Survivors, Taken, NewestFirstFit, Wire, KeepsCharged;
    var m := |Wire(Base(p.notify, l.appParams))|;
    a := PassIsNewestFirstFit(p.mappings, m, l.appParams, l.repeat, l.missLimit);
    SameLength(p.mappings, a, m, l.appParams);
    SurvivorsExactly(p.mappings, a, l.repeat, l.missLimit);
    b := PassIsNewestFirstFit(p.packets, m + Taken(p.mappings, a), l.appParams, l.repeat, l.missLimit);
    SameLength(p.packets, b, m + Taken(p.mappings, a), l.appParams);
    SurvivorsExactly(p.packets, b, l.repeat, l.missLimit);
    var n := m + Taken(p.mappings, a) + Taken(p.packets, b);
    c := PassIsNewestFirstFit(p.repairs, n, l.appParams, l.repairRepeat, l.missLimit);
    SameLength(p.repairs, c, n, l.appParams);
    SurvivorsExactly(p.repairs, c, l.repairRepeat, l.missLimit);
    hide PassOver;
    assert Step(l)(p, SyncRound) == DoRound(p, l).queues;
  }

  function SyncRounds(k: nat): seq<Event> { seq(k, i => SyncRound) }

  /** The packet alone in the queues, after k rounds. */
  ghost function Alone(l: Limits, value: seq<byte>, k: nat): Queues {
    var fits := 4 + Size(Fresh(Packet(value))) <= l.appParams;
    var budget := AtLeastOne(if fits then l.repeat else l.missLimit);
    OnlyPackets(if k >= budget then [] else [Entry(Packet(value), if fits then k else 0, if fits then 0 else k, k)])
  }

  lemma AloneRound(l: Limits, value: seq<byte>, k: nat)
    ensures Step(l)(Alone(l, value, k), SyncRound) == Alone(l, value, k + 1)
  {
    hide Encoded, Base, Wires, Wire;
    BareBase(l.appParams);
    var p := Alone(l, value, k);
    assert Step(l)(p, SyncRound) == DoRound(p, l).queues;
    NoPass(4, l.appParams, l.repeat, l.missLimit);
    if p.packets != [] {
      var e := p.packets[0];
      assert p.packets[..0] == [];
      assert Size(e) == Size(Fresh(Packet(value)));
      var size := if 4 + Size(e) <= l.appParams then 4 + Size(e) else 4;
      NoPass(size, l.appParams, l.repeat, l.missLimit);
      NoPass(size, l.appParams, l.repairRepeat, l.missLimit);
    } else {
      NoPass(4, l.appParams, l.repairRepeat, l.missLimit);
    }
  }

  /**
   * A publication alone in the queues is carried by exactly max(1, repeat) rounds when it fits beside a bare mapping
   * block; one that does not fit is dropped after exactly max(1, missLimit) rounds.
   */
  lemma {:induction false} BudgetIsUsed(l: Limits, value: seq<byte>, k: nat)
    ensures Run(Step(l), EMPTY, [NewPacket(value)] + SyncRounds(k)) == Alone(l, value, k)
    decreases k
  {
    hide Size, DoRound;
    var add := [NewPacket(value)];
    if k == 0 {
      assert add + SyncRounds(0) == add;
      One(Step(l), EMPTY, NewPacket(value));
      assert [] + [Fresh(Packet(value))] == [Fresh(Packet(value))];
    } else {
      BudgetIsUsed(l, value, k - 1);
      assert add + SyncRounds(k) == (add + SyncRounds(k - 1)) + [SyncRound];
      Append(Step(l), EMPTY, add + SyncRounds(k - 1), [SyncRound]);
      One(Step(l), Alone(l, value, k - 1), SyncRound);
      AloneRound(l, value, k - 1);
    }
  }

  // ---------- the extension blocks ----------

  /** Repair requests are gathered into one block of their own, everything else stays with the mappings. */
  function Split(bs: seq<Block>): Option<(seq<Block>, seq<Range>)> {
    if bs == [] then Some(([], []))
    else
      var rest := Split(bs[1..]);
      if rest.None? then None
      else if bs[0].typ == REPAIR_DATA then
        var rs := ReadRepairs(bs[0]);
        if rs.None? then None else Some((rest.value.0, rs.value + rest.value.1))
      else Some(([bs[0]] + rest.value.0, rest.value.1))
  }

  function ExtraBlocks(composite: Block): Option<seq<Block>> {
    var elements := Elements(composite.value);
    if elements.None? then None
    else
      var parts := Split(elements.value);
      if parts.None? then None
      else
        var repairs := if parts.value.1 != [] then [RepairBlock(parts.value.1)] else [];
        Some([Block(MAPPING_DATA, Wires(parts.value.0))] + repairs)
  }

  /** The ranges of the sent repair requests, newest first. */
  function SentRanges(q: seq<Entry>, sent: seq<bool>): seq<Range>
    requires |q| == |sent| && forall e :: e in q ==> e.item.Repair?
  {
    if q == [] then [] else SentRanges(q[1..], sent[1..]) + if sent[0] then [q[0].item.range] else []
  }

  lemma {:induction false} SplitPlain(bs: seq<Block>, cs: seq<Block>)
    requires forall b :: b in bs ==> b.typ != REPAIR_DATA
    ensures Split(bs + cs) == if Split(cs).None? then None else Some((bs + Split(cs).value.0, Split(cs).value.1))
  {
    if bs == [] {
      assert bs + cs == cs;
      if Split(cs).Some? { assert [] + Split(cs).value.0 == Split(cs).value.0; }
    } else {
      SplitPlain(bs[1..], cs);
      assert (bs + cs)[1..] == bs[1..] + cs && (bs + cs)[0] == bs[0];
      if Split(cs).Some? { assert [bs[0]] + (bs[1..] + Split(cs).value.0) == bs + Split(cs).value.0; }
    }
  }

  lemma OneRepair(r: Range)
    requires |RepairBlock([r]).value| < SIZE_LIMIT
    ensures ReadRepairs(RepairBlock([r])) == if ValidRange(r) then Some([r]) else None
    ensures RepairBlock([r]).typ == REPAIR_DATA
  {
    RepairRoundTrip([r]);
    assert r in [r];
  }

  lemma SplitOneRepair(r: Range, rest: seq<Block>)
    requires |RepairBlock([r]).value| < SIZE_LIMIT && (Split(rest).Some? ==> Split(rest).value.0 == [])
    ensures Split([RepairBlock([r])] + rest)
      == if Split(rest).Some? && ValidRange(r) then Some(([], [r] + Split(rest).value.1)) else None
  {
    OneRepair(r);
    hide RepairBlock, ReadRepairs;
    var bs := [RepairBlock([r])] + rest;
    assert bs[1..] == rest && bs[0] == RepairBlock([r]);
  }

  ghost predicate AllRepairs(q: seq<Entry>) { forall e :: e in q ==> e.item.Repair? }

  predicate AllValid(rs: seq<Range>) { forall r :: r in rs ==> ValidRange(r) }

  ghost predicate Small(bs: seq<Block>) { forall b :: b in bs ==> |b.value| < SIZE_LIMIT }

  /** The repair blocks split off as their ranges, or fail together when one range is not valid. */
  lemma {:induction false} SplitRepairs(q: seq<Entry>, sent: seq<bool>, rest: seq<Block>)
    requires |q| == |sent| && AllRepairs(q) && Small(SentBlocks(q, sent))
    requires Split(rest).Some? ==> Split(rest).value.0 == []
    ensures Split(SentBlocks(q, sent) + rest)
      == if Split(rest).Some? && AllValid(SentRanges(q, sent))
         then Some(([], SentRanges(q, sent) + Split(rest).value.1)) else None
  {
    hide RepairBlock, Split;
    if q == [] {
      assert [] + rest == rest;
      if Split(rest).Some? { assert [] + Split(rest).value.1 == Split(rest).value.1; }
    } else if !sent[0] {
      assert SentBlocks(q[1..], sent[1..]) + [] == SentBlocks(q[1..], sent[1..]);
      assert SentRanges(q[1..], sent[1..]) + [] == SentRanges(q[1..], sent[1..]);
      SplitRepairs(q[1..], sent[1..], rest);
    } else {
      var b, r := Encoded(q[0].item), q[0].item.range;
      var blocks, ranges := SentBlocks(q[1..], sent[1..]), SentRanges(q[1..], sent[1..]);
      assert q[0] in q && SentBlocks(q, sent) == blocks + [b] && SentRanges(q, sent) == ranges + [r];
      assert b in SentBlocks(q, sent);
      SplitOneRepair(r, rest);
      SplitRepairs(q[1..], sent[1..], [b] + rest);
      assert blocks + [b] + rest == blocks + ([b] + rest);
      LastValid(ranges, r);
      if Split(rest).Some? { assert ranges + [r] + Split(rest).value.1 == ranges + ([r] + Split(rest).value.1); }
    }
  }

  lemma LastValid(ranges: seq<Range>, r: Range)
    ensures AllValid(ranges + [r]) <==> AllValid(ranges) && ValidRange(r)
  {
    assert forall x :: x in ranges + [r] <==> x in ranges || x == r;
  }

  function BaseElements(notify: MappingList, limit: nat): seq<Block> {
    [NameBlock(notify.node)]
        + Reverse(EntryBlocks(if notify.node != [] then Select(notify.node, notify.pairs, limit) else [], V3))
  }

  ghost predicate Plain(bs: seq<Block>) { forall b :: b in bs ==> b.typ != REPAIR_DATA }

  lemma {:induction false} SentArePlain(q: seq<Entry>, sent: seq<bool>)
    requires |q| == |sent| && forall e :: e in q ==> !e.item.Repair?
    ensures Plain(SentBlocks(q, sent))
  {
    if q != [] {
      SentArePlain(q[1..], sent[1..]);
      assert q[0] in q;
    }
  }

  lemma BaseIsPlain(notify: MappingList, limit: nat)
    ensures Base(notify, limit).value == Wires(BaseElements(notify, limit)) && Plain(BaseElements(notify, limit))
  {
    hide NameBlock, EntryBlock, Select, Wires;
    NameIsName(notify.node);
    forall e ensures EntryBlock(e, V3).typ == MAPPING_ENTRY { EntryType(e); }
  }

  lemma EntryType(e: MappingEntry)
    ensures EntryBlock(e, V3).typ == MAPPING_ENTRY
  {
  }

  lemma CompositeElements(base: Block, bs: seq<Block>, a: seq<Block>, b: seq<Block>, c: seq<Block>)
    requires base.value == Wires(bs) && |base.value + Wires(a) + Wires(b) + Wires(c)| < SIZE_LIMIT
    ensures Elements(base.value + Wires(a) + Wires(b) + Wires(c)) == Some(bs + a + b + c) && Small(c)
  {
    WiresAppend(bs, a);
    WiresAppend(bs + a, b);
    WiresAppend(bs + a + b, c);
    Unpack(bs + a + b + c);
  }

  lemma SplitComposite(plain: seq<Block>, q: seq<Entry>, sent: seq<bool>)
    requires Plain(plain) && |q| == |sent| && AllRepairs(q) && Small(SentBlocks(q, sent))
    ensures Split(plain + SentBlocks(q, sent))
      == if AllValid(SentRanges(q, sent)) then Some((plain, SentRanges(q, sent))) else None
  {
    assert SentBlocks(q, sent) + [] == SentBlocks(q, sent) && SentRanges(q, sent) + [] == SentRanges(q, sent);
    SplitRepairs(q, sent, []);
    hide Split;
    SplitPlain(plain, SentBlocks(q, sent));
    assert plain + [] == plain;
  }

  ghost predicate Packed(l: Limits, p: Queues, a: seq<bool>, b: seq<bool>, c: seq<bool>) {
    var m := |Wire(Base(p.notify, l.appParams))|;
    && |a| == |p.mappings| && |b| == |p.packets| && |c| == |p.repairs|
    && NewestFirstFit(p.mappings, a, m, l.appParams)
    && NewestFirstFit(p.packets, b, m + Taken(p.mappings, a), l.appParams)
    && NewestFirstFit(p.repairs, c, m + Taken(p.mappings, a) + Taken(p.packets, b), l.appParams)
  }

  lemma RoundParts(l: Limits, p: Queues) returns (a: seq<bool>, b: seq<bool>, c: seq<bool>)
    ensures Packed(l, p, a, b, c)
    ensures DoRound(p, l).block == Block(MAPPING_DATA, Base(p.notify, l.appParams).value
      + Wires(SentBlocks(p.mappings, a)) + Wires(SentBlocks(p.packets, b)) + Wires(SentBlocks(p.repairs, c)))
  {
    hide Base, Wires, SentBlocks, Survivors, Taken, NewestFirstFit, Wire;
    var m := |Wire(Base(p.notify, l.appParams))|;
    a := PassIsNewestFirstFit(p.mappings, m, l.appParams, l.repeat, l.missLimit);
    SameLength(p.mappings, a, m, l.appParams);
    b := PassIsNewestFirstFit(p.packets, m + Taken(p.mappings, a), l.appParams, l.repeat, l.missLimit);
    SameLength(p.packets, b, m + Taken(p.mappings, a), l.appParams);
    var n := m + Taken(p.mappings, a) + Taken(p.packets, b);
    c := PassIsNewestFirstFit(p.repairs, n, l.appParams, l.repairRepeat, l.missLimit);
    SameLength(p.repairs, c, n, l.appParams);
    hide PassOver;
  }

  /** Each queue holds what is put into it; kept by every run. */
  ghost predicate Kinds(p: Queues) {
    (forall e :: e in p.mappings + p.packets ==> !e.item.Repair?) && AllRepairs(p.repairs)
  }

  /**
   * The extensions a Sync Interest carries after a round. They are built exactly when every repair
   * range sent is valid; otherwise the source throws. The mapping block keeps the new mappings, the
   * repeated mappings and the publications in the order they were packed, and the repair block, if
   * any request was sent, lists exactly the ranges sent, newest first.
   */
  lemma ExtensionsCarryWhatWasSent(l: Limits, p: Queues) returns (a: seq<bool>, b: seq<bool>, c: seq<bool>)
    requires Kinds(p) && |DoRound(p, l).block.value| < SIZE_LIMIT
    ensures Packed(l, p, a, b, c)
    ensures var asked := SentRanges(p.repairs, c);
      ExtraBlocks(DoRound(p, l).block)
      == if !AllValid(asked) then None
         else
           Some([Block(MAPPING_DATA, Wires(BaseElements(p.notify, l.appParams)
                                           + SentBlocks(p.mappings, a) + SentBlocks(p.packets, b)))]
                + if asked != [] then [RepairBlock(asked)] else [])
  {
    hide Base, BaseElements, DoRound, RepairBlock, Split, Elements, Wires, SentBlocks, Taken;
    hide NewestFirstFit, Wire, SentRanges, AllValid;
    a, b, c := RoundParts(l, p);
    var base, bs := Base(p.notify, l.appParams), BaseElements(p.notify, l.appParams);
    BaseIsPlain(p.notify, l.appParams);
    var x, y, z := SentBlocks(p.mappings, a), SentBlocks(p.packets, b), SentBlocks(p.repairs, c);
    CompositeElements(base, bs, x, y, z);
    forall e | e in p.mappings ensures !e.item.Repair? { assert e in p.mappings + p.packets; }
    forall e | e in p.packets ensures !e.item.Repair? { assert e in p.mappings + p.packets; }
    SentArePlain(p.mappings, a);
    SentArePlain(p.packets, b);
    SplitComposite(bs + x + y, p.repairs, c);
  }

  lemma SameLength(q: seq<Entry>, sent: seq<bool>, size: nat, limit: nat)
    requires NewestFirstFit(q, sent, size, limit)
    ensures |q| == |sent|
  {
  }

  /** The repair extension reads back as the ranges it was built from exactly when all are valid. */
  lemma RepairsReadBack(ranges: seq<Range>)
    requires |RepairBlock(ranges).value| < SIZE_LIMIT
    ensures ReadRepairs(RepairBlock(ranges)) == Some(ranges) <==> AllValid(ranges)
  {
    RepairRoundTrip(ranges);
  }

  lemma {:induction false} SentComeFromQueue(q: seq<Entry>, sent: seq<bool>)
    requires |q| == |sent| && AllRepairs(q)
    ensures forall r :: r in SentRanges(q, sent) ==> exists e :: e in q && e.item == Repair(r)
  {
    if q != [] {
      SentComeFromQueue(q[1..], sent[1..]);
      forall r | r in SentRanges(q, sent) ensures exists e :: e in q && e.item == Repair(r) {
        if r in SentRanges(q[1..], sent[1..]) {
          var e :| e in q[1..] && e.item == Repair(r);
          assert e in q;
        } else {
          assert q[0] in q && q[0].item == Repair(r);
        }
      }
    }
  }

  /** A publication number is at least 1; a request asks for one number. */
  ghost predicate AsksValid(p: Queues, e: Event) { e.AskRepair? ==> ValidRange(e.range) }

  ghost predicate ValidQueue(l: Limits, p: Queues) {
    Invariant(l, p) && forall e :: e in p.repairs ==> e.item.Repair? && ValidRange(e.item.range)
  }

  lemma ValidRoundKeeps(l: Limits, p: Queues)
    requires ValidQueue(l, p)
    ensures ValidQueue(l, DoRound(p, l).queues)
  {
    hide PassOver, Base, Due, Distinct, AllDue;
    RoundKeeps(l, p);
    var a := PassOver(p.mappings, |Wire(Base(p.notify, l.appParams))|, l.appParams, l.repeat, l.missLimit);
    var b := PassOver(p.packets, a.size, l.appParams, l.repeat, l.missLimit);
    PassKeepsItems(p.repairs, b.size, l.appParams, l.repairRepeat, l.missLimit);
    var kept := DoRound(p, l).queues.repairs;
    forall e | e in kept ensures e.item.Repair? && ValidRange(e.item.range) {
      var j :| 0 <= j < |kept| && kept[j] == e;
      var i :| 0 <= i < |p.repairs| && p.repairs[i].item == kept[j].item;
      assert p.repairs[i] in p.repairs;
    }
  }

  lemma ValidStepKeeps(l: Limits, p: Queues, e: Event)
    requires ValidQueue(l, p) && AsksValid(p, e)
    ensures ValidQueue(l, Step(l)(p, e))
  {
    hide DoRound, Invariant;
    StepKeeps(l, p, e);
    if e.SyncRound? { ValidRoundKeeps(l, p); }
  }

  /** As long as only valid ranges are asked for, the extensions of every round can be built. */
  lemma ValidRequestsNeverFail(l: Limits, es: seq<Event>)
    requires Admissible(Step(l), AsksValid, EMPTY, es)
    requires |DoRound(Run(Step(l), EMPTY, es), l).block.value| < SIZE_LIMIT
    ensures ExtraBlocks(DoRound(Run(Step(l), EMPTY, es), l).block).Some?
  {
    var inv := (p: Queues) => ValidQueue(l, p);
    forall p, e | inv(p) && AsksValid(p, e) ensures inv(Step(l)(p, e)) { ValidStepKeeps(l, p, e); }
    Invariance(Step(l), AsksValid, inv, EMPTY, es);
    var p := Run(Step(l), EMPTY, es);
    assert inv(p);
    assert Kinds(p) by { ValidKinds(l, p); }
    hide DoRound, ExtraBlocks, Packed, BaseElements, SentBlocks, Step, Invariant;
    var a, b, c := ExtensionsCarryWhatWasSent(l, p);
    PackedLengths(l, p, a, b, c);
    SentComeFromQueue(p.repairs, c);
  }

  lemma ValidKinds(l: Limits, p: Queues)
    requires ValidQueue(l, p)
    ensures Kinds(p)
  {
  }

  lemma PackedLengths(l: Limits, p: Queues, a: seq<bool>, b: seq<bool>, c: seq<bool>)
    requires Packed(l, p, a, b, c)
    ensures |c| == |p.repairs|
  {
  }

  lemma AskedAlone(l: Limits, range: Range)
    ensures Run(Step(l), EMPTY, [AskRepair(range)]) == EMPTY.(repairs := [Fresh(Repair(range))])
  {
    hide DoRound;
    One(Step(l), EMPTY, AskRepair(range));
    assert [] + [Fresh(Repair(range))] == [Fresh(Repair(range))];
  }

  /** One repair request in empty queues that fits: the round fails exactly when its range is not valid. */
  lemma OneRequestDecides(l: Limits, range: Range)
    requires 4 + Size(Fresh(Repair(range))) <= l.appParams
    requires |DoRound(Run(Step(l), EMPTY, [AskRepair(range)]), l).block.value| < SIZE_LIMIT
    ensures ExtraBlocks(DoRound(Run(Step(l), EMPTY, [AskRepair(range)]), l).block).Some? <==> ValidRange(range)
  {
    var p := EMPTY.(repairs := [Fresh(Repair(range))]);
    AskedAlone(l, range);
    hide DoRound, Size, Base, Wires, BaseElements, Step;
    var a, b, c := ExtensionsCarryWhatWasSent(l, p);
    BareBase(l.appParams);
    assert c[1..] == [] && p.repairs[1..] == [];
    assert Taken([], []) == 0 && c[0];
    assert SentRanges(p.repairs, c) == [range];
    assert range in [range];
  }

  lemma ZeroRequestSize()
    ensures Size(Fresh(Repair(Range([], 0, 0, 0)))) <= 80
  {
    var range := Range([], 0, 0, 0);
    var fields := RepairFields(range);
    FourWires(fields);
    ZeroFields();
    hide RepairFields, Wires;
    var entry := RepairEntryBlock(range);
    assert RepairBlocks([range]) == [entry];
    WiresOne(entry);
  }

  lemma ZeroFields()
    ensures forall b :: b in RepairFields(Range([], 0, 0, 0)) ==> |Wire(b)| <= 12
  {
    assert ComponentBlocks([]) == [] && Wires([]) == [];
  }

  /**
   * A publication numbered 0, which a peer's mapping list can name, fails to arrive and is asked for
   * again: from then on building the extensions throws.
   */
  lemma NumberZeroBreaksExtensions()
    ensures var l := Limits(255, 3, 3, 3);
      ExtraBlocks(DoRound(Run(Step(l), EMPTY, [AskRepair(Range([], 0, 0, 0))]), l).block).None?
  {
    hide Size, ExtraBlocks, DoRound, ListSize, Wire;
    var l, range := Limits(255, 3, 3, 3), Range([], 0, 0, 0);
    ZeroRequestSize();
    var p := Run(Step(l), EMPTY, [AskRepair(range)]);
    One(Step(l), EMPTY, AskRepair(range));
    RoundRespectsLimit(p, l);
    BareBase(255);
    ValueInWire(DoRound(p, l).block);
    OneRequestDecides(l, range);
  }

  lemma ValueInWire(b: Block)
    ensures |b.value| <= |Wire(b)|
  {
  }

  lemma FourWires(bs: seq<Block>)
    requires |bs| == 4
    ensures |Wires(bs)| == |Wire(bs[0])| + |Wire(bs[1])| + |Wire(bs[2])| + |Wire(bs[3])|
  {
    hide Wire;
    assert bs == [bs[0]] + ([bs[1]] + ([bs[2]] + [bs[3]]));
    WiresCons(bs[0], [bs[1]] + ([bs[2]] + [bs[3]]));
    WiresCons(bs[1], [bs[2]] + [bs[3]]);
    WiresCons(bs[2], [bs[3]]);
    WiresOne(bs[3]);
  }

  // ---------- the queues ----------

  class PiggybackQueues {
    const limits: Limits
    var notification: MappingList
    var mappings: seq<Entry>
    var packets: seq<Entry>
    var repairs: seq<Entry>

    ghost function State(): Queues
      reads this
    {
      Queues(notification, mappings, packets, repairs)
    }

    constructor (limits: Limits)
      ensures State() == EMPTY && this.limits == limits
    {
      this.limits := limits;
      notification := MappingList([], []);
      mappings, packets, repairs := [], [], [];
    }

    method InsertMapping(node: Name, entry: MappingEntry)
      modifies this
      ensures State() == Step(limits)(old(State()), NewMapping(node, entry))
    {
      if notification.node == [] || notification.node == node {
        notification := MappingList(node, notification.pairs + [entry]);
      }
      mappings := mappings + [Fresh(Mapping(node, entry))];
    }

    method RememberRepairRequest(range: Range)
      modifies this
      ensures State() == Step(limits)(old(State()), AskRepair(range))
    {
      for i := 0 to |repairs|
        invariant State() == old(State())
        invariant forall j :: 0 <= j < i ==> repairs[j].item != Repair(range)
      {
        if repairs[i].item == Repair(range) { return; }
      }
      repairs := repairs + [Fresh(Repair(range))];
    }

    /**
     * Puts a publication that a peer asked for on the queues again: its mapping, if there is one, and its packet, if
     * that is stored and within the piggyback cap.
     */
    method EnqueueRepairPublication(node: Name, mapping: Option<MappingEntry>, inner: Option<seq<byte>>, cap: nat)
      modifies this
      ensures State() ==
        if mapping.None? then old(State())
        else
          var m := Step(limits)(old(State()), RepeatMapping(node, mapping.value));
          if inner.Some? && Size(Fresh(Packet(inner.value))) <= cap then Step(limits)(m, NewPacket(inner.value)) else m
    {
      if mapping.None? { return; }
      mappings := mappings + [Fresh(Mapping(node, mapping.value))];
      if inner.None? || |Wire(Encoded(Packet(inner.value)))| > cap { return; }
      packets := packets + [Fresh(Packet(inner.value))];
    }

    /** One pass from the back of a queue; survivors are pushed to the front of the new queue. */
    static method PassQueue(q: seq<Entry>, start: nat, limit: nat, repeat: nat, missLimit: nat)
      returns (retained: seq<Entry>, chosen: seq<Block>, size: nat)
      ensures Pass(retained, chosen, size) == PassOver(q, start, limit, repeat, missLimit)
    {
      hide PassOver, Encoded, Wire;
      retained, chosen, size := [], [], start;
      var n := |q|;
      assert q[..n] == q;
      while n > 0
        invariant 0 <= n <= |q|
        invariant var rest := PassOver(q[..n], size, limit, repeat, missLimit);
          PassOver(q, start, limit, repeat, missLimit)
              == Pass(rest.retained + retained, chosen + rest.chosen, rest.size)
      {
        ghost var retained0, chosen0, size0 := retained, chosen, size;
        n := n - 1;
        var e := q[n];
        var block := Encoded(e.item);
        if size + |Wire(block)| > limit {
          e := e.(missed := e.missed + 1, age := e.age + 1);
          if e.missed < missLimit { retained := [e] + retained; }
        } else {
          chosen := chosen + [block];
          size := size + |Wire(block)|;
          e := e.(sent := e.sent + 1, age := e.age + 1);
          if e.sent < repeat { retained := [e] + retained; }
        }
        OnePass(q, n, size0, limit, repeat, missLimit, retained0, chosen0);
      }
      NoPass(size, limit, repeat, missLimit);
    }

    /** Adds the new mappings one by one, leaving out those that would overflow the block. */
    static method SelectMappings(notify: MappingList, limit: nat) returns (base: Block)
      ensures base == Base(notify, limit)
    {
      var included: seq<MappingEntry> := [];
      if notify.node != [] {
        for i := 0 to |notify.pairs|
          invariant included == Select(notify.node, notify.pairs[..i], limit)
        {
          assert notify.pairs[..i + 1][..i] == notify.pairs[..i];
          var candidate := included + [notify.pairs[i]];
          if |Wire(MappingBlock(MappingList(notify.node, candidate), V3))| <= limit {
            included := candidate;
          }
        }
        assert notify.pairs[..|notify.pairs|] == notify.pairs;
      }
      base := MappingBlock(MappingList(notify.node, included), V3);
    }

    /** Packs one Sync Interest's extra data. */
    method OnGetExtraData() returns (block: Block)
      modifies this
      ensures State() == Step(limits)(old(State()), SyncRound) && block == DoRound(old(State()), limits).block
    {
      hide PassOver, MappingBlock, Base, Wire, Wires;
      ghost var p := State();
      var base := SelectMappings(notification, limits.appParams);
      var newMappings, sentMappings, size1 :=
          PassQueue(mappings, |Wire(base)|, limits.appParams, limits.repeat, limits.missLimit);
      var newPackets, sentPackets, size2 :=
          PassQueue(packets, size1, limits.appParams, limits.repeat, limits.missLimit);
      var newRepairs, sentRepairs, size3 :=
          PassQueue(repairs, size2, limits.appParams, limits.repairRepeat, limits.missLimit);
      mappings, packets, repairs := newMappings, newPackets, newRepairs;
      notification := MappingList([], []);
      block := Block(MAPPING_DATA, base.value + Wires(sentMappings) + Wires(sentPackets) + Wires(sentRepairs));
      assert State() == DoRound(p, limits).queues;
    }
  }

  lemma NoPass(size: nat, limit: nat, repeat: nat, missLimit: nat)
    ensures PassOver([], size, limit, repeat, missLimit) == Pass([], [], size)
  {
  }

  /** One iteration of the pass, seen from the end of the queue. */
  lemma OnePass(q: seq<Entry>, n: nat, size: nat, limit: nat, repeat: nat, missLimit: nat, retained: seq<Entry>,
      chosen: seq<Block>)
    requires n < |q|
    ensures var fits := size + Size(q[n]) <= limit;
      var e := Charge(q[n], fits);
      var rest := PassOver(q[..n], if fits then size + Size(q[n]) else size, limit, repeat, missLimit);
      var whole := PassOver(q[..n + 1], size, limit, repeat, missLimit);
      && whole.retained + retained
          == rest.retained + ((if Stays(e, fits, repeat, missLimit) then [e] else []) + retained)
      && chosen + whole.chosen == (chosen + if fits then [Encoded(q[n].item)] else []) + rest.chosen
      && whole.size == rest.size
  {
    hide Size, Encoded;
    assert q[..n + 1][..n] == q[..n] && q[..n + 1][n] == q[n];
  }
}