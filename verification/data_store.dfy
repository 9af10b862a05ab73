/** The data store and its all-or-nothing batch insertion (svsync-base.cpp). */
module DataStore {
  import opened Names
  import opened Tlv

  /** Names under the local prefix carry the sequence number; everything else is foreign. */
  datatype PacketName = Own(seqNo: nat, segment: Option<nat>) | Foreign(id: nat)
  datatype Packet = Packet(name: PacketName, wireSize: nat, body: seq<byte>)

  type Store = map<PacketName, Packet>

  datatype BatchOutcome = Stored | EraseUnsupported | PacketTooLarge | InsertFailed

  function Lookup(s: Store, n: PacketName): Option<Packet> {
    if n in s then Some(s[n]) else None
  }

  /** The last packet of the list with that name. */
  function Find(packets: seq<Packet>, n: PacketName): Option<Packet> {
    if packets == [] then None
    else if packets[|packets| - 1].name == n then Some(packets[|packets| - 1])
    else Find(packets[..|packets| - 1], n)
  }

  function AddAll(s: Store, packets: seq<Packet>): Store {
    if packets == [] then s
    else AddAll(s, packets[..|packets| - 1])[packets[|packets| - 1].name := packets[|packets| - 1]]
  }

  function NamesOf(packets: seq<Packet>): set<PacketName> {
    set p | p in packets :: p.name
  }

  predicate AllFit(packets: seq<Packet>) {
    forall p :: p in packets ==> p.wireSize <= MAX_NDN_PACKET_SIZE
  }

  /** How a batch ends when the store throws at packet `failAt`. */
  function BatchResult(erasable: bool, packets: seq<Packet>, failAt: Option<nat>): BatchOutcome {
    if packets != [] && !erasable then EraseUnsupported
    else if !AllFit(packets) then PacketTooLarge
    else if failAt.Some? && failAt.value < |packets| then InsertFailed
    else Stored
  }

  function AfterBatch(s: Store, erasable: bool, packets: seq<Packet>, failAt: Option<nat>): Store {
    match BatchResult(erasable, packets, failAt)
    case Stored => AddAll(s, packets)
    case InsertFailed => AddAll(s, packets[..failAt.value]) - NamesOf(packets[..failAt.value])
    case _ => s
  }

  lemma {:induction false} AddAllLookup(s: Store, packets: seq<Packet>, n: PacketName)
    ensures Lookup(AddAll(s, packets), n) == if Find(packets, n).Some? then Find(packets, n) else Lookup(s, n)
    ensures Find(packets, n).Some? <==> n in NamesOf(packets)
    ensures Find(packets, n).Some? ==> Find(packets, n).value in packets && Find(packets, n).value.name == n
  {
    if packets != [] {
      var init, last := packets[..|packets| - 1], packets[|packets| - 1];
      AddAllLookup(s, init, n);
      assert forall p :: p in packets <==> p in init || p == last;
    }
  }

  lemma StoresEqual(s: Store, t: Store)
    requires forall n :: Lookup(s, n) == Lookup(t, n)
    ensures s == t
  {
    assert forall n :: n in s ==> Lookup(s, n) == Lookup(t, n);
    assert forall n :: n in t ==> Lookup(s, n) == Lookup(t, n);
  }

  /** Erasing what was just inserted restores the store exactly when no name was there before. */
  lemma EraseUndoesInsert(s: Store, packets: seq<Packet>)
    ensures AddAll(s, packets) - NamesOf(packets) == s <==> NamesOf(packets) !! s.Keys
  {
    var t := AddAll(s, packets) - NamesOf(packets);
    forall n ensures Lookup(t, n) == if n in NamesOf(packets) then None else Lookup(s, n) {
      AddAllLookup(s, packets, n);
    }
    if NamesOf(packets) !! s.Keys {
      StoresEqual(t, s);
    } else {
      var n :| n in NamesOf(packets) && n in s;
      assert Lookup(t, n) != Lookup(s, n);
    }
  }

  /**
   * A batch that does not end well leaves the store as it was, for every failure point, exactly
   * when the packets inserted before the failure had names the store did not hold. The source
   * erases by name and does not check this.
   */
  lemma FailedBatchChangesNothing(s: Store, erasable: bool, packets: seq<Packet>, failAt: Option<nat>)
    requires BatchResult(erasable, packets, failAt) != Stored
    ensures AfterBatch(s, erasable, packets, failAt) == s <==>
            !(BatchResult(erasable, packets, failAt).InsertFailed? && !(NamesOf(packets[..failAt.value]) !! s.Keys))
  {
    if BatchResult(erasable, packets, failAt).InsertFailed? {
      EraseUndoesInsert(s, packets[..failAt.value]);
    }
  }

  /** A failed batch that loses data: the store held a packet under the first name of the batch. */
  lemma RollbackLosesOlderPacket()
    ensures var name := Foreign(1);
      var older, newer, other := Packet(name, 9, [1]), Packet(name, 9, [2]), Packet(Foreign(2), 9, []);
      AfterBatch(map[name := older], true, [newer, other], Some(1)) == map[]
  {
    var name := Foreign(1);
    var older, newer, other := Packet(name, 9, [1]), Packet(name, 9, [2]), Packet(Foreign(2), 9, []);
    assert [newer, other][..1] == [newer] && [newer][..0] == [];
    assert AddAll(map[name := older], [newer]) == map[name := newer];
    assert name in NamesOf([newer]);
  }

  class Storage {
    var contents: Store
    const erasable: bool

    constructor (erasable: bool)
      ensures contents == map[] && this.erasable == erasable
    {
      this.erasable := erasable;
      contents := map[];
    }

    method Insert(p: Packet)
      modifies this
      ensures contents == old(contents)[p.name := p]
    {
      contents := contents[p.name := p];
    }

    method Erase(n: PacketName)
      modifies this
      ensures contents == old(contents) - {n}
    {
      contents := contents - {n};
    }

    /** Erases back to front. */
    method EraseAll(packets: seq<Packet>)
      modifies this
      ensures contents == old(contents) - NamesOf(packets)
    {
      for i := |packets| downto 0
        invariant contents == old(contents) - NamesOf(packets[i..])
      {
        Erase(packets[i].name);
        assert packets[i..] == [packets[i]] + packets[i + 1..];
        assert NamesOf(packets[i..]) == {packets[i].name} + NamesOf(packets[i + 1..]);
      }
      assert packets[0..] == packets;
    }

    method InsertPreparedDataBatch(packets: seq<Packet>, failAt: Option<nat>) returns (r: BatchOutcome)
      modifies this
      ensures r == BatchResult(erasable, packets, failAt)
      ensures contents == AfterBatch(old(contents), erasable, packets, failAt)
    {
      if packets != [] && !erasable { return EraseUnsupported; }
      for i := 0 to |packets|
        invariant forall j :: 0 <= j < i ==> packets[j].wireSize <= MAX_NDN_PACKET_SIZE
      {
        if packets[i].wireSize > MAX_NDN_PACKET_SIZE { return PacketTooLarge; }
      }
      var inserted: seq<Packet> := [];
      for i := 0 to |packets|
        invariant inserted == packets[..i]
        invariant failAt.Some? ==> i <= failAt.value
        invariant contents == AddAll(old(contents), inserted)
      {
        if failAt == Some(i) {
          EraseAll(inserted);
          return InsertFailed;
        }
        Insert(packets[i]);
        assert packets[..i + 1][..i] == packets[..i];
        inserted := inserted + [packets[i]];
      }
      assert packets[..|packets|] == packets;
      r := Stored;
    }

    /** Reports failure only for a non-empty batch on a store that cannot erase. */
    method RemovePreparedDataBatch(packets: seq<Packet>) returns (ok: bool)
      modifies this
      ensures ok == (packets == [] || erasable)
      ensures contents == if ok then old(contents) - NamesOf(packets) else old(contents)
    {
      if packets != [] && !erasable { return false; }
      EraseAll(packets);
      return true;
    }
  }
}
