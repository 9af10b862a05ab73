/**
 * The asynchronous publication pipeline of one local prefix (svspubsub.cpp): reserve, prepare,
 * store, stage, deliver, ordered commit with retries, shutdown. One step per critical section, so
 * that publishers may interleave with the commit loop of the Face thread.
 */
module AsyncPublish {
  import opened Names
  import opened DataStore
  import opened Runs

  /** What preparing a publication yields before it has a number: sizes and contents of its packets. */
  datatype Piece = Piece(wireSize: nat, body: seq<byte>)
  datatype Shape = NameOnly | Single(piece: Piece) | Segmented(pieces: seq<Piece>)

  datatype Publication = Publication(
    seqNo: nat, packets: seq<Packet>, stored: bool, attempts: nat, retryScheduled: bool)

  /** Where the commit loop of the Face thread stands. */
  datatype Phase = Idle | Taken(pub: Publication) | Committed(pub: Publication)

  datatype Pipeline = Pipeline(
    coreSeq: nat, reserved: nat, next: Option<nat>,
    staged: map<nat, seq<Packet>>, posted: map<nat, Publication>, prepared: map<nat, Publication>,
    phase: Phase, store: Store, erasable: bool, alive: bool,
    firstSeq: nat, firstStore: Store, committed: map<nat, seq<Packet>>, log: seq<nat>)

  /** Faults the environment may inject into one commit attempt. */
  datatype Faults = Faults(hookFails: bool, failAt: Option<nat>, mappingFails: bool)

  const NO_FAULTS := Faults(false, None, false)

  datatype Event =
    | Publish(shape: Option<Shape>, failAt: Option<nat>)   // None: preparation throws
    | Deliver(seqNo: nat)                                  // onPreparedPublication up to the commit loop
    | Take                                                 // commit loop picks the head
    | Commit(faults: Faults)                               // commitPreparedPublication and updateSeqNo
    | Advance                                              // commit loop moves on
    | RetryTimer(seqNo: nat)
    | Shutdown

  ghost predicate SameOrigin(p: Pipeline, q: Pipeline) {
    p.firstSeq == q.firstSeq && p.firstStore == q.firstStore
  }

  function PacketsFor(seqNo: nat, shape: Shape): seq<Packet> {
    match shape
    case NameOnly => []
    case Single(piece) => [Packet(Own(seqNo, None), piece.wireSize, piece.body)]
    case Segmented(pieces) =>
      seq(|pieces|, i requires 0 <= i < |pieces| => Packet(Own(seqNo, Some(i)), pieces[i].wireSize, pieces[i].body))
  }

  /** Stage the packets of the next number; its closure is posted to the Face thread. */
  ghost function Stage(p: Pipeline, packets: seq<Packet>): Pipeline {
    var seqNo := Max(p.reserved, p.coreSeq) + 1;
    p.(store := AddAll(p.store, packets),
       reserved := seqNo,
       next := if p.next.None? then Some(seqNo) else p.next,
       staged := p.staged[seqNo := packets],
       posted := p.posted[seqNo := Publication(seqNo, packets, packets != [], 0, false)])
  }

  /** A failing preparation or insertion throws before the number is consumed. */
  ghost function DoPublish(p: Pipeline, shape: Option<Shape>, failAt: Option<nat>): (q: Pipeline)
    ensures SameOrigin(p, q)
  {
    var reserved := Max(p.reserved, p.coreSeq);
    if shape.None? then p.(reserved := reserved)
    else
      var packets := PacketsFor(reserved + 1, shape.value);
      if BatchResult(p.erasable, packets, failAt) == Stored then Stage(p, packets)
      else p.(reserved := reserved, store := AfterBatch(p.store, p.erasable, packets, failAt))
  }

  ghost function DoDeliver(p: Pipeline, seqNo: nat): (q: Pipeline)
    ensures SameOrigin(p, q)
  {
    if p.phase.Idle? && seqNo in p.posted then
      p.(posted := p.posted - {seqNo}, staged := p.staged - {seqNo}, prepared := p.prepared[seqNo := p.posted[seqNo]])
    else p
  }

  ghost predicate HeadReady(p: Pipeline) {
    p.next.Some? && p.next.value in p.prepared && !p.prepared[p.next.value].retryScheduled
  }

  ghost function DoTake(p: Pipeline): (q: Pipeline)
    ensures SameOrigin(p, q) && q.alive == p.alive
  {
    if p.phase.Idle? && HeadReady(p) then
      p.(phase := Taken(p.prepared[p.next.value]), prepared := p.prepared - {p.next.value})
    else p
  }

  ghost function Requeue(p: Pipeline, pub: Publication): (q: Pipeline)
    ensures SameOrigin(p, q) && q.alive == p.alive && q.next == p.next && q.coreSeq == p.coreSeq && q.phase.Idle?
    ensures pub.seqNo in q.prepared && q.prepared[pub.seqNo].retryScheduled
  {
    p.(phase := Idle, prepared := p.prepared[pub.seqNo := pub.(attempts := pub.attempts + 1, retryScheduled := true)])
  }

  ghost function Advertise(p: Pipeline, pub: Publication): Pipeline {
    p.(phase := Committed(pub), coreSeq := pub.seqNo,
       committed := p.committed[pub.seqNo := pub.packets], log := p.log + [pub.seqNo])
  }

  /** The head's packets go into the store unless they are there already. */
  ghost function StoreHead(p: Pipeline): (q: Pipeline)
    requires p.phase.Taken?
    ensures SameOrigin(p, q) && q.alive == p.alive && q.next == p.next && q.coreSeq == p.coreSeq
    ensures q.phase.Taken? && q.phase.pub.seqNo == p.phase.pub.seqNo && q.phase.pub.packets == p.phase.pub.packets
  {
    var pub := p.phase.pub;
    if pub.stored then p
    else p.(store := AddAll(p.store, pub.packets), phase := Taken(pub.(stored := pub.packets != [])))
  }

  ghost function RollBack(p: Pipeline, pub: Publication): (q: Pipeline)
    ensures SameOrigin(p, q) && q.alive == p.alive && q.next == p.next && q.coreSeq == p.coreSeq && q.phase.Idle?
    ensures pub.seqNo in q.prepared && q.prepared[pub.seqNo].retryScheduled
  {
    if pub.packets != [] && !p.erasable then Requeue(p, pub)
    else Requeue(p.(store := p.store - NamesOf(pub.packets)), pub.(stored := false))
  }

  /** A failure after storing takes the packets out again; a store that cannot erase keeps them. */
  ghost function FinishCommit(p: Pipeline, faults: Faults): Pipeline
    requires p.phase.Taken?
  {
    var pub := p.phase.pub;
    if !faults.mappingFails then Advertise(p, pub)
    else if !pub.stored then Requeue(p, pub)
    else RollBack(p, pub)
  }

  lemma FinishCommitFacts(p: Pipeline, faults: Faults)
    requires p.phase.Taken?
    ensures var q, s := FinishCommit(p, faults), p.phase.pub.seqNo;
      && SameOrigin(p, q) && q.alive == p.alive && q.next == p.next && (q.phase.Committed? <==> !faults.mappingFails)
      && q.coreSeq == (if q.phase.Committed? then s else p.coreSeq)
      && if q.phase.Committed? then q.phase.pub.seqNo == s else s in q.prepared && q.prepared[s].retryScheduled
  {
    hide RollBack, Requeue;
  }

  ghost function DoCommit(p: Pipeline, faults: Faults): Pipeline {
    if !p.phase.Taken? then p
    else
      var pub := p.phase.pub;
      if faults.hookFails then Requeue(p, pub)
      else if !pub.stored && BatchResult(p.erasable, pub.packets, faults.failAt) != Stored then
        Requeue(p.(store := AfterBatch(p.store, p.erasable, pub.packets, faults.failAt)), pub)
      else FinishCommit(StoreHead(p), faults)
  }

  lemma DoCommitFacts(p: Pipeline, faults: Faults)
    ensures var q := DoCommit(p, faults);
            && SameOrigin(p, q) && q.alive == p.alive && q.next == p.next
            && (!p.phase.Taken? ==> q == p)
            && (p.phase.Taken? && q.phase.Committed? ==>
                  q.coreSeq == p.phase.pub.seqNo && q.phase.pub.seqNo == p.phase.pub.seqNo)
            && (p.phase.Taken? && !q.phase.Committed? ==>
                  q.coreSeq == p.coreSeq && p.phase.pub.seqNo in q.prepared
                      && q.prepared[p.phase.pub.seqNo].retryScheduled)
  {
    hide StoreHead, FinishCommit, AfterBatch, BatchResult, Requeue;
    if p.phase.Taken? { FinishCommitFacts(StoreHead(p), faults); }
  }

  ghost function DoAdvance(p: Pipeline): (q: Pipeline)
    ensures SameOrigin(p, q)
  {
    if !p.phase.Committed? then p
    else p.(phase := Idle, next := if p.next == Some(p.phase.pub.seqNo) then Some(p.next.value + 1) else p.next)
  }

  ghost function DoRetry(p: Pipeline, seqNo: nat): (q: Pipeline)
    ensures SameOrigin(p, q)
  {
    if p.phase.Idle? && seqNo in p.prepared then
      p.(prepared := p.prepared[seqNo := p.prepared[seqNo].(retryScheduled := false)])
    else p
  }

  ghost function Unadvertised(p: Pipeline): set<PacketName> {
    (set s, q | s in p.staged && q in p.staged[s] :: q.name) +
    (set s, q | s in p.prepared && p.prepared[s].stored && q in p.prepared[s].packets :: q.name)
  }

  ghost function DoShutdown(p: Pipeline): (q: Pipeline)
    ensures SameOrigin(p, q)
  {
    if !p.phase.Idle? then p
    else p.(alive := false, staged := map[], prepared := map[],
            store := if p.erasable then p.store - Unadvertised(p) else p.store)
  }

  ghost function Step(p: Pipeline, e: Event): Pipeline {
    if !p.alive then p
    else match e
      case Publish(shape, failAt) => DoPublish(p, shape, failAt)
      case Deliver(seqNo) => DoDeliver(p, seqNo)
      case Take => DoTake(p)
      case Commit(faults) => DoCommit(p, faults)
      case Advance => DoAdvance(p)
      case RetryTimer(seqNo) => DoRetry(p, seqNo)
      case Shutdown => DoShutdown(p)
  }

  // ---------- numbers ----------

  ghost predicate PubOk(p: Pipeline, s: nat, pub: Publication) {
    && pub.seqNo == s
    && (forall q :: q in pub.packets ==> q.name.Own? && q.name.seqNo == s)
    && AllFit(pub.packets)
    && (pub.packets != [] ==> p.erasable)
    && (pub.stored ==> pub.packets != [])
  }

  ghost predicate InHand(p: Pipeline, s: nat) {
    p.phase.Taken? && p.phase.pub.seqNo == s
  }

  /** A number is staged, prepared or in the hands of the commit loop, never in two of these at once. */
  ghost predicate OnePlace(p: Pipeline, s: nat) {
    && !(s in p.staged && s in p.prepared)
    && !(InHand(p, s) && (s in p.staged || s in p.prepared))
    && (s in p.staged || s in p.prepared || InHand(p, s) <==> p.coreSeq < s <= p.reserved)
  }

  /** The numbers reserved but not yet advertised are split between the three places. */
  ghost predicate NumbersPartitioned(p: Pipeline) {
    forall s :: OnePlace(p, s)
  }

  ghost predicate NextIsHead(p: Pipeline) {
    match p.next
    case None => p.reserved <= p.coreSeq && p.phase.Idle?
    case Some(n) =>
      && p.coreSeq <= p.reserved
      && n == (if p.phase.Committed? then p.coreSeq else p.coreSeq + 1)
      && (p.phase.Taken? || p.phase.Committed? ==> p.phase.pub.seqNo == n)
  }

  ghost predicate PublicationsOk(p: Pipeline) {
    && p.posted.Keys == p.staged.Keys
    && (forall s :: s in p.posted ==>
        PubOk(p, s, p.posted[s]) && p.posted[s].packets == p.staged[s] && p.posted[s].stored == (p.staged[s] != [])
        && !p.posted[s].retryScheduled)
    && (forall s :: s in p.prepared ==> PubOk(p, s, p.prepared[s]))
    && (p.phase.Taken? ==> PubOk(p, p.phase.pub.seqNo, p.phase.pub))
  }

  ghost predicate LogInOrder(p: Pipeline) {
    && p.firstSeq <= p.coreSeq && |p.log| == p.coreSeq - p.firstSeq
    && (forall i :: 0 <= i < |p.log| ==> p.log[i] == p.firstSeq + 1 + i)
    && (forall s :: s in p.committed <==> p.firstSeq < s <= p.coreSeq)
  }

  ghost predicate Ordered(p: Pipeline) {
    NumbersPartitioned(p) && NextIsHead(p) && PublicationsOk(p)
  }

  /** After shutdown nothing is left on its way. */
  ghost predicate Emptied(p: Pipeline) {
    p.staged == map[] && p.prepared == map[] && p.phase.Idle?
  }

  // ---------- the store ----------

  /** The packets publication number s accounts for in the store. */
  ghost function Held(p: Pipeline, s: nat): seq<Packet> {
    if s in p.staged then p.staged[s]
    else if s in p.prepared then if p.prepared[s].stored then p.prepared[s].packets else []
    else if p.phase.Taken? && p.phase.pub.seqNo == s then if p.phase.pub.stored then p.phase.pub.packets else []
    else if s in p.committed then p.committed[s]
    else []
  }

  /** Initial contents, plus the packets of staged, prepared-and-stored and committed publications. */
  ghost function Expected(p: Pipeline, n: PacketName): Option<Packet> {
    if n.Own? && n.seqNo > p.firstSeq then Find(Held(p, n.seqNo), n) else Lookup(p.firstStore, n)
  }

  ghost predicate StoreConserved(p: Pipeline) {
    forall n :: Lookup(p.store, n) == Expected(p, n)
  }

  ghost predicate Invariant(p: Pipeline) {
    (if p.alive then Ordered(p) else Emptied(p)) && LogInOrder(p) && StoreConserved(p)
  }

  // ---------- start ----------

  ghost function Initial(coreSeq: nat, store: Store, erasable: bool): Pipeline {
    Pipeline(coreSeq, 0, None, map[], map[], map[], Idle, store, erasable, true, coreSeq, store, map[], [])
  }

  lemma InitialHolds(coreSeq: nat, store: Store, erasable: bool)
    requires forall n :: n in store && n.Own? ==> n.seqNo <= coreSeq
    ensures Invariant(Initial(coreSeq, store, erasable))
  {
  }

  // ---------- every step keeps the invariant ----------

  lemma FreshNames(p: Pipeline, s: nat, packets: seq<Packet>)
    requires StoreConserved(p) && s > p.firstSeq && Held(p, s) == []
    requires forall q :: q in packets ==> q.name.Own? && q.name.seqNo == s
    ensures NamesOf(packets) !! p.store.Keys
  {
    forall n | n in NamesOf(packets) ensures n !in p.store {
      assert Lookup(p.store, n) == Expected(p, n);
    }
  }

  /** Changing what one number accounts for, together with its packets in the store. */
  lemma StoreStep(p: Pipeline, q: Pipeline, s: nat, packets: seq<Packet>)
    requires StoreConserved(p) && q.firstSeq == p.firstSeq < s && q.firstStore == p.firstStore
    requires forall r :: r in packets ==> r.name.Own? && r.name.seqNo == s
    requires forall s' :: s' != s ==> Held(q, s') == Held(p, s')
    requires || (q.store == p.store && Held(q, s) == Held(p, s))
             || (q.store == AddAll(p.store, packets) && Held(p, s) == [] && Held(q, s) == packets)
             || (q.store == p.store - NamesOf(packets) && Held(p, s) == packets && Held(q, s) == [])
    ensures StoreConserved(q)
  {
    forall n ensures Lookup(q.store, n) == Expected(q, n) {
      assert Lookup(p.store, n) == Expected(p, n);
      AddAllLookup(p.store, packets, n);
    }
  }

  lemma StageKeepsNumbers(p: Pipeline, packets: seq<Packet>)
    requires NumbersPartitioned(p) && NextIsHead(p)
    ensures NumbersPartitioned(Stage(p, packets)) && NextIsHead(Stage(p, packets))
  {
    hide AddAll;
    var q := Stage(p, packets);
    assert OnePlace(p, q.reserved);
    forall s ensures OnePlace(q, s) { assert OnePlace(p, s); }
  }

  lemma StageKeepsPublications(p: Pipeline, packets: seq<Packet>)
    requires PublicationsOk(p)
    requires forall q :: q in packets ==> q.name.Own? && q.name.seqNo == Max(p.reserved, p.coreSeq) + 1
    requires AllFit(packets) && (packets != [] ==> p.erasable)
    ensures PublicationsOk(Stage(p, packets))
  {
    hide AddAll, AllFit;
    var q := Stage(p, packets);
    assert PubOk(q, q.reserved, q.posted[q.reserved]);
    forall s | s in q.posted
      ensures PubOk(q, s, q.posted[s]) && q.posted[s].packets == q.staged[s]
      ensures q.posted[s].stored == (q.staged[s] != []) && !q.posted[s].retryScheduled
    {
      if s != q.reserved { assert PubOk(p, s, p.posted[s]); }
    }
    forall s | s in q.prepared ensures PubOk(q, s, q.prepared[s]) { assert PubOk(p, s, p.prepared[s]); }
  }

  lemma HeadPlace(p: Pipeline, s: nat)
    requires NumbersPartitioned(p)
    ensures OnePlace(p, s)
  {
  }

  /** A publication that is accepted. */
  lemma StageKeeps(p: Pipeline, packets: seq<Packet>)
    requires Invariant(p) && p.alive
    requires forall q :: q in packets ==> q.name.Own? && q.name.seqNo == Max(p.reserved, p.coreSeq) + 1
    requires AllFit(packets) && (packets != [] ==> p.erasable)
    ensures Invariant(Stage(p, packets))
  {
    hide StoreConserved, AddAll, PublicationsOk, NextIsHead, NumbersPartitioned, AllFit;
    StageKeepsNumbers(p, packets);
    StageKeepsPublications(p, packets);
    var q := Stage(p, packets);
    HeadPlace(p, q.reserved);
    forall s: nat | s != q.reserved ensures Held(q, s) == Held(p, s) { }
    StoreStep(p, q, q.reserved, packets);
  }

  lemma ReserveKeeps(p: Pipeline)
    requires Invariant(p) && p.alive
    ensures Invariant(p.(reserved := Max(p.reserved, p.coreSeq)))
  {
    var r := p.(reserved := Max(p.reserved, p.coreSeq));
    forall s ensures OnePlace(r, s) { assert OnePlace(p, s); assert InHand(r, s) <==> InHand(p, s); }
    forall s: nat ensures Held(r, s) == Held(p, s) { }
    StoreStep(p, r, p.firstSeq + 1, []);
  }

  predicate Rejected(p: Pipeline, shape: Option<Shape>, failAt: Option<nat>) {
    shape.None? || BatchResult(p.erasable, PacketsFor(Max(p.reserved, p.coreSeq) + 1, shape.value), failAt) != Stored
  }

  /** A failed preparation or insertion consumes no number and leaves the store alone. */
  lemma FailedPublishConsumesNothing(p: Pipeline, shape: Option<Shape>, failAt: Option<nat>)
    requires Invariant(p) && p.alive && Rejected(p, shape, failAt)
    ensures DoPublish(p, shape, failAt) == p.(reserved := Max(p.reserved, p.coreSeq))
    ensures p.next.Some? ==> DoPublish(p, shape, failAt) == p
  {
    if shape.Some? {
      RejectedBatchChangesNothing(p, PacketsFor(Max(p.reserved, p.coreSeq) + 1, shape.value), failAt);
    }
    hide AfterBatch, BatchResult, PacketsFor, NumbersPartitioned, PublicationsOk, LogInOrder, StoreConserved;
  }

  lemma RejectedBatchChangesNothing(p: Pipeline, packets: seq<Packet>, failAt: Option<nat>)
    requires Invariant(p) && p.alive && BatchResult(p.erasable, packets, failAt) != Stored
    requires forall q :: q in packets ==> q.name.Own? && q.name.seqNo == Max(p.reserved, p.coreSeq) + 1
    ensures AfterBatch(p.store, p.erasable, packets, failAt) == p.store
  {
    hide AfterBatch, AddAll, PublicationsOk, StoreConserved;
    var seqNo := Max(p.reserved, p.coreSeq) + 1;
    assert OnePlace(p, seqNo) && Held(p, seqNo) == [];
    if BatchResult(p.erasable, packets, failAt).InsertFailed? { FreshNames(p, seqNo, packets[..failAt.value]); }
    FailedBatchChangesNothing(p.store, p.erasable, packets, failAt);
  }

  lemma PublishKeeps(p: Pipeline, shape: Option<Shape>, failAt: Option<nat>)
    requires Invariant(p) && p.alive
    ensures Invariant(DoPublish(p, shape, failAt))
  {
    if Rejected(p, shape, failAt) {
      FailedPublishConsumesNothing(p, shape, failAt);
      ReserveKeeps(p);
    } else {
      StageKeeps(p, PacketsFor(Max(p.reserved, p.coreSeq) + 1, shape.value));
    }
  }

  lemma DeliverKeeps(p: Pipeline, seqNo: nat)
    requires Invariant(p) && p.alive
    ensures Invariant(DoDeliver(p, seqNo))
  {
    if p.phase.Idle? && seqNo in p.posted {
      var q := DoDeliver(p, seqNo);
      forall s ensures OnePlace(q, s) { assert OnePlace(p, s); }
      assert OnePlace(p, seqNo);
      forall s: nat ensures Held(q, s) == Held(p, s) { }
      StoreStep(p, q, seqNo, []);
    }
  }

  lemma TakeKeeps(p: Pipeline)
    requires Invariant(p) && p.alive
    ensures Invariant(DoTake(p))
  {
    if p.phase.Idle? && HeadReady(p) {
      var q := DoTake(p);
      assert OnePlace(p, p.next.value);
      forall s ensures OnePlace(q, s) { assert OnePlace(p, s); }
      forall s: nat ensures Held(q, s) == Held(p, s) { assert OnePlace(p, s); }
      StoreStep(p, q, p.next.value, []);
    }
  }

  lemma RequeueKeeps(p: Pipeline, pub: Publication, store: Store)
    requires Invariant(p) && p.alive && p.phase.Taken? && PubOk(p, pub.seqNo, pub) && pub.seqNo == p.phase.pub.seqNo
    requires pub.packets == p.phase.pub.packets
    requires || (store == p.store && pub.stored == p.phase.pub.stored)
             || (store == p.store - NamesOf(pub.packets) && p.phase.pub.stored && !pub.stored)
    ensures Invariant(Requeue(p.(store := store), pub))
  {
    var q := Requeue(p.(store := store), pub);
    assert InHand(p, pub.seqNo) && OnePlace(p, pub.seqNo);
    forall s ensures OnePlace(q, s) { assert OnePlace(p, s); }
    forall s: nat | s != pub.seqNo ensures Held(q, s) == Held(p, s) { }
    StoreStep(p, q, pub.seqNo, pub.packets);
  }

  lemma InsertKeeps(p: Pipeline)
    requires Invariant(p) && p.alive && p.phase.Taken? && !p.phase.pub.stored && p.phase.pub.packets != []
    ensures var pub := p.phase.pub;
            Invariant(p.(store := AddAll(p.store, pub.packets), phase := Taken(pub.(stored := true))))
  {
    var pub := p.phase.pub;
    var q := p.(store := AddAll(p.store, pub.packets), phase := Taken(pub.(stored := true)));
    assert InHand(p, pub.seqNo) && OnePlace(p, pub.seqNo);
    forall s ensures OnePlace(q, s) { assert OnePlace(p, s); assert InHand(q, s) <==> InHand(p, s); }
    forall s: nat | s != pub.seqNo ensures Held(q, s) == Held(p, s) { }
    StoreStep(p, q, pub.seqNo, pub.packets);
  }

  lemma SucceedKeeps(p: Pipeline)
    requires Invariant(p) && p.alive && p.phase.Taken? && (p.phase.pub.packets != [] ==> p.phase.pub.stored)
    ensures Invariant(Advertise(p, p.phase.pub))
  {
    var pub := p.phase.pub;
    var q := Advertise(p, pub);
    assert InHand(p, pub.seqNo) && OnePlace(p, pub.seqNo);
    forall s ensures OnePlace(q, s) { assert OnePlace(p, s); }
    forall s: nat ensures Held(q, s) == Held(p, s) { assert OnePlace(p, s); }
    StoreStep(p, q, pub.seqNo, []);
  }

  lemma StoreHeadKeeps(p: Pipeline)
    requires Invariant(p) && p.alive && p.phase.Taken?
    ensures var q := StoreHead(p); Invariant(q) && q.alive && (q.phase.pub.packets != [] ==> q.phase.pub.stored)
  {
    if !p.phase.pub.stored && p.phase.pub.packets != [] { InsertKeeps(p); }
    assert AddAll(p.store, []) == p.store;
  }

  lemma FailedStoreKeeps(p: Pipeline, failAt: Option<nat>)
    requires Invariant(p) && p.alive && p.phase.Taken? && !p.phase.pub.stored
    requires BatchResult(p.erasable, p.phase.pub.packets, failAt) != Stored
    ensures AfterBatch(p.store, p.erasable, p.phase.pub.packets, failAt) == p.store
  {
    var pub := p.phase.pub;
    assert InHand(p, pub.seqNo) && OnePlace(p, pub.seqNo);
    assert Held(p, pub.seqNo) == [];
    if BatchResult(p.erasable, pub.packets, failAt).InsertFailed? {
      FreshNames(p, pub.seqNo, pub.packets[..failAt.value]);
    }
    FailedBatchChangesNothing(p.store, p.erasable, pub.packets, failAt);
  }

  lemma CommitKeeps(p: Pipeline, faults: Faults)
    requires Invariant(p) && p.alive
    ensures Invariant(DoCommit(p, faults))
  {
    hide FinishCommit, StoreHead, AfterBatch, BatchResult, StoreConserved, NumbersPartitioned;
    if p.phase.Taken? {
      var pub := p.phase.pub;
      if faults.hookFails {
        RequeueKeeps(p, pub, p.store);
        assert p.(store := p.store) == p;
      } else if !pub.stored && BatchResult(p.erasable, pub.packets, faults.failAt) != Stored {
        FailedStoreKeeps(p, faults.failAt);
        RequeueKeeps(p, pub, p.store);
      } else {
        StoreHeadKeeps(p);
        FinishKeeps(StoreHead(p), faults);
      }
    }
  }

  /** The part of a commit after its packets are in the store. */
  lemma FinishKeeps(p: Pipeline, faults: Faults)
    requires Invariant(p) && p.alive && p.phase.Taken? && (p.phase.pub.packets != [] ==> p.phase.pub.stored)
    ensures Invariant(FinishCommit(p, faults))
  {
    var pub := p.phase.pub;
    if !faults.mappingFails {
      SucceedKeeps(p);
    } else if pub.stored {
      RequeueKeeps(p, pub.(stored := false), p.store - NamesOf(pub.packets));
    } else {
      RequeueKeeps(p, pub, p.store);
      assert p.(store := p.store) == p;
    }
  }

  lemma AdvanceKeeps(p: Pipeline)
    requires Invariant(p) && p.alive
    ensures Invariant(DoAdvance(p))
  {
    if p.phase.Committed? {
      var q := DoAdvance(p);
      forall s ensures OnePlace(q, s) { assert OnePlace(p, s); }
      forall s: nat ensures Held(q, s) == Held(p, s) { }
      StoreStep(p, q, p.firstSeq + 1, []);
    }
  }

  lemma RetryKeeps(p: Pipeline, seqNo: nat)
    requires Invariant(p) && p.alive
    ensures Invariant(DoRetry(p, seqNo))
  {
    if p.phase.Idle? && seqNo in p.prepared {
      var q := DoRetry(p, seqNo);
      forall s ensures OnePlace(q, s) { assert OnePlace(p, s); }
      forall s: nat ensures Held(q, s) == Held(p, s) { }
      assert OnePlace(p, seqNo);
      StoreStep(p, q, seqNo, []);
    }
  }

  lemma ShutdownKeeps(p: Pipeline)
    requires Invariant(p) && p.alive
    ensures Invariant(DoShutdown(p))
  {
    if p.phase.Idle? {
      var q := DoShutdown(p);
      forall n ensures Lookup(q.store, n) == Expected(q, n) {
        assert Lookup(p.store, n) == Expected(p, n);
        ReclaimOne(p, n);
      }
    }
  }

  /** Shutdown erases exactly the names staged or prepared-and-stored publications account for. */
  lemma ReclaimOne(p: Pipeline, n: PacketName)
    requires Invariant(p) && p.alive && p.phase.Idle?
    ensures n in Unadvertised(p) ==> n.Own? && p.erasable && (n.seqNo in p.staged || n.seqNo in p.prepared)
    ensures n.Own? && (n.seqNo in p.staged || n.seqNo in p.prepared) ==>
              p.firstSeq < n.seqNo && n.seqNo !in p.committed &&
              (n in Unadvertised(p) <==> Find(Held(p, n.seqNo), n).Some?) && (Held(p, n.seqNo) != [] ==> p.erasable)
  {
    if n in Unadvertised(p) {
      if s, q :| s in p.staged && q in p.staged[s] && q.name == n {
        assert PubOk(p, s, p.posted[s]);
      } else {
        var s, q :| s in p.prepared && p.prepared[s].stored && q in p.prepared[s].packets && q.name == n;
        assert PubOk(p, s, p.prepared[s]);
      }
    }
    if n.Own? && (n.seqNo in p.staged || n.seqNo in p.prepared) {
      assert OnePlace(p, n.seqNo);
      AddAllLookup(map[], Held(p, n.seqNo), n);
      if n.seqNo in p.staged { assert PubOk(p, n.seqNo, p.posted[n.seqNo]); }
      else { assert PubOk(p, n.seqNo, p.prepared[n.seqNo]); }
    }
  }

  lemma StepKeeps(p: Pipeline, e: Event)
    requires Invariant(p)
    ensures Invariant(Step(p, e))
  {
    hide Invariant, DoPublish, DoDeliver, DoTake, DoCommit, DoAdvance, DoRetry, DoShutdown;
    assert p.alive || Step(p, e) == p;
    if p.alive {
      match e
      case Publish(shape, failAt) => PublishKeeps(p, shape, failAt);
      case Deliver(seqNo) => DeliverKeeps(p, seqNo);
      case Take => TakeKeeps(p);
      case Commit(faults) => CommitKeeps(p, faults);
      case Advance => AdvanceKeeps(p);
      case RetryTimer(seqNo) => RetryKeeps(p, seqNo);
      case Shutdown => ShutdownKeeps(p);
    }
  }
}
