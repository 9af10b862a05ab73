/**
 * What the asynchronous pipeline gets done: accepted publications are stored piece by piece, retried heads
 * commit, everything reserved can be advertised, and what is advertised is what was published.
 */
module AsyncProgress {
  import opened Names
  import opened DataStore
  import opened Runs
  import opened AsyncPublish
  import opened AsyncRuns

  // ---------- one commit attempt ----------

  /** An attempt succeeds exactly when none of the faults strikes; packets stored earlier are not stored again. */
  lemma CommitSucceedsExactly(p: Pipeline, faults: Faults)
    requires Invariant(p) && p.alive && p.phase.Taken?
    ensures var pub := p.phase.pub;
      DoCommit(p, faults).phase.Committed? <==>
        && !faults.hookFails && !faults.mappingFails
        && (pub.stored || faults.failAt.None? || faults.failAt.value >= |pub.packets|)
  {
    hide NumbersPartitioned, StoreConserved, LogInOrder;
    assert PubOk(p, p.phase.pub.seqNo, p.phase.pub);
  }

  /** A successful one advertises the head, with the packets it was published with, and touches no other. */
  lemma SucceededCommitIs(p: Pipeline, faults: Faults)
    requires p.phase.Taken? && DoCommit(p, faults).phase.Committed?
    ensures var q, pub := DoCommit(p, faults), p.phase.pub;
      && q.phase.pub.seqNo == pub.seqNo && q.coreSeq == pub.seqNo
      && q.log == p.log + [pub.seqNo] && q.committed == p.committed[pub.seqNo := pub.packets]
      && q == p.(phase := q.phase, coreSeq := q.coreSeq, log := q.log, committed := q.committed, store := q.store)
  {
    hide AfterBatch, BatchResult, AddAll, Requeue, RollBack;
  }

  /** A failed attempt changes nothing but the store and the place and flags of the head. */
  lemma FailedCommitIs(p: Pipeline, faults: Faults) returns (store: Store, stored: bool)
    requires p.phase.Taken? && !DoCommit(p, faults).phase.Committed?
    ensures DoCommit(p, faults) == Requeue(p.(store := store), p.phase.pub.(stored := stored))
  {
    hide AfterBatch, BatchResult, AddAll, StoreHead, FinishCommit, Requeue;
    var pub := p.phase.pub;
    if faults.hookFails {
      store, stored := p.store, pub.stored;
      assert p.(store := store) == p && pub.(stored := stored) == pub;
    } else if !pub.stored && BatchResult(p.erasable, pub.packets, faults.failAt) != Stored {
      store, stored := AfterBatch(p.store, p.erasable, pub.packets, faults.failAt), pub.stored;
      assert pub.(stored := stored) == pub;
    } else {
      store, stored := FailedAfterStoring(p, faults);
    }
  }

  lemma FailedAfterStoring(p: Pipeline, faults: Faults) returns (store: Store, stored: bool)
    requires p.phase.Taken? && !FinishCommit(StoreHead(p), faults).phase.Committed?
    ensures FinishCommit(StoreHead(p), faults) == Requeue(p.(store := store), p.phase.pub.(stored := stored))
  {
    FinishCommitFacts(StoreHead(p), faults);
    store, stored := FailedFinishIs(StoreHead(p), faults);
    hide FinishCommit, AddAll;
  }

  lemma FailedFinishIs(p: Pipeline, faults: Faults) returns (store: Store, stored: bool)
    requires p.phase.Taken? && faults.mappingFails
    ensures FinishCommit(p, faults) == Requeue(p.(store := store), p.phase.pub.(stored := stored))
  {
    var pub := p.phase.pub;
    if !pub.stored || (pub.packets != [] && !p.erasable) {
      store, stored := p.store, pub.stored;
    } else {
      store, stored := p.store - NamesOf(pub.packets), false;
    }
  }

  /** It puts the same publication back to wait for its timer, counts the attempt, and advertises nothing. */
  lemma FailedCommitRequeues(p: Pipeline, faults: Faults)
    requires p.phase.Taken? && !DoCommit(p, faults).phase.Committed?
    ensures var pub, q := p.phase.pub, DoCommit(p, faults);
      && q == p.(phase := Idle, store := q.store, prepared := q.prepared)
      && q.prepared.Keys == p.prepared.Keys + {pub.seqNo}
      && (forall s :: s in p.prepared && s != pub.seqNo ==> q.prepared[s] == p.prepared[s])
      && q.prepared[pub.seqNo].packets == pub.packets
      && q.prepared[pub.seqNo].attempts == pub.attempts + 1 && q.prepared[pub.seqNo].retryScheduled
  {
    hide DoCommit;
    var store, stored := FailedCommitIs(p, faults);
  }

  // ---------- retried heads commit ----------

  /** The retry timer of a head, and a round of the commit loop without faults. */
  function Retried(s: nat): seq<Event> { [RetryTimer(s)] + [Take, Commit(NO_FAULTS), Advance] }

  /** The head is prepared, waiting for its timer or not. */
  ghost predicate HeadPrepared(p: Pipeline) {
    p.alive && p.phase.Idle? && p.next == Some(p.coreSeq + 1) && p.coreSeq + 1 in p.prepared
  }

  lemma TakeIs(p: Pipeline)
    requires Invariant(p) && HeadPrepared(p) && HeadReady(p)
    ensures var s := p.coreSeq + 1;
      && DoTake(p) == p.(phase := Taken(p.prepared[s]), prepared := p.prepared - {s})
      && p.prepared[s].seqNo == s
  {
    hide NumbersPartitioned, StoreConserved, LogInOrder;
    assert PubOk(p, p.coreSeq + 1, p.prepared[p.coreSeq + 1]);
  }

  /** q is p after its head was advertised. */
  ghost predicate AdvertisesHead(p: Pipeline, q: Pipeline)
    requires p.coreSeq + 1 in p.prepared
  {
    var s := p.coreSeq + 1;
    && q.alive && q.phase.Idle? && q.coreSeq == s && q.log == p.log + [s] && q.next == Some(s + 1)
    && q.committed == p.committed[s := p.prepared[s].packets] && q.reserved == p.reserved && q.posted == p.posted
  }

  lemma RoundCommits(p: Pipeline)
    requires Invariant(p) && HeadPrepared(p) && HeadReady(p)
    ensures AdvertisesHead(p, RunFrom(p, [Take, Commit(NO_FAULTS), Advance]))
  {
    RoundIsRun(p, NO_FAULTS);
    TakeIs(p);
    TakeKeeps(p);
    hide Invariant, DoTake, DoCommit, Step, RunFrom;
    var t := DoTake(p);
    CommitRaisesByOne(t, NO_FAULTS);
    SucceededCommitIs(t, NO_FAULTS);
  }

  lemma TimerReadies(p: Pipeline)
    requires Invariant(p) && HeadPrepared(p)
    ensures var s := p.coreSeq + 1;
      var q := Step(p, RetryTimer(s));
      && HeadPrepared(q) && HeadReady(q) && q.prepared.Keys == p.prepared.Keys
      && q.prepared[s].packets == p.prepared[s].packets && q == p.(prepared := q.prepared)
  {
    hide NumbersPartitioned, StoreConserved, LogInOrder, PublicationsOk;
  }

  lemma RetriedCommits(p: Pipeline)
    requires Invariant(p) && HeadPrepared(p)
    ensures var q := RunFrom(p, Retried(p.coreSeq + 1)); Invariant(q) && AdvertisesHead(p, q)
  {
    var s := p.coreSeq + 1;
    hide Invariant, Step, HeadPrepared, HeadReady;
    RunKeeps(p, Retried(s));
    TimerReadies(p);
    StepKeeps(p, RetryTimer(s));
    RoundCommits(Step(p, RetryTimer(s)));
    Append(Step, p, [RetryTimer(s)], [Take, Commit(NO_FAULTS), Advance]);
    One(Step, p, RetryTimer(s));
  }

  /**
   * A head that failed any number of times is committed by its retry timer and one attempt without a fault:
   * its number is advertised and the one after it is next.
   */
  lemma RetryUnblocks(p: Pipeline, c: nat)
    requires Invariant(p) && HeadBlocked(p, c)
    ensures var q := RunFrom(p, [RetryTimer(c + 1), Take, Commit(NO_FAULTS), Advance]);
      && q.coreSeq == c + 1 && q.log == p.log + [c + 1] && q.next == Some(c + 2)
      && q.committed == p.committed[c + 1 := p.prepared[c + 1].packets]
  {
    hide Invariant;
    RetriedCommits(p);
    assert Retried(c + 1) == [RetryTimer(c + 1), Take, Commit(NO_FAULTS), Advance];
  }

  // ---------- everything reserved can be advertised ----------

  /** Deliver, retry and commit `count` publications, the first of them under the number `first`. */
  function CatchUp(first: nat, count: nat): seq<Event>
    decreases count
  {
    if count == 0 then [] else [Deliver(first)] + Retried(first) + CatchUp(first + 1, count - 1)
  }

  /** What lies between the core's number and the reserved one. */
  ghost predicate Behind(p: Pipeline, count: nat) {
    Invariant(p) && p.alive && p.phase.Idle? && p.next.Some? && p.reserved == p.coreSeq + count
  }

  lemma DeliveredHead(p: Pipeline, count: nat)
    requires Behind(p, count) && count > 0
    ensures var q := Step(p, Deliver(p.coreSeq + 1));
      && Invariant(q) && HeadPrepared(q) && q.coreSeq == p.coreSeq && q.reserved == p.reserved && q.log == p.log
  {
    var s := p.coreSeq + 1;
    StepKeeps(p, Deliver(s));
    assert OnePlace(p, s) && p.posted.Keys == p.staged.Keys;
    hide NumbersPartitioned, StoreConserved, LogInOrder, PublicationsOk;
  }

  lemma CatchUpOne(p: Pipeline, count: nat)
    requires Behind(p, count) && count > 0
    ensures var s := p.coreSeq + 1;
      var q := RunFrom(p, [Deliver(s)] + Retried(s));
      Behind(q, count - 1) && q.coreSeq == s && q.log == p.log + [s]
  {
    var s := p.coreSeq + 1;
    DeliveredHead(p, count);
    hide Invariant, Step, HeadPrepared;
    Append(Step, p, [Deliver(s)], Retried(s));
    One(Step, p, Deliver(s));
    RetriedCommits(Step(p, Deliver(s)));
  }

  /**
   * No publication is ever stuck: from every reachable state between two critical sections, delivering,
   * retrying and committing in order without further faults advertises every reserved number.
   */
  lemma {:induction false} EverythingCanBeCommitted(p: Pipeline, count: nat)
    requires Behind(p, count)
    ensures var q := RunFrom(p, CatchUp(p.coreSeq + 1, count));
      && Behind(q, 0) && q.coreSeq == p.reserved == q.reserved
      && q.log == p.log + seq(count, i => p.coreSeq + 1 + i)
    decreases count
  {
    hide Behind, Step;
    var s := p.coreSeq + 1;
    if count > 0 {
      var head := [Deliver(s)] + Retried(s);
      var q := RunFrom(p, head);
      CatchUpOne(p, count);
      EverythingCanBeCommitted(q, count - 1);
      Append(Step, p, head, CatchUp(s + 1, count - 1));
      assert BehindBy(p) == count && BehindBy(q) == count - 1 by { BehindIs(p, count); BehindIs(q, count - 1); }
      assert seq(count, i => s + i) == [s] + seq(count - 1, i => s + 1 + i);
    } else {
      BehindIs(p, 0);
    }
  }

  ghost function BehindBy(p: Pipeline): int { p.reserved - p.coreSeq }

  lemma BehindIs(p: Pipeline, count: nat)
    requires Behind(p, count)
    ensures BehindBy(p) == count
  {
  }

  // ---------- what is advertised is what was published ----------

  /** The store holds exactly the pieces of that shape under the number. */
  ghost predicate Serves(store: Store, s: nat, shape: Shape) {
    forall segment: Option<nat> :: Lookup(store, Own(s, segment)) ==
      match shape
      case NameOnly => None
      case Single(piece) => if segment.None? then Some(Packet(Own(s, None), piece.wireSize, piece.body)) else None
      case Segmented(pieces) =>
        if segment.Some? && segment.value < |pieces|
        then Some(Packet(Own(s, segment), pieces[segment.value].wireSize, pieces[segment.value].body)) else None
  }

  lemma HeldServes(store: Store, s: nat, shape: Shape)
    requires forall segment: Option<nat> ::
        Lookup(store, Own(s, segment)) == Find(PacketsFor(s, shape), Own(s, segment))
    ensures Serves(store, s, shape)
  {
    var packets := PacketsFor(s, shape);
    forall segment: Option<nat>
      ensures Find(packets, Own(s, segment)).Some? <==> exists q :: q in packets && q.name == Own(s, segment)
    {
      AddAllLookup(map[], packets, Own(s, segment));
    }
    forall segment: Option<nat> | Find(packets, Own(s, segment)).Some?
      ensures Find(packets, Own(s, segment)).value in packets
      ensures Find(packets, Own(s, segment)).value.name == Own(s, segment)
    {
      AddAllLookup(map[], packets, Own(s, segment));
    }
    match shape
    case NameOnly =>
    case Single(piece) => assert packets[0].name == Own(s, None);
    case Segmented(pieces) =>
      forall i | 0 <= i < |pieces| ensures packets[i] in packets && packets[i].name == Own(s, Some(i)) { }
  }

  /** The publication under number s has these packets, wherever in the pipeline it is. */
  ghost predicate Carries(p: Pipeline, s: nat, packets: seq<Packet>) {
    || (s in p.staged && p.staged[s] == packets)
    || (s in p.prepared && p.prepared[s].packets == packets)
    || (p.phase.Taken? && p.phase.pub.seqNo == s && p.phase.pub.packets == packets)
    || (s in p.committed && p.committed[s] == packets)
  }

  /** No step alters a publication or mixes two up; only shutdown drops one, and never a committed one. */
  lemma StepCarries(p: Pipeline, e: Event, s: nat, packets: seq<Packet>)
    requires Invariant(p) && p.alive && Carries(p, s, packets)
    ensures var q := Step(p, e);
      Carries(q, s, packets) || (e.Shutdown? && !q.alive && s !in q.committed)
  {
    hide NumbersPartitioned, StoreConserved, LogInOrder;
    assert OnePlace(p, s) by { HeadPlace(p, s); }
    match e
    case Publish(shape, failAt) => PublishCarries(p, shape, failAt, s, packets);
    case Deliver(_) =>
    case Take =>
    case Commit(faults) => CommitCarries(p, faults, s, packets);
    case Advance =>
    case RetryTimer(_) =>
    case Shutdown => ShutdownCarries(p, s, packets);
  }

  lemma PublishFrame(p: Pipeline, shape: Option<Shape>, failAt: Option<nat>)
    ensures var q := DoPublish(p, shape, failAt);
      && q.prepared == p.prepared && q.phase == p.phase && q.committed == p.committed
      && forall s :: s in p.staged && s <= p.reserved ==> s in q.staged && q.staged[s] == p.staged[s]
  {
    hide AfterBatch, AddAll, BatchResult, PacketsFor;
  }

  lemma PublishCarries(p: Pipeline, shape: Option<Shape>, failAt: Option<nat>, s: nat, packets: seq<Packet>)
    requires OnePlace(p, s) && Carries(p, s, packets)
    ensures Carries(DoPublish(p, shape, failAt), s, packets)
  {
    hide DoPublish;
    PublishFrame(p, shape, failAt);
  }

  lemma CommitCarries(p: Pipeline, faults: Faults, s: nat, packets: seq<Packet>)
    requires OnePlace(p, s) && Carries(p, s, packets) && Invariant(p) && p.alive
    ensures Carries(DoCommit(p, faults), s, packets)
  {
    if p.phase.Taken? {
      assert OnePlace(p, p.phase.pub.seqNo);
      assert LogInOrder(p);
      hide DoCommit, Invariant, LogInOrder;
      if DoCommit(p, faults).phase.Committed? {
        SucceededCommitIs(p, faults);
      } else {
        FailedCommitRequeues(p, faults);
      }
    } else {
      hide Invariant, LogInOrder, Carries;
    }
  }

  lemma ShutdownCarries(p: Pipeline, s: nat, packets: seq<Packet>)
    requires Invariant(p) && p.alive && Carries(p, s, packets)
    ensures var q := DoShutdown(p); Carries(q, s, packets) || (!q.alive && s !in q.committed)
  {
    assert OnePlace(p, s);
  }

  lemma {:induction false} RunCarries(p: Pipeline, es: seq<Event>, s: nat, packets: seq<Packet>)
    requires Invariant(p) && p.alive && Carries(p, s, packets)
    ensures var q := RunFrom(p, es); Carries(q, s, packets) || (!q.alive && s !in q.committed)
    decreases |es|
  {
    hide Invariant, Step, Carries;
    if es != [] {
      var q := Step(p, es[0]);
      StepKeeps(p, es[0]);
      StepCarries(p, es[0], s, packets);
      if q.alive { RunCarries(q, es[1..], s, packets); } else { DeadStaysDead(q, es[1..]); }
    }
  }

  lemma {:induction false} DeadStaysDead(p: Pipeline, es: seq<Event>)
    requires !p.alive
    ensures RunFrom(p, es) == p
    decreases |es|
  {
    if es != [] { DeadStaysDead(p, es[1..]); }
  }

  /**
   * A publication is accepted exactly when preparation does not throw, the store can erase or there is nothing to
   * store, every packet keeps the packet limit, and no insertion fails.
   */
  lemma AcceptedExactly(p: Pipeline, shape: Option<Shape>, failAt: Option<nat>)
    ensures Rejected(p, shape, failAt) <==>
      || shape.None?
      || (var sizes := PieceSizes(shape.value);
          || (sizes != [] && !p.erasable)
          || (exists i :: 0 <= i < |sizes| && sizes[i] > 8800)
          || (failAt.Some? && failAt.value < |sizes|))
  {
    if shape.Some? {
      var packets, sizes := PacketsFor(Max(p.reserved, p.coreSeq) + 1, shape.value), PieceSizes(shape.value);
      assert |packets| == |sizes| && forall i :: 0 <= i < |sizes| ==> packets[i].wireSize == sizes[i];
      if i :| 0 <= i < |sizes| && sizes[i] > 8800 { assert packets[i] in packets; }
    }
  }

  ghost function PieceSizes(shape: Shape): seq<nat> {
    match shape
    case NameOnly => []
    case Single(piece) => [piece.wireSize]
    case Segmented(pieces) => seq(|pieces|, i requires 0 <= i < |pieces| => pieces[i].wireSize)
  }

  /** An accepted publication takes the next number, is staged under it, and its pieces are in the store at once. */
  lemma AcceptedPublishStores(p: Pipeline, shape: Option<Shape>, failAt: Option<nat>)
    requires Invariant(p) && p.alive && !Rejected(p, shape, failAt)
    ensures var q, s := Step(p, Publish(shape, failAt)), Max(p.reserved, p.coreSeq) + 1;
      && q.reserved == s && s in q.staged && Carries(q, s, PacketsFor(s, shape.value)) && s !in q.committed
      && Serves(q.store, s, shape.value)
      && (forall n: PacketName :: !(n.Own? && n.seqNo == s) ==> Lookup(q.store, n) == Lookup(p.store, n))
  {
    var q, s := Step(p, Publish(shape, failAt)), Max(p.reserved, p.coreSeq) + 1;
    var packets := PacketsFor(s, shape.value);
    assert OnePlace(p, s) && q == Stage(p, packets);
    PublishKeeps(p, shape, failAt);
    assert Invariant(q) && Held(q, s) == packets && Held(p, s) == [];
    assert LogInOrder(p) && p.firstSeq <= p.coreSeq;
    hide PacketsFor, AddAll, Stage, NumbersPartitioned, PublicationsOk, Rejected, Step, LogInOrder;
    forall segment: Option<nat> ensures Lookup(q.store, Own(s, segment)) == Find(packets, Own(s, segment)) {
      assert Lookup(q.store, Own(s, segment)) == Expected(q, Own(s, segment));
    }
    HeldServes(q.store, s, shape.value);
    forall n: PacketName | !(n.Own? && n.seqNo == s) ensures Lookup(q.store, n) == Lookup(p.store, n) {
      AddAllLookup(p.store, packets, n);
      NotAmong(s, shape.value, n);
    }
  }

  lemma NotAmong(s: nat, shape: Shape, n: PacketName)
    requires !(n.Own? && n.seqNo == s)
    ensures n !in NamesOf(PacketsFor(s, shape))
  {
  }

  /**
   * Whatever happens between accepting a publication and advertising its number, faults, retries, other
   * publications and shutdown included: once the number is advertised, the store serves exactly the pieces
   * that were published under it.
   */
  lemma AdvertisedIsServed(p: Pipeline, shape: Option<Shape>, failAt: Option<nat>, es: seq<Event>)
    requires Invariant(p) && p.alive && !Rejected(p, shape, failAt)
    ensures var s := Max(p.reserved, p.coreSeq) + 1;
      var q := RunFrom(Step(p, Publish(shape, failAt)), es);
      s <= q.coreSeq ==> Serves(q.store, s, shape.value)
  {
    var s := Max(p.reserved, p.coreSeq) + 1;
    var first := Step(p, Publish(shape, failAt));
    var packets := PacketsFor(s, shape.value);
    AcceptedPublishStores(p, shape, failAt);
    StepKeeps(p, Publish(shape, failAt));
    StepKeepsOrigin(p, Publish(shape, failAt));
    assert first.alive && p.firstSeq <= p.coreSeq;
    RunCarries(first, es, s, packets);
    RunKeeps(first, es);
    var q := RunFrom(first, es);
    if s <= q.coreSeq { AdvertisedIsHeld(q, s, shape.value); }
  }

  lemma AdvertisedIsHeld(q: Pipeline, s: nat, shape: Shape)
    requires Invariant(q) && q.firstSeq < s <= q.coreSeq && (Carries(q, s, PacketsFor(s, shape)) || s !in q.committed)
    ensures Serves(q.store, s, shape)
  {
    assert s in q.committed;
    hide PacketsFor;
    AdvertisedPlace(q, s);
    assert q.committed[s] == PacketsFor(s, shape) && Held(q, s) == q.committed[s];
    hide Held;
    forall segment: Option<nat>
      ensures Lookup(q.store, Own(s, segment)) == Find(PacketsFor(s, shape), Own(s, segment))
    {
      assert Lookup(q.store, Own(s, segment)) == Expected(q, Own(s, segment));
    }
    HeldServes(q.store, s, shape);
  }

  lemma AdvertisedPlace(q: Pipeline, s: nat)
    requires Invariant(q) && q.firstSeq < s <= q.coreSeq
    ensures s !in q.staged && s !in q.prepared && !InHand(q, s)
  {
    assert OnePlace(q, s);
  }
}
