/**
 * What becomes of the asynchronous pipeline when the core's own entry is raised from outside: a vector
 * heard from the group names this prefix and epoch with a larger number than the core has.
 */
module HeardNumber {
  import opened Names
  import opened DataStore
  import opened Runs
  import opened AsyncPublish
  import opened AsyncRuns

  /** A vector heard from the group names a larger number for this prefix and epoch than the core has. */
  ghost function HearOwn(p: Pipeline, seqNo: nat): Pipeline { p.(coreSeq := Max(p.coreSeq, seqNo)) }

  /**
   * The order of commits survives such a vector exactly when it does not raise the entry or nothing has
   * been published asynchronously yet.
   */
  lemma KeepsOrderExactly(p: Pipeline, seqNo: nat)
    requires Ordered(p) && p.alive && p.phase.Idle?
    ensures Ordered(HearOwn(p, seqNo)) <==> seqNo <= p.coreSeq || p.next.None?
  {
    var q := HearOwn(p, seqNo);
    if p.next.None? {
      forall s ensures OnePlace(q, s) { assert OnePlace(p, s); }
      forall s | s in q.posted ensures PubOk(q, s, q.posted[s]) { assert PubOk(p, s, p.posted[s]); }
      forall s | s in q.prepared ensures PubOk(q, s, q.prepared[s]) { assert PubOk(p, s, p.prepared[s]); }
    } else if seqNo <= p.coreSeq {
      assert q == p;
    } else {
      assert q.next == Some(p.coreSeq + 1);
    }
  }

  // ---------- runs that also hear vectors ----------

  datatype Heard = Own(e: Event) | Raise(seqNo: nat)

  /** Vectors are merged on the thread of the commit loop, so never in the middle of one of its rounds. */
  ghost function HearStep(p: Pipeline, h: Heard): Pipeline {
    match h
    case Own(e) => Step(p, e)
    case Raise(seqNo) => if p.alive && p.phase.Idle? then HearOwn(p, seqNo) else p
  }

  ghost predicate Harmless(p: Pipeline, h: Heard) {
    h.Raise? && p.alive && p.phase.Idle? ==> h.seqNo <= p.coreSeq || p.next.None?
  }

  /** Two pipelines that differ at most in their history: where they started, and what was committed since. */
  ghost predicate SameNow(p: Pipeline, q: Pipeline) {
    && q.coreSeq == p.coreSeq && q.reserved == p.reserved && q.next == p.next
    && q.staged == p.staged && q.posted == p.posted && q.prepared == p.prepared
    && q.phase == p.phase && q.store == p.store && q.erasable == p.erasable && q.alive == p.alive
  }

  /** Some history explains the present state. */
  ghost predicate Explained(p: Pipeline) {
    exists q :: Invariant(q) && SameNow(p, q)
  }

  lemma ExplainedIsOrdered(p: Pipeline)
    requires Explained(p) && p.alive
    ensures Ordered(p)
  {
    var q :| Invariant(q) && SameNow(p, q);
    OrderCarriesOver(q, p);
  }

  lemma OrderCarriesOver(p: Pipeline, q: Pipeline)
    requires Ordered(p)
    requires SameNow(p, q)
    ensures Ordered(q)
  {
    hide AllFit;
    forall s ensures OnePlace(q, s) { assert OnePlace(p, s); }
    forall s | s in q.posted ensures PubOk(q, s, q.posted[s]) { assert PubOk(p, s, p.posted[s]); }
    forall s | s in q.prepared ensures PubOk(q, s, q.prepared[s]) { assert PubOk(p, s, p.prepared[s]); }
  }

  lemma DeliverIgnoresHistory(p: Pipeline, q: Pipeline, seqNo: nat)
    requires SameNow(p, q)
    ensures SameNow(DoDeliver(p, seqNo), DoDeliver(q, seqNo))
  {
  }

  lemma RetryIgnoresHistory(p: Pipeline, q: Pipeline, seqNo: nat)
    requires SameNow(p, q)
    ensures SameNow(DoRetry(p, seqNo), DoRetry(q, seqNo))
  {
  }

  lemma TakeIgnoresHistory(p: Pipeline, q: Pipeline)
    requires SameNow(p, q)
    ensures SameNow(DoTake(p), DoTake(q))
  {
  }

  lemma AdvanceIgnoresHistory(p: Pipeline, q: Pipeline)
    requires SameNow(p, q)
    ensures SameNow(DoAdvance(p), DoAdvance(q))
  {
  }

  /** A step does not look at the history. */
  lemma StepIgnoresHistory(p: Pipeline, q: Pipeline, e: Event)
    requires SameNow(p, q)
    ensures SameNow(Step(p, e), Step(q, e))
  {
    hide DoPublish, DoDeliver, DoTake, DoCommit, DoAdvance, DoRetry, DoShutdown;
    match e
    case Publish(shape, failAt) => PublishIgnoresHistory(p, q, shape, failAt);
    case Deliver(seqNo) => DeliverIgnoresHistory(p, q, seqNo);
    case Take => TakeIgnoresHistory(p, q);
    case Commit(faults) => CommitIgnoresHistory(p, q, faults);
    case Advance => AdvanceIgnoresHistory(p, q);
    case RetryTimer(seqNo) => RetryIgnoresHistory(p, q, seqNo);
    case Shutdown => ShutdownIgnoresHistory(p, q);
  }

  lemma StageIgnoresHistory(p: Pipeline, q: Pipeline, packets: seq<Packet>)
    requires SameNow(p, q)
    ensures SameNow(Stage(p, packets), Stage(q, packets))
  {
    hide AddAll;
  }

  lemma PublishIgnoresHistory(p: Pipeline, q: Pipeline, shape: Option<Shape>, failAt: Option<nat>)
    requires SameNow(p, q)
    ensures SameNow(DoPublish(p, shape, failAt), DoPublish(q, shape, failAt))
  {
    hide AddAll, AfterBatch, BatchResult, PacketsFor, Stage;
    if shape.Some? { StageIgnoresHistory(p, q, PacketsFor(Max(p.reserved, p.coreSeq) + 1, shape.value)); }
  }

  lemma ShutdownIgnoresHistory(p: Pipeline, q: Pipeline)
    requires SameNow(p, q)
    ensures SameNow(DoShutdown(p), DoShutdown(q))
  {
    assert Unadvertised(q) == Unadvertised(p);
    hide Unadvertised;
  }

  lemma RequeueIgnoresHistory(p: Pipeline, q: Pipeline, pub: Publication)
    requires SameNow(p, q)
    ensures SameNow(Requeue(p, pub), Requeue(q, pub))
  {
  }

  lemma AdvertiseIgnoresHistory(p: Pipeline, q: Pipeline, pub: Publication)
    requires SameNow(p, q)
    ensures SameNow(Advertise(p, pub), Advertise(q, pub))
  {
  }

  lemma RollBackIgnoresHistory(p: Pipeline, q: Pipeline, pub: Publication)
    requires SameNow(p, q)
    ensures SameNow(RollBack(p, pub), RollBack(q, pub))
  {
    hide Requeue, NamesOf;
    RequeueIgnoresHistory(p, q, pub);
    var x, y := p.(store := p.store - NamesOf(pub.packets)), q.(store := q.store - NamesOf(pub.packets));
    RequeueIgnoresHistory(x, y, pub.(stored := false));
  }

  lemma FinishIgnoresHistory(p: Pipeline, q: Pipeline, faults: Faults)
    requires SameNow(p, q) && p.phase.Taken?
    ensures SameNow(FinishCommit(p, faults), FinishCommit(q, faults))
  {
    hide Requeue, Advertise, RollBack;
    RequeueIgnoresHistory(p, q, p.phase.pub);
    AdvertiseIgnoresHistory(p, q, p.phase.pub);
    RollBackIgnoresHistory(p, q, p.phase.pub);
  }

  lemma StoreHeadIgnoresHistory(p: Pipeline, q: Pipeline)
    requires SameNow(p, q) && p.phase.Taken?
    ensures SameNow(StoreHead(p), StoreHead(q))
  {
    hide AddAll;
  }

  lemma CommitIgnoresHistory(p: Pipeline, q: Pipeline, faults: Faults)
    requires SameNow(p, q)
    ensures SameNow(DoCommit(p, faults), DoCommit(q, faults))
  {
    hide AddAll, AfterBatch, BatchResult, FinishCommit, StoreHead, Requeue;
    if p.phase.Taken? {
      var pub := p.phase.pub;
      RequeueIgnoresHistory(p, q, pub);
      var store := AfterBatch(p.store, p.erasable, pub.packets, faults.failAt);
      RequeueIgnoresHistory(p.(store := store), q.(store := store), pub);
      StoreHeadIgnoresHistory(p, q);
      FinishIgnoresHistory(StoreHead(p), StoreHead(q), faults);
    }
  }

  /** A raise before the first publication starts the history afresh. */
  lemma FreshHistory(q: Pipeline, seqNo: nat)
    requires Invariant(q) && q.alive && q.phase.Idle? && q.next.None?
    ensures var r := HearOwn(q, seqNo);
      Invariant(r.(firstSeq := r.coreSeq, firstStore := r.store, committed := map[], log := []))
  {
    var h := HearOwn(q, seqNo);
    var r := h.(firstSeq := h.coreSeq, firstStore := h.store, committed := map[], log := []);
    KeepsOrderExactly(q, seqNo);
    OrderCarriesOver(h, r);
    forall n ensures Lookup(r.store, n) == Expected(r, n) {
      if n.Own? && n.seqNo > r.firstSeq {
        assert Lookup(q.store, n) == Expected(q, n);
        assert OnePlace(q, n.seqNo) && OnePlace(r, n.seqNo);
        assert Held(q, n.seqNo) == [] && Held(r, n.seqNo) == [];
      }
    }
  }

  lemma HarmlessKeepsExplained(p: Pipeline, h: Heard)
    requires Explained(p) && Harmless(p, h)
    ensures Explained(HearStep(p, h))
  {
    var q :| Invariant(q) && SameNow(p, q);
    match h
    case Own(e) =>
      hide Invariant, Step, SameNow;
      StepKeeps(q, e);
      StepIgnoresHistory(p, q, e);
    case Raise(seqNo) =>
      hide Invariant, Step;
      if p.alive && p.phase.Idle? {
        if seqNo <= p.coreSeq {
          assert HearOwn(p, seqNo) == p;
        } else {
          FreshHistory(q, seqNo);
          var r := HearOwn(q, seqNo);
          var fresh_ := r.(firstSeq := r.coreSeq, firstStore := r.store, committed := map[], log := []);
          assert SameNow(HearOwn(p, seqNo), fresh_);
        }
      }
  }

  lemma HarmfulBreaksOrder(p: Pipeline, h: Heard)
    requires Explained(p) && !Harmless(p, h)
    ensures !InOrder(HearStep(p, h))
  {
    ExplainedIsOrdered(p);
    KeepsOrderExactly(p, h.seqNo);
  }

  ghost predicate InOrder(p: Pipeline) { p.alive ==> Ordered(p) }

  lemma ExplainedIsInOrder(p: Pipeline)
    requires Explained(p)
    ensures InOrder(p)
  {
    if p.alive { ExplainedIsOrdered(p); }
  }

  /**
   * Over whole runs that mix the pipeline's own events with heard vectors: the order of commits holds
   * after every prefix exactly when no vector raises the entry once something was published.
   */
  lemma OrderHoldsEverywhere(c0: nat, store: Store, erasable: bool, hs: seq<Heard>)
    requires forall n :: n in store && n.Own? ==> n.seqNo <= c0
    ensures var p := Initial(c0, store, erasable);
      (forall k: nat :: k <= |hs| ==> InOrder(Run(HearStep, p, hs[..k]))) <==> Admissible(HearStep, Harmless, p, hs)
  {
    InitialHolds(c0, store, erasable);
    assert Explained(Initial(c0, store, erasable));
    hide Explained, InOrder, HearStep, Harmless, Initial;
    forall p, h | Explained(p) && Harmless(p, h) ensures Explained(HearStep(p, h)) { HarmlessKeepsExplained(p, h); }
    forall p | Explained(p) ensures InOrder(p) { ExplainedIsInOrder(p); }
    forall p, h | Explained(p) && !Harmless(p, h) ensures !InOrder(HearStep(p, h)) { HarmfulBreaksOrder(p, h); }
    PrefixesExactly(HearStep, Harmless, Explained, InOrder, Initial(c0, store, erasable), hs);
  }

  // ---------- a run that strands a publication ----------

  /** The number to commit next was skipped by the reservations and will never be prepared. */
  ghost predicate Stuck(p: Pipeline, n: nat) {
    && p.alive && p.phase.Idle? && p.next == Some(n) && n <= p.reserved
    && n !in p.posted && n !in p.prepared
  }

  lemma StuckStays(p: Pipeline, n: nat, e: Event)
    requires Stuck(p, n) && !e.Shutdown?
    ensures Stuck(Step(p, e), n) && Step(p, e).log == p.log
  {
    hide DoPublish, DoCommit;
    if e.Publish? { PublishKeepsStuck(p, n, e.shape, e.failAt); }
    if e.Commit? { DoCommitFacts(p, e.faults); }
  }

  lemma PublishKeepsStuck(p: Pipeline, n: nat, shape: Option<Shape>, failAt: Option<nat>)
    requires Stuck(p, n)
    ensures Stuck(DoPublish(p, shape, failAt), n) && DoPublish(p, shape, failAt).log == p.log
  {
    hide AddAll, AfterBatch, BatchResult, PacketsFor, Stage;
    if shape.Some? { StageKeepsStuck(p, n, PacketsFor(Max(p.reserved, p.coreSeq) + 1, shape.value)); }
  }

  lemma StageKeepsStuck(p: Pipeline, n: nat, packets: seq<Packet>)
    requires Stuck(p, n)
    ensures Stuck(Stage(p, packets), n) && Stage(p, packets).log == p.log
  {
    hide AddAll;
  }

  lemma {:induction false} StuckForever(p: Pipeline, n: nat, es: seq<Event>)
    requires Stuck(p, n) && forall e :: e in es ==> !e.Shutdown?
    ensures Stuck(RunFrom(p, es), n) && RunFrom(p, es).log == p.log
    decreases |es|
  {
    if es != [] {
      assert es[0] in es;
      StuckStays(p, n, es[0]);
      StuckForever(Step(p, es[0]), n, es[1..]);
    }
  }

  /** A publication without packets; its number alone matters here. */
  function Bare(seqNo: nat): Publication { Publication(seqNo, [], false, 0, false) }

  lemma NameOnlyStages(p: Pipeline)
    requires p.alive
    ensures var s := Max(p.reserved, p.coreSeq) + 1;
      Step(p, Publish(Some(NameOnly), None))
      == p.(reserved := s, next := if p.next.None? then Some(s) else p.next,
            staged := p.staged[s := []], posted := p.posted[s := Bare(s)])
  {
    assert PacketsFor(Max(p.reserved, p.coreSeq) + 1, NameOnly) == [] && AddAll(p.store, []) == p.store;
  }

  /** Number 1 is staged, 5 is heard for this prefix, another publication gets number 6, both are delivered. */
  ghost function TwoAroundHeard(store: Store): Pipeline {
    var one := Step(Initial(0, store, true), Publish(Some(NameOnly), None));
    Step(Step(Step(HearOwn(one, 5), Publish(Some(NameOnly), None)), Deliver(1)), Deliver(6))
  }

  lemma TwoAroundHeardIs(store: Store)
    ensures TwoAroundHeard(store)
      == Initial(0, store, true).(coreSeq := 5, reserved := 6, next := Some(1),
                                   prepared := map[1 := Bare(1), 6 := Bare(6)])
  {
    hide DoPublish;
    var one := Step(Initial(0, store, true), Publish(Some(NameOnly), None));
    NameOnlyStages(Initial(0, store, true));
    NameOnlyStages(HearOwn(one, 5));
    var two := Step(HearOwn(one, 5), Publish(Some(NameOnly), None));
    assert two.posted == map[1 := Bare(1), 6 := Bare(6)] && two.staged == map[1 := [], 6 := []];
    var three := Step(two, Deliver(1));
    assert three.posted == map[6 := Bare(6)] && three.staged == map[6 := []] && three.prepared == map[1 := Bare(1)];
    assert Step(three, Deliver(6)).posted == map[] && Step(three, Deliver(6)).staged == map[];
    assert Step(three, Deliver(6)).prepared == map[1 := Bare(1), 6 := Bare(6)];
  }

  /**
   * A raise between two publications: the commit of 1 lowers the core's entry from 5 to 1, and since no
   * publication has number 2 the commit loop never reaches 6, whatever happens next.
   */
  lemma StrandsPublication(store: Store, es: seq<Event>)
    requires forall e :: e in es ==> !e.Shutdown?
    ensures var p := TwoAroundHeard(store);
      var q := Step(Step(Step(p, Take), Commit(Faults(false, None, false))), Advance);
      && p.coreSeq == 5 && 6 in p.prepared && q.coreSeq == 1 && 6 in q.prepared
      && RunFrom(q, es).log == [1]
  {
    hide TwoAroundHeard;
    var p := TwoAroundHeard(store);
    TwoAroundHeardIs(store);
    var taken := Step(p, Take);
    assert taken == p.(phase := Taken(Bare(1)), prepared := p.prepared - {1});
    var done := Step(taken, Commit(Faults(false, None, false)));
    BareCommit(taken);
    var q := Step(done, Advance);
    assert Stuck(q, 2) && q.log == [1];
    StuckForever(q, 2, es);
  }

  lemma BareCommit(p: Pipeline)
    requires p.alive && p.phase == Taken(Bare(1))
    ensures Step(p, Commit(Faults(false, None, false))) == Advertise(p, Bare(1))
  {
    assert AddAll(p.store, []) == p.store;
  }
}
