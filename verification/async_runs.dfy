/**
 * Whole runs of the asynchronous publication pipeline: ordered gap-free commits, conservation of the
 * data store, blocking heads, and the object whose methods are the steps.
 */
module AsyncRuns {
  import opened Names
  import opened DataStore
  import opened Runs
  import opened AsyncPublish

  ghost function RunFrom(p: Pipeline, es: seq<Event>): Pipeline { Run(Step, p, es) }

  lemma StepKeepsOrigin(p: Pipeline, e: Event)
    ensures SameOrigin(p, Step(p, e))
  {
    hide DoPublish, DoDeliver, DoTake, DoCommit, DoAdvance, DoRetry, DoShutdown;
    if e.Commit? { DoCommitFacts(p, e.faults); }
  }

  lemma RunKeeps(p: Pipeline, es: seq<Event>)
    requires Invariant(p)
    ensures Invariant(RunFrom(p, es)) && SameOrigin(p, RunFrom(p, es))
  {
    hide Step, Invariant;
    forall q, e | Invariant(q) ensures Invariant(Step(q, e)) && SameOrigin(q, Step(q, e)) {
      StepKeeps(q, e);
      StepKeepsOrigin(q, e);
    }
    AllAdmissible(Step, p, es);
    Monotonicity(Step, Always, Invariant, SameOrigin, p, es);
  }

  /**
   * In every reachable state: advertisements happened in order without gaps, the next number to
   * commit follows the core's, and the numbers between the core's and the reserved one are
   * exactly the disjoint union of staged, prepared and the one being committed.
   */
  lemma CommitsInOrderWithoutGaps(c0: nat, store: Store, erasable: bool, es: seq<Event>, s: nat)
    requires forall n :: n in store && n.Own? ==> n.seqNo <= c0
    ensures var p := RunFrom(Initial(c0, store, erasable), es);
            && p.coreSeq >= c0 && p.log == seq(p.coreSeq - c0, i => c0 + 1 + i)
            && (p.alive && p.phase.Idle? && p.next.Some? ==> p.next.value == p.coreSeq + 1)
            && (p.alive ==> OnePlace(p, s))
  {
    InitialHolds(c0, store, erasable);
    RunKeeps(Initial(c0, store, erasable), es);
  }

  /**
   * In every reachable state, also after shutdown, every name in the store is accounted for: the
   * store is the initial contents plus the packets of staged, of prepared-and-stored and of
   * committed publications.
   */
  lemma StoreIsConserved(c0: nat, store: Store, erasable: bool, es: seq<Event>, n: PacketName)
    requires forall m :: m in store && m.Own? ==> m.seqNo <= c0
    ensures var p := RunFrom(Initial(c0, store, erasable), es);
            Lookup(p.store, n) == if n.Own? && n.seqNo > c0 then Find(Held(p, n.seqNo), n) else Lookup(store, n)
  {
    InitialHolds(c0, store, erasable);
    RunKeeps(Initial(c0, store, erasable), es);
    var p := RunFrom(Initial(c0, store, erasable), es);
    assert Lookup(p.store, n) == Expected(p, n);
  }

  /** After shutdown only committed publications are left beside the initial contents. */
  lemma ShutdownReclaims(c0: nat, store: Store, erasable: bool, es: seq<Event>, n: PacketName)
    requires forall m :: m in store && m.Own? ==> m.seqNo <= c0
    requires RunFrom(Initial(c0, store, erasable), es).phase.Idle? && RunFrom(Initial(c0, store, erasable), es).alive
    ensures var p := Step(RunFrom(Initial(c0, store, erasable), es), Shutdown);
            Lookup(p.store, n) == if n.Own? && n.seqNo > c0
                                  then (if n.seqNo in p.committed then Find(p.committed[n.seqNo], n) else None)
                                  else Lookup(store, n)
  {
    InitialHolds(c0, store, erasable);
    RunKeeps(Initial(c0, store, erasable), es);
    var q := RunFrom(Initial(c0, store, erasable), es);
    ShutdownKeeps(q);
    var p := DoShutdown(q);
    assert Lookup(p.store, n) == Expected(p, n);
  }

  /** A head waiting for its retry timer blocks every later publication until that timer fires. */
  ghost predicate HeadBlocked(p: Pipeline, c: nat) {
    p.alive && p.phase.Idle? && p.coreSeq == c && p.next == Some(c + 1) && c + 1 in p.prepared
        && p.prepared[c + 1].retryScheduled
  }

  /** Publishers never touch the prepared queue or the commit position. */
  lemma PublishLeavesHead(p: Pipeline, shape: Option<Shape>, failAt: Option<nat>)
    requires p.next.Some?
    ensures var q := DoPublish(p, shape, failAt);
            q.prepared == p.prepared && q.next == p.next && q.coreSeq == p.coreSeq && q.phase == p.phase
                && q.log == p.log && q.alive == p.alive
  {
    hide AfterBatch, AddAll, BatchResult, PacketsFor, Stage;
    if shape.Some? { StageLeavesHead(p, PacketsFor(Max(p.reserved, p.coreSeq) + 1, shape.value)); }
  }

  lemma StageLeavesHead(p: Pipeline, packets: seq<Packet>)
    requires p.next.Some?
    ensures var q := Stage(p, packets);
      && q.prepared == p.prepared && q.next == p.next && q.coreSeq == p.coreSeq && q.phase == p.phase
      && q.log == p.log && q.alive == p.alive
  {
    hide AddAll;
  }

  lemma FailingHeadBlocks(p: Pipeline, c: nat, e: Event)
    requires Invariant(p) && HeadBlocked(p, c)
    requires e != RetryTimer(c + 1) && !e.Shutdown?
    ensures HeadBlocked(Step(p, e), c) && Step(p, e).log == p.log
  {
    assert p.posted.Keys == p.staged.Keys;
    hide StoreConserved, NumbersPartitioned, PublicationsOk, LogInOrder, DoPublish, DoCommit, DoShutdown;
    if e.Publish? { PublishLeavesHead(p, e.shape, e.failAt); }
    if e.Commit? { DoCommitFacts(p, e.faults); }
    assert OnePlace(p, c + 1) by { assert NumbersPartitioned(p); HeadPlace(p, c + 1); }
  }

  lemma {:induction false} FailingHeadBlocksRun(p: Pipeline, c: nat, es: seq<Event>)
    requires Invariant(p) && HeadBlocked(p, c)
    requires forall i :: 0 <= i < |es| ==> es[i] != RetryTimer(c + 1) && !es[i].Shutdown?
    ensures HeadBlocked(RunFrom(p, es), c) && RunFrom(p, es).log == p.log
    decreases |es|
  {
    if es != [] {
      StepKeeps(p, es[0]);
      FailingHeadBlocks(p, c, es[0]);
      FailingHeadBlocksRun(Step(p, es[0]), c, es[1..]);
    }
  }

  /** One commit raises the core by exactly one or not at all, and a fault-free commit succeeds. */
  lemma CommitRaisesByOne(p: Pipeline, faults: Faults)
    requires Invariant(p) && p.alive && p.phase.Taken?
    ensures var q := DoCommit(p, faults);
            && q.coreSeq == p.coreSeq + (if q.phase.Committed? then 1 else 0)
            && (faults == NO_FAULTS ==> q.phase.Committed?)
  {
    DoCommitFacts(p, faults);
  }

  /** Once everything staged is delivered and no retry is pending, the loop stops only when all is advertised. */
  lemma NothingLeftBehind(p: Pipeline)
    requires Invariant(p) && p.alive && p.phase.Idle? && p.next.Some?
    requires p.staged == map[] && forall s :: s in p.prepared ==> !p.prepared[s].retryScheduled
    requires !HeadReady(p)
    ensures p.coreSeq == p.reserved
  {
    assert OnePlace(p, p.coreSeq + 1);
  }

  /** The critical sections of one round of the commit loop, in order. */
  lemma RoundIsRun(p: Pipeline, faults: Faults)
    requires p.alive
    ensures var q := DoCommit(DoTake(p), faults);
            RunFrom(p, [Take, Commit(faults)]) == q && RunFrom(p, [Take, Commit(faults), Advance]) == DoAdvance(q)
  {
    hide DoTake, DoCommit, DoAdvance;
    DoCommitFacts(DoTake(p), faults);
    Two(Step, p, Take, Commit(faults));
    Three(Step, p, Take, Commit(faults), Advance);
  }

  lemma RoundKeeps(p: Pipeline, faults: Faults)
    requires Invariant(p) && p.alive
    ensures Invariant(DoTake(p)) && Invariant(DoCommit(DoTake(p), faults))
        && Invariant(DoAdvance(DoCommit(DoTake(p), faults)))
  {
    hide Invariant, DoCommit;
    DoCommitFacts(DoTake(p), faults);
    TakeKeeps(p);
    CommitKeeps(DoTake(p), faults);
    AdvanceKeeps(DoCommit(DoTake(p), faults));
  }

  /** A failed round leaves its head waiting for the retry timer. */
  lemma FailedRoundBlocks(p: Pipeline, faults: Faults)
    requires Invariant(p) && p.alive && p.phase.Taken? && !DoCommit(p, faults).phase.Committed?
    ensures !HeadReady(DoCommit(p, faults))
  {
    hide DoCommit, StoreConserved, NumbersPartitioned, LogInOrder, PublicationsOk;
    DoCommitFacts(p, faults);
  }

  lemma StoredBatch(s: Store, erasable: bool, packets: seq<Packet>, failAt: Option<nat>)
    requires BatchResult(erasable, packets, failAt) == Stored
    ensures AfterBatch(s, erasable, packets, failAt) == AddAll(s, packets)
  {
  }

  lemma DeliverState(p: Pipeline, seqNo: nat)
    requires p.alive && p.phase.Idle? && seqNo in p.posted
    ensures Step(p, Deliver(seqNo)) == DoDeliver(p, seqNo)
      == p.(posted := p.posted - {seqNo}, staged := p.staged - {seqNo},
            prepared := p.prepared[seqNo := p.posted[seqNo]])
  {
  }

  lemma DeliveredIsReady(p: Pipeline, seqNo: nat)
    requires Invariant(p) && p.alive && p.phase.Idle? && seqNo in p.posted
    ensures p.next == Some(seqNo) ==> p.coreSeq + 1 == seqNo && HeadReady(DoDeliver(p, seqNo))
  {
    hide NumbersPartitioned, StoreConserved, LogInOrder;
  }

  // ---------- names given back at shutdown ----------

  ghost function NamesIn(batches: seq<seq<Packet>>): set<PacketName> {
    set i, q | 0 <= i < |batches| && q in batches[i] :: q.name
  }

  lemma NamesInSnoc(batches: seq<seq<Packet>>, batch: seq<Packet>)
    ensures NamesIn(batches + [batch]) == NamesIn(batches) + NamesOf(batch)
  {
    var longer := batches + [batch];
    forall n | n in NamesIn(batches) ensures n in NamesIn(longer) {
      var i, q :| 0 <= i < |batches| && q in batches[i] && q.name == n;
      assert q in longer[i];
    }
    forall n | n in NamesOf(batch) ensures n in NamesIn(longer) {
      assert longer[|batches|] == batch;
    }
  }

  ghost function StagedNames(staged: map<nat, seq<Packet>>, keys: set<nat>): set<PacketName> {
    set s, q | s in keys && s in staged && q in staged[s] :: q.name
  }

  ghost function PreparedNames(prepared: map<nat, Publication>, keys: set<nat>): set<PacketName> {
    set s, q | s in keys && s in prepared && prepared[s].stored && q in prepared[s].packets :: q.name
  }

  lemma OneMoreStaged(staged: map<nat, seq<Packet>>, keys: set<nat>, s: nat)
    requires s in staged
    ensures StagedNames(staged, keys + {s}) == StagedNames(staged, keys) + NamesOf(staged[s])
  {
  }

  lemma OneMorePrepared(prepared: map<nat, Publication>, keys: set<nat>, s: nat)
    requires s in prepared
    ensures PreparedNames(prepared, keys + {s})
      == PreparedNames(prepared, keys) + if prepared[s].stored then NamesOf(prepared[s].packets) else {}
  {
  }

  lemma UnadvertisedNames(p: Pipeline)
    ensures Unadvertised(p) == StagedNames(p.staged, p.staged.Keys) + PreparedNames(p.prepared, p.prepared.Keys)
  {
  }

  // ---------- the class ----------

  class AsyncPublisher {
    var coreSeq: nat
    var reserved: nat
    var nextCommit: Option<nat>
    var staged: map<nat, seq<Packet>>
    var posted: map<nat, Publication>
    var prepared: map<nat, Publication>
    var alive: bool
    const dataStore: Storage
    ghost const firstSeq: nat
    ghost const firstStore: Store
    ghost var committed: map<nat, seq<Packet>>
    ghost var log: seq<nat>

    ghost function State(phase: Phase): Pipeline
      reads this, dataStore
    {
      Pipeline(coreSeq, reserved, nextCommit, staged, posted, prepared, phase, dataStore.contents, dataStore.erasable,
               alive, firstSeq, firstStore, committed, log)
    }

    constructor (coreSeq: nat, dataStore: Storage)
      ensures this.dataStore == dataStore
      ensures State(Idle) == Initial(coreSeq, dataStore.contents, dataStore.erasable)
    {
      this.coreSeq, reserved, nextCommit, alive := coreSeq, 0, None, true;
      staged, posted, prepared := map[], map[], map[];
      this.dataStore := dataStore;
      firstSeq, firstStore, committed, log := coreSeq, dataStore.contents, map[], [];
    }

    /** publishAsync: nothing is returned when preparation or insertion throws. */
    method PrepareAndStage(shape: Option<Shape>, failAt: Option<nat>) returns (seqNo: Option<nat>)
      requires alive
      modifies this, dataStore
      ensures State(Idle) == Step(old(State(Idle)), Publish(shape, failAt))
      ensures seqNo.Some? ==> seqNo == Some(reserved) && reserved in staged
      ensures seqNo.None? ==> staged == old(staged) && posted == old(posted)
    {
      hide AfterBatch, BatchResult, AddAll, PacketsFor;
      reserved := Max(reserved, coreSeq);
      if shape.None? { return None; }
      var packets := PacketsFor(reserved + 1, shape.value);
      var outcome := dataStore.InsertPreparedDataBatch(packets, failAt);
      if outcome != Stored { return None; }
      StoredBatch(old(dataStore.contents), dataStore.erasable, packets, failAt);
      reserved := reserved + 1;
      if nextCommit.None? { nextCommit := Some(reserved); }
      staged := staged[reserved := packets];
      posted := posted[reserved := Publication(reserved, packets, packets != [], 0, false)];
      return Some(reserved);
    }

    method RequeueFailed(pub: Publication)
      modifies this`prepared
      ensures State(Idle) == Requeue(old(State(Taken(pub))), pub)
    {
      prepared := prepared[pub.seqNo := pub.(attempts := pub.attempts + 1, retryScheduled := true)];
    }

    /** commitPreparedPublication followed by updateSeqNo, or the requeue of a failed attempt. */
    method CommitOne(pub: Publication, faults: Faults) returns (ok: bool)
      requires alive
      modifies this, dataStore
      ensures ok ==> DoCommit(old(State(Taken(pub))), faults).phase.Committed? &&
                     State(DoCommit(old(State(Taken(pub))), faults).phase) == DoCommit(old(State(Taken(pub))), faults)
      ensures !ok ==> State(Idle) == DoCommit(old(State(Taken(pub))), faults)
      ensures ok ==> prepared == old(prepared)
    {
      var pub := pub;
      if faults.hookFails {
        RequeueFailed(pub);
        return false;
      }
      if !pub.stored {
        var outcome := dataStore.InsertPreparedDataBatch(pub.packets, faults.failAt);
        if outcome != Stored {
          RequeueFailed(pub);
          return false;
        }
        pub := pub.(stored := pub.packets != []);
      }
      if faults.mappingFails {
        if pub.stored {
          var removed := dataStore.RemovePreparedDataBatch(pub.packets);
          if removed { pub := pub.(stored := false); }
        }
        RequeueFailed(pub);
        return false;
      }
      coreSeq := pub.seqNo;
      committed, log := committed[pub.seqNo := pub.packets], log + [pub.seqNo];
      return true;
    }

    /** One round of the commit loop: take the head, commit it, move on. */
    method CommitHead(faults: Faults) returns (ok: bool, ghost trace: seq<Event>)
      requires Invariant(State(Idle)) && alive && HeadReady(State(Idle))
      modifies this, dataStore
      ensures State(Idle) == RunFrom(old(State(Idle)), trace)
      ensures alive && Invariant(State(Idle))
      ensures ok ==> |prepared| < |old(prepared)|
      ensures !ok ==> !HeadReady(State(Idle))
      ensures coreSeq == old(coreSeq) + (if ok then 1 else 0)
      ensures faults == NO_FAULTS ==> ok
    {
      hide Invariant, DoCommit, Step;
      ghost var p0 := State(Idle);
      RoundIsRun(p0, faults);
      RoundKeeps(p0, faults);
      CommitRaisesByOne(DoTake(p0), faults);
      DoCommitFacts(DoTake(p0), faults);
      var pub := prepared[nextCommit.value];
      prepared := prepared - {nextCommit.value};
      assert State(Taken(pub)) == DoTake(p0);
      ghost var p2 := DoCommit(DoTake(p0), faults);
      ok := CommitOne(pub, faults);
      if !ok {
        assert State(Idle) == p2;
        FailedRoundBlocks(DoTake(p0), faults);
        trace := [Take, Commit(faults)];
        return;
      }
      if nextCommit == Some(pub.seqNo) { nextCommit := Some(pub.seqNo + 1); }
      assert State(Idle) == DoAdvance(p2);
      trace := [Take, Commit(faults), Advance];
    }

    /**
     * commitReadyPreparedPublications; faults(k) is what happens to the k-th attempt of this call.
     * `trace` are the critical sections it went through.
     */
    method CommitReady(faults: nat -> Faults) returns (ghost trace: seq<Event>)
      requires Invariant(State(Idle)) && alive
      modifies this, dataStore
      ensures State(Idle) == RunFrom(old(State(Idle)), trace)
      ensures alive && Invariant(State(Idle)) && !HeadReady(State(Idle))
      ensures coreSeq >= old(coreSeq)
      ensures old(HeadReady(State(Idle))) && (forall k :: faults(k) == NO_FAULTS) ==> coreSeq > old(coreSeq)
    {
      trace := [];
      var k, ok := 0, true;
      while ok && nextCommit.Some? && nextCommit.value in prepared && !prepared[nextCommit.value].retryScheduled
        invariant alive && Invariant(State(Idle))
        invariant State(Idle) == RunFrom(old(State(Idle)), trace)
        invariant !ok ==> !HeadReady(State(Idle))
        invariant (forall j :: faults(j) == NO_FAULTS) ==> ok
        invariant coreSeq >= old(coreSeq) && (k == 0 ==> State(Idle) == old(State(Idle)))
        invariant ok && k > 0 ==> coreSeq > old(coreSeq)
        decreases ok, |prepared|
      {
        ghost var round;
        ok, round := CommitHead(faults(k));
        Append(Step, old(State(Idle)), trace, round);
        trace := trace + round;
        k := k + 1;
      }
    }

    /** The callback posted for a staged publication. */
    method OnPreparedPublication(seqNo: nat, faults: nat -> Faults) returns (ghost trace: seq<Event>)
      requires Invariant(State(Idle)) && alive && seqNo in posted
      modifies this, dataStore
      ensures State(Idle) == RunFrom(Step(old(State(Idle)), Deliver(seqNo)), trace)
      ensures alive && Invariant(State(Idle)) && !HeadReady(State(Idle))
      ensures old(nextCommit) == Some(seqNo) && (forall k :: faults(k) == NO_FAULTS) ==> coreSeq >= seqNo
    {
      DeliveredIsReady(State(Idle), seqNo);
      hide Invariant, Step, HeadReady;
      DeliverKeeps(State(Idle), seqNo);
      DeliverState(State(Idle), seqNo);
      var pub := posted[seqNo];
      posted := posted - {seqNo};
      staged := staged - {seqNo};
      prepared := prepared[seqNo := pub];
      trace := CommitReady(faults);
    }

    /** The retry timer of a failed head. */
    method OnRetryTimer(seqNo: nat, faults: nat -> Faults) returns (ghost trace: seq<Event>)
      requires Invariant(State(Idle)) && alive && seqNo in prepared
      modifies this, dataStore
      ensures State(Idle) == RunFrom(Step(old(State(Idle)), RetryTimer(seqNo)), trace)
      ensures alive && Invariant(State(Idle)) && !HeadReady(State(Idle))
      ensures old(nextCommit) == Some(seqNo) && (forall k :: faults(k) == NO_FAULTS) ==> coreSeq >= seqNo
    {
      RetryKeeps(State(Idle), seqNo);
      prepared := prepared[seqNo := prepared[seqNo].(retryScheduled := false)];
      trace := CommitReady(faults);
    }

    static method StagedBatches(staged: map<nat, seq<Packet>>) returns (batches: seq<seq<Packet>>)
      ensures NamesIn(batches) == StagedNames(staged, staged.Keys)
    {
      hide NamesIn, StagedNames;
      batches := [];
      var done: set<nat> := {};
      NothingCollected(staged, map[]);
      while staged.Keys - done != {}
        invariant done <= staged.Keys && NamesIn(batches) == StagedNames(staged, done)
        decreases staged.Keys - done
      {
        var s :| s in staged.Keys - done;
        NamesInSnoc(batches, staged[s]);
        OneMoreStaged(staged, done, s);
        batches := batches + [staged[s]];
        done := done + {s};
      }
      assert forall s :: s in staged.Keys ==> s !in staged.Keys - done;
      assert done == staged.Keys;
    }

    /** Adds the packets of every publication that is prepared and stored. */
    static method WithStored(collected: seq<seq<Packet>>, prepared: map<nat, Publication>)
      returns (batches: seq<seq<Packet>>)
      ensures NamesIn(batches) == NamesIn(collected) + PreparedNames(prepared, prepared.Keys)
    {
      hide NamesIn, PreparedNames;
      batches := collected;
      var done: set<nat> := {};
      NothingCollected(map[], prepared);
      while prepared.Keys - done != {}
        invariant done <= prepared.Keys && NamesIn(batches) == NamesIn(collected) + PreparedNames(prepared, done)
        decreases prepared.Keys - done
      {
        var s :| s in prepared.Keys - done;
        OneMorePrepared(prepared, done, s);
        if prepared[s].stored {
          NamesInSnoc(batches, prepared[s].packets);
          batches := batches + [prepared[s].packets];
        }
        done := done + {s};
      }
      assert forall s :: s in prepared.Keys ==> s !in prepared.Keys - done;
      assert done == prepared.Keys;
    }

    /** Gives back the names of all these packets, batch by batch. */
    method Reclaim(batches: seq<seq<Packet>>)
      modifies dataStore
      ensures dataStore.contents
           == if dataStore.erasable then old(dataStore.contents) - NamesIn(batches) else old(dataStore.contents)
    {
      hide NamesIn;
      NothingCollected(map[], map[]);
      for i := 0 to |batches|
        invariant dataStore.contents == if dataStore.erasable then old(dataStore.contents) - NamesIn(batches[..i])
                                        else old(dataStore.contents)
      {
        NamesInSnoc(batches[..i], batches[i]);
        assert batches[..i + 1] == batches[..i] + [batches[i]];
        var _ := dataStore.RemovePreparedDataBatch(batches[i]);
        assert batches[i] == [] ==> NamesOf(batches[i]) == {};
      }
      assert batches[..|batches|] == batches;
    }

    /** The destructor: closures posted so far find `alive` false, and what was not advertised is erased. */
    method Shutdown()
      requires alive
      modifies this, dataStore
      ensures State(Idle) == Step(old(State(Idle)), Event.Shutdown)
    {
      hide Unadvertised, NamesIn, StagedNames, PreparedNames;
      var batches := StagedBatches(staged);
      batches := WithStored(batches, prepared);
      UnadvertisedNames(State(Idle));
      alive, staged, prepared := false, map[], map[];
      Reclaim(batches);
    }
  }

  lemma NothingCollected(staged: map<nat, seq<Packet>>, prepared: map<nat, Publication>)
    ensures NamesIn([]) == {} && StagedNames(staged, {}) == {} && PreparedNames(prepared, {}) == {}
  {
  }
}
