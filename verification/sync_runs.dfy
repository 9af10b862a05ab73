/** Whole runs of one sync core: exactly-once reporting, parallel refines serial. */
module SyncRuns {
  import opened Names
  import opened StateVector
  import opened Merge
  import opened SyncCore
  import opened Runs

  datatype Event =
    | Receive(remote: Vector)                  // serial handler, or queue-full fallback
    | Capture(id: nat, remote: Vector)         // snapshot taken, job posted to the pool
    | Result(id: nat)                          // worker result processed on the main thread
    | Drop(id: nat)                            // worker could not decode the vector
    | Start                                    // sendInitialInterest
    | Timer                                    // retxSyncInterest(true, 0)
    | BatchTimer                               // batched publication sync
    | Update(node: Name, epoch: uint64, seqNo: uint64, batched: bool)

  datatype System = System(core: Core, jobs: map<nat, Job>)

  ghost function Step(s: System, e: Event): System {
    match e
    case Receive(remote) => s.(core := ReceiveSerial(s.core, remote))
    case Capture(id, remote) => s.(jobs := s.jobs[id := Job(remote, s.core.vv, s.core.generation)])
    case Result(id) =>
      if id in s.jobs then System(ReceiveResult(s.core, s.jobs[id]), s.jobs - {id}) else s
    case Drop(id) => s.(jobs := s.jobs - {id})
    case Start => s.(core := TimerFires(s.core.(initialized := true)))
    case Timer => s.(core := TimerFires(s.core))
    case BatchTimer => s.(core := PublicationSync(s.core))
    case Update(n, b, seqNo, batched) => s.(core := UpdateSeqNo(s.core, n, b, seqNo, batched))
  }

  ghost predicate Raises(s: System, e: Event) {
    e.Update? ==> e.seqNo == 0 || e.seqNo >= Get(s.core.vv, e.node, e.epoch)
  }

  const START := System(INITIAL, map[])

  ghost function RunFrom(s: System, es: seq<Event>): System { Run(Step, s, es) }

  /** No update along the run lowers an entry. */
  ghost predicate NeverLowers(s: System, es: seq<Event>) { Admissible(Step, Raises, s, es) }

  // ---------- invariants ----------

  ghost function Reported(c: Core, n: Name, b: uint64, s: int): nat {
    Count(c.reports, n, b, s) + Count(c.raised, n, b, s)
  }

  /** Reported and locally raised ranges are pairwise disjoint and their union is 1..vv. */
  ghost predicate ExactlyOnce(c: Core) {
    forall n, b, s :: Reported(c, n, b, s) == Below(c.vv, n, b, s)
  }

  ghost predicate RecordCovered(c: Core) {
    c.recorded.Some? ==> AtMost(c.recorded.value, c.vv)
  }

  /** Equal generation implies equal vector, for every snapshot still in flight. */
  ghost predicate SnapshotsAgree(s: System) {
    forall id :: id in s.jobs ==>
      s.jobs[id].generation <= s.core.generation &&
      (s.jobs[id].generation == s.core.generation ==> s.jobs[id].local == s.core.vv)
  }

  ghost predicate Invariant(s: System) {
    ExactlyOnce(s.core) && RecordCovered(s.core) && SnapshotsAgree(s)
  }

  // ---------- merge steps ----------

  /** Installing a merge of the current vector reports every newly covered number exactly once. */
  lemma InstallKeeps(c: Core, remote: Vector)
    requires ExactlyOnce(c) && RecordCovered(c)
    ensures var m := ComputeMerge(c.vv, remote); var d := React(Install(c, m), remote, m);
            ExactlyOnce(d) && RecordCovered(d)
  {
    var m := ComputeMerge(c.vv, remote);
    var d := React(Install(c, m), remote, m);
    forall n, b, s ensures Reported(d, n, b, s) == Below(d.vv, n, b, s) {
      MergeReports(c.vv, remote, n, b, s);
      CountAppend(c.reports, m.missing, n, b, s);
      assert Reported(c, n, b, s) == Below(c.vv, n, b, s);
    }
    JoinUpper(c.vv, remote);
    if c.recorded.Some? {
      forall n, b ensures Get(d.recorded.value, n, b) <= Get(d.vv, n, b) {
        JoinGet(c.recorded.value, remote, n, b);
        JoinGet(c.vv, remote, n, b);
      }
    }
  }

  /** The generation moves exactly when the vector does. */
  lemma GenerationTracksMerge(c: Core, remote: Vector)
    ensures var d := ReceiveSerial(c, remote);
            c.generation <= d.generation && (d.generation == c.generation <==> d.vv == c.vv)
  {
    MergeFlags(c.vv, remote);
  }

  /** With the record covered, the timer's own merge changes nothing and reports nothing. */
  lemma TimerMergeIsSilent(c: Core)
    requires RecordCovered(c)
    ensures var d := TimerFires(c);
            d.vv == c.vv && d.generation == c.generation && d.reports == c.reports && d.raised == c.raised
  {
    if c.recorded.Some? {
      JoinAbsorbs(c.vv, c.recorded.value);
      MergeFlags(c.vv, c.recorded.value);
    }
  }

  lemma SameSuffix<T>(a: seq<T>, m: seq<T>, m': seq<T>)
    requires a + m == a + m'
    ensures m == m'
  {
    assert (a + m)[|a|..] == m && (a + m')[|a|..] == m';
  }

  /** Two vectors that a merge takes to the same vector with the same report are the same vector. */
  lemma ReportsTellTheVector(v: Vector, w: Vector, remote: Vector)
    requires ComputeMerge(v, remote).merged == ComputeMerge(w, remote).merged
    requires ComputeMerge(v, remote).missing == ComputeMerge(w, remote).missing
    ensures v == w
  {
    hide ComputeMerge;
    forall n, b ensures Get(v, n, b) == Get(w, n, b) {
      var s := if Get(v, n, b) < Get(w, n, b) then Get(w, n, b) else Get(v, n, b);
      MergeReports(v, remote, n, b, s);
      MergeReports(w, remote, n, b, s);
      assert Below(v, n, b, s) == Below(w, n, b, s);
    }
    Extensional(v, w);
  }

  /**
   * Processing a worker result acts like the serial handler exactly when the result is stale, and so
   * recomputed, or its snapshot is still the vector of the core.
   */
  lemma ResultIsSerialExactly(c: Core, job: Job)
    ensures ReceiveResult(c, job) == ReceiveSerial(c, job.remote)
       <==> c.generation != job.generation || job.local == c.vv
  {
    hide ComputeMerge;
    if c.generation == job.generation && ReceiveResult(c, job) == ReceiveSerial(c, job.remote) {
      var m, m' := ComputeMerge(job.local, job.remote), ComputeMerge(c.vv, job.remote);
      assert ReceiveResult(c, job).reports == c.reports + m.missing;
      assert ReceiveSerial(c, job.remote).reports == c.reports + m'.missing;
      SameSuffix(c.reports, m.missing, m'.missing);
      ReportsTellTheVector(job.local, c.vv, job.remote);
    }
  }

  // ---------- local publication ----------

  lemma CountOne(r: Range, n: Name, b: uint64, s: int)
    ensures Count([r], n, b, s) == if r.node == n && r.epoch == b && r.low <= s <= r.high then 1 else 0
  {
    assert [r][..0] == [];
  }

  /**
   * updateSeqNo keeps the reporting and suppression invariants exactly when it does not lower
   * the entry. The source does not check this; a lowered number stays reported above the entry.
   */
  lemma UpdateKeepsExactlyOnce(c: Core, n: Name, b: uint64, s: uint64, batched: bool)
    requires ExactlyOnce(c)
    ensures ExactlyOnce(UpdateSeqNo(c, n, b, s, batched)) <==> s == 0 || s >= Get(c.vv, n, b)
  {
    var d := UpdateSeqNo(c, n, b, s, batched);
    var prev := Get(c.vv, n, b);
    if 0 < s < prev {
      assert Reported(d, n, b, prev) == Reported(c, n, b, prev) == Below(c.vv, n, b, prev) == 1;
      assert Below(d.vv, n, b, prev) == 0;
    } else if s > 0 {
      forall n', b', k ensures Reported(d, n', b', k) == Below(d.vv, n', b', k) {
        assert Reported(c, n', b', k) == Below(c.vv, n', b', k);
        if s > prev {
          var r := Range(n, prev + 1, s, b);
          CountAppend(c.raised, [r], n', b', k);
          CountOne(r, n', b', k);
        }
      }
    }
  }

  /** A concrete lowering update after which sequence number 2 is reported but not covered. */
  lemma LoweringBreaksExactlyOnce()
    ensures var c := UpdateSeqNo(INITIAL, [], 7, 2, true);
            ExactlyOnce(c) && !ExactlyOnce(UpdateSeqNo(c, [], 7, 1, true))
  {
    var c := UpdateSeqNo(INITIAL, [], 7, 2, true);
    UpdateKeepsExactlyOnce(INITIAL, [], 7, 2, true);
    UpdateKeepsExactlyOnce(c, [], 7, 1, true);
  }

  lemma PutSame(v: Vector, n: Name, b: uint64)
    requires Get(v, n, b) > 0
    ensures Put(v, n, b, Get(v, n, b)) == v
  {
    Extensional(Put(v, n, b, Get(v, n, b)), v);
  }

  lemma UpdateKeepsRest(s: System, n: Name, b: uint64, seqNo: uint64, batched: bool)
    requires RecordCovered(s.core) && SnapshotsAgree(s)
    requires seqNo == 0 || seqNo >= Get(s.core.vv, n, b)
    ensures var t := Step(s, Update(n, b, seqNo, batched));
            RecordCovered(t.core) && SnapshotsAgree(t)
  {
    if seqNo > 0 && seqNo == Get(s.core.vv, n, b) { PutSame(s.core.vv, n, b); }
    var t := Step(s, Update(n, b, seqNo, batched));
    if t.core.recorded.Some? {
      forall n', b' ensures Get(t.core.recorded.value, n', b') <= Get(t.core.vv, n', b') {
        assert Get(s.core.recorded.value, n', b') <= Get(s.core.vv, n', b');
      }
    }
  }

  // ---------- runs ----------

  lemma InitialInvariant()
    ensures Invariant(START)
  {
  }

  lemma StepKeepsInvariant(s: System, e: Event)
    requires Invariant(s) && Raises(s, e)
    ensures Invariant(Step(s, e))
  {
    match e
    case Receive(remote) =>
      InstallKeeps(s.core, remote);
      GenerationTracksMerge(s.core, remote);
    case Capture(id, remote) =>
    case Result(id) =>
      if id in s.jobs {
        ResultIsSerialExactly(s.core, s.jobs[id]);
        InstallKeeps(s.core, s.jobs[id].remote);
        GenerationTracksMerge(s.core, s.jobs[id].remote);
      }
    case Drop(id) =>
    case Start =>
      TimerMergeIsSilent(s.core.(initialized := true));
      SameReports(s.core, Step(s, e).core);
    case Timer =>
      TimerMergeIsSilent(s.core);
      SameReports(s.core, Step(s, e).core);
    case BatchTimer =>
      SameReports(s.core, Step(s, e).core);
    case Update(n, b, seqNo, batched) =>
      UpdateKeepsExactlyOnce(s.core, n, b, seqNo, batched);
      UpdateKeepsRest(s, n, b, seqNo, batched);
  }

  lemma SameReports(c: Core, d: Core)
    requires ExactlyOnce(c) && d.vv == c.vv && d.reports == c.reports && d.raised == c.raised
    ensures ExactlyOnce(d)
  {
    forall n, b, s ensures Reported(d, n, b, s) == Below(d.vv, n, b, s) {
      assert Reported(c, n, b, s) == Below(c.vv, n, b, s);
    }
  }

  lemma RunKeepsInvariant(s: System, es: seq<Event>)
    requires Invariant(s) && NeverLowers(s, es)
    ensures Invariant(RunFrom(s, es))
  {
    forall t, e | Invariant(t) && Raises(t, e) ensures Invariant(Step(t, e)) { StepKeepsInvariant(t, e); }
    Invariance(Step, Raises, Invariant, s, es);
  }

  /**
   * Over any run from start-up without a lowering update, each sequence number of each
   * (node, epoch) has been announced exactly once if the vector covers it and never otherwise.
   */
  lemma ReportingIsExactlyOnce(es: seq<Event>, n: Name, b: uint64, s: int)
    requires NeverLowers(START, es)
    ensures var c := RunFrom(START, es).core;
            Count(c.reports, n, b, s) + Count(c.raised, n, b, s) == if 1 <= s <= Get(c.vv, n, b) then 1 else 0
  {
    InitialInvariant();
    RunKeepsInvariant(START, es);
    var c := RunFrom(START, es).core;
    assert Reported(c, n, b, s) == Below(c.vv, n, b, s);
  }

  /**
   * The account is exact after every prefix of a run exactly when no update along the run lowers an
   * entry: the first lowering update is where it breaks.
   */
  lemma ReportingIsExactEverywhere(s: System, es: seq<Event>)
    requires Invariant(s)
    ensures (forall k: nat :: k <= |es| ==> AccountExact(RunFrom(s, es[..k]))) <==> NeverLowers(s, es)
  {
    hide Step, Invariant, AccountExact, Raises;
    forall t, e | Invariant(t) && Raises(t, e) ensures Invariant(Step(t, e)) { StepKeepsInvariant(t, e); }
    forall t | Invariant(t) ensures AccountExact(t) { InvariantIsExact(t); }
    forall t, e | Invariant(t) && !Raises(t, e) ensures !AccountExact(Step(t, e)) { LoweringStep(t, e); }
    PrefixesExactly(Step, Raises, Invariant, AccountExact, s, es);
  }

  ghost predicate AccountExact(s: System) { ExactlyOnce(s.core) }

  lemma InvariantIsExact(s: System)
    requires Invariant(s)
    ensures AccountExact(s)
  {
  }

  lemma LoweringStep(s: System, e: Event)
    requires Invariant(s) && !Raises(s, e)
    ensures !AccountExact(Step(s, e))
  {
    hide ExactlyOnce;
    UpdateKeepsExactlyOnce(s.core, e.node, e.epoch, e.seqNo, e.batched);
  }

  // ---------- parallel refines serial ----------

  /** What one event becomes without a worker pool: a processed result is a serial receive. */
  ghost function SerialEvents(s: System, e: Event): seq<Event> {
    match e
    case Capture(_, _) => []
    case Drop(_) => []
    case Result(id) => if id in s.jobs then [Receive(s.jobs[id].remote)] else []
    case _ => [e]
  }

  ghost function Serialized(s: System, es: seq<Event>): seq<Event>
    decreases |es|
  {
    if es == [] then [] else SerialEvents(s, es[0]) + Serialized(Step(s, es[0]), es[1..])
  }

  /** One event and its serial counterpart act alike on the core. */
  lemma StepRefines(s: System, e: Event)
    requires SnapshotsAgree(s)
    ensures var f := SerialEvents(s, e);
      var t := Step(s, e);
      if f == [] then t.core == s.core
      else |f| == 1 && Step(System(s.core, map[]), f[0]) == System(t.core, map[])
  {
    if e.Result? && e.id in s.jobs { ResultIsSerialExactly(s.core, s.jobs[e.id]); }
  }

  /** The update does not lower its entry, or no snapshot of the current generation is in flight. */
  ghost predicate LeavesSnapshots(s: System, e: Event) {
    e.Update? ==>
      || e.seqNo == 0 || e.seqNo >= Get(s.core.vv, e.node, e.epoch)
      || forall id :: id in s.jobs ==> s.jobs[id].generation != s.core.generation
  }

  /** No update along the run makes a snapshot of the current generation wrong. */
  ghost predicate NeverSpoils(s: System, es: seq<Event>) { Admissible(Step, LeavesSnapshots, s, es) }

  /**
   * What the refinement rests on: an update keeps "equal generation implies equal vector" exactly
   * when it does not lower the entry, unless no snapshot of the current generation is in flight.
   */
  lemma UpdateKeepsSnapshots(s: System, n: Name, b: uint64, seqNo: uint64, batched: bool)
    requires SnapshotsAgree(s)
    ensures var e := Update(n, b, seqNo, batched);
      SnapshotsAgree(Step(s, e)) <==> LeavesSnapshots(s, e)
  {
    var t := Step(s, Update(n, b, seqNo, batched));
    if seqNo > 0 && seqNo == Get(s.core.vv, n, b) { PutSame(s.core.vv, n, b); }
    if 0 < seqNo < Get(s.core.vv, n, b) {
      assert Get(t.core.vv, n, b) != Get(s.core.vv, n, b);
      if id :| id in s.jobs && s.jobs[id].generation == s.core.generation {
        assert s.jobs[id].local == s.core.vv != t.core.vv;
      }
    }
  }

  /**
   * After an update every result in flight still acts like the serial handler exactly when the update
   * did not lower its entry or no snapshot of the current generation was in flight. So a lowering
   * update always spoils the results of the current snapshots.
   */
  lemma UpdateKeepsResultsSerial(s: System, n: Name, b: uint64, seqNo: uint64, batched: bool)
    requires SnapshotsAgree(s)
    ensures var e := Update(n, b, seqNo, batched);
      var c := Step(s, e).core;
      (forall id :: id in s.jobs ==> ReceiveResult(c, s.jobs[id]) == ReceiveSerial(c, s.jobs[id].remote))
      <==> LeavesSnapshots(s, e)
  {
    var e := Update(n, b, seqNo, batched);
    var t := Step(s, e);
    hide ReceiveResult, ReceiveSerial, UpdateSeqNo;
    UpdateFrame(s, n, b, seqNo, batched);
    UpdateKeepsSnapshots(s, n, b, seqNo, batched);
    forall id | id in s.jobs
      ensures ReceiveResult(t.core, s.jobs[id]) == ReceiveSerial(t.core, s.jobs[id].remote)
         <==> t.core.generation != s.jobs[id].generation || s.jobs[id].local == t.core.vv
    {
      ResultIsSerialExactly(t.core, s.jobs[id]);
    }
  }

  lemma UpdateFrame(s: System, n: Name, b: uint64, seqNo: uint64, batched: bool)
    ensures var t := Step(s, Update(n, b, seqNo, batched));
      t.jobs == s.jobs && t.core.generation >= s.core.generation
  {
  }

  lemma StepKeepsSnapshots(s: System, e: Event)
    requires SnapshotsAgree(s) && LeavesSnapshots(s, e)
    ensures SnapshotsAgree(Step(s, e))
  {
    hide ComputeMerge;
    match e
    case Receive(remote) => GenerationTracksMerge(s.core, remote);
    case Capture(id, remote) =>
    case Result(id) =>
      if id in s.jobs {
        ResultIsSerialExactly(s.core, s.jobs[id]);
        GenerationTracksMerge(s.core, s.jobs[id].remote);
      }
    case Drop(id) =>
    case Start => TimerTracksVector(s.core.(initialized := true));
    case Timer => TimerTracksVector(s.core);
    case BatchTimer =>
    case Update(n, b, seqNo, batched) => UpdateKeepsSnapshots(s, n, b, seqNo, batched);
  }

  lemma TimerTracksVector(c: Core)
    ensures var d := TimerFires(c);
      c.generation <= d.generation && (d.generation == c.generation <==> d.vv == c.vv)
  {
    if c.recorded.Some? { MergeFlags(c.vv, c.recorded.value); }
  }

  /**
   * For every interleaving of snapshots, results, stale and queue-full fallbacks, timers and updates
   * that leave the current snapshots valid, the core ends in exactly the state the serial handler
   * produces when run in the order the results were processed: vector, generation, record, reports
   * and sends.
   */
  lemma {:induction false} ParallelRefinesSerial(s: System, es: seq<Event>)
    requires SnapshotsAgree(s) && NeverSpoils(s, es)
    ensures RunFrom(System(s.core, map[]), Serialized(s, es)) == System(RunFrom(s, es).core, map[])
    decreases |es|
  {
    if es != [] {
      StepKeepsSnapshots(s, es[0]);
      StepRefines(s, es[0]);
      Continue(s, es, Step(s, es[0]), SerialEvents(s, es[0]));
    }
  }

  lemma {:induction false} Continue(s: System, es: seq<Event>, t: System, f: seq<Event>)
    requires es != [] && t == Step(s, es[0]) && f == SerialEvents(s, es[0])
    requires SnapshotsAgree(t) && NeverSpoils(t, es[1..])
    requires if f == [] then t.core == s.core
             else |f| == 1 && Step(System(s.core, map[]), f[0]) == System(t.core, map[])
    ensures RunFrom(System(s.core, map[]), Serialized(s, es)) == System(RunFrom(s, es).core, map[])
    decreases |es|, 0
  {
    ParallelRefinesSerial(t, es[1..]);
    var rest := Serialized(t, es[1..]);
    Append(Step, System(s.core, map[]), f, rest);
    if f != [] {
      assert f == [f[0]];
      One(Step, System(s.core, map[]), f[0]);
    }
  }

  /** The serialised run uses no worker pool at all. */
  lemma {:induction false} SerializedIsSerial(s: System, es: seq<Event>)
    ensures forall f :: f in Serialized(s, es) ==> !f.Capture? && !f.Result? && !f.Drop?
    decreases |es|
  {
    if es != [] { SerializedIsSerial(Step(s, es[0]), es[1..]); }
  }

  /** The state after publishing 2, from which the refinement fails below. */
  ghost function PublishedTwo(): System { Step(START, Update([], 7, 2, true)) }

  /** Snapshot, update from 2 to 1, result. */
  const LOWERING := [Capture(0, map[]), Update([], 7, 1, true), Result(0)]

  lemma StaleSnapshotRun()
    ensures Get(RunFrom(PublishedTwo(), LOWERING).core.vv, [], 7) == 2
  {
    var s := PublishedTwo();
    Three(Step, s, Capture(0, map[]), Update([], 7, 1, true), Result(0));
    JoinGet(s.core.vv, map[], [], 7);
  }

  lemma SerialCounterpart()
    ensures Serialized(PublishedTwo(), LOWERING) == [Update([], 7, 1, true), Receive(map[])]
  {
    var s := PublishedTwo();
    var t := Step(s, LOWERING[0]);
    var u := Step(t, LOWERING[1]);
    assert LOWERING[1..] == [Update([], 7, 1, true), Result(0)] && LOWERING[1..][1..] == [Result(0)];
    assert [Result(0)][1..] == [] && Serialized(Step(u, Result(0)), []) == [];
    assert Serialized(u, [Result(0)]) == [Receive(map[])];
    assert Serialized(t, LOWERING[1..]) == [Update([], 7, 1, true)] + [Receive(map[])];
  }

  lemma SerialCounterpartRun()
    ensures Get(RunFrom(PublishedTwo(), [Update([], 7, 1, true), Receive(map[])]).core.vv, [], 7) == 1
  {
    var s := PublishedTwo();
    Two(Step, s, Update([], 7, 1, true), Receive(map[]));
    JoinGet(Step(s, Update([], 7, 1, true)).core.vv, map[], [], 7);
  }

  /**
   * A run with a lowering update whose end differs from that of its own serial counterpart: the worker's
   * result puts 2 back, the serial handler leaves 1.
   */
  lemma LoweringBreaksRefinement()
    ensures var s := PublishedTwo();
      && Invariant(s) && !NeverSpoils(s, LOWERING)
      && RunFrom(System(s.core, map[]), Serialized(s, LOWERING)).core.vv != RunFrom(s, LOWERING).core.vv
  {
    InitialInvariant();
    StepKeepsInvariant(START, Update([], 7, 2, true));
    StaleSnapshotRun();
    SerialCounterpart();
    SerialCounterpartRun();
    var s := PublishedTwo();
    assert System(s.core, map[]) == s;
    if NeverSpoils(s, LOWERING) {
      ParallelRefinesSerial(s, LOWERING);
    }
  }
}
