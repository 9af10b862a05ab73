/**
 * The protocol without record, generation or snapshots: a node that remembers the vectors it heard since
 * suppression began. Every run of the sync core acts as this listener does.
 */
module Listening {
  import opened Names
  import opened StateVector
  import opened Merge
  import opened SyncCore
  import opened SyncRuns
  import opened Runs

  /** `heard` is empty outside suppression; `posted` holds the remote vectors of the jobs in flight. */
  datatype Listener = Listener(
    vv: Vector, heard: seq<Vector>, awake: bool, sent: seq<Vector>, posted: map<nat, Vector>)

  const SILENT := Listener(map[], [], false, [], map[])

  ghost function JoinOf(vs: seq<Vector>): Vector
    requires vs != []
  {
    if |vs| == 1 then vs[0] else Join(JoinOf(vs[..|vs| - 1]), vs[|vs| - 1])
  }

  /** What is heard while listening is remembered; listening begins with a vector that lacks something. */
  ghost function Hear(l: Listener, v: Vector): Listener {
    var heard := if l.heard != [] then l.heard + [v] else if Newer(l.vv, v) then [v] else [];
    l.(vv := Join(l.vv, v), heard := heard)
  }

  ghost function Speak(l: Listener): Listener {
    l.(heard := [], sent := if l.awake then l.sent + [l.vv] else l.sent)
  }

  /** Silent only when somebody was heard and together they know all that this node knows. */
  ghost function Fire(l: Listener): Listener {
    if l.heard != [] && JoinOf(l.heard) == l.vv then l.(heard := []) else Speak(l)
  }

  ghost function Publish(l: Listener, n: Name, b: uint64, seqNo: uint64, batched: bool): Listener {
    if seqNo == 0 then l
    else
      var k := l.(vv := Put(l.vv, n, b, seqNo));
      if seqNo > Get(l.vv, n, b) && !batched then Speak(k) else k
  }

  ghost function Listen(l: Listener, e: Event): Listener {
    match e
    case Receive(remote) => Hear(l, remote)
    case Capture(id, remote) => l.(posted := l.posted[id := remote])
    case Result(id) => if id in l.posted then Hear(l, l.posted[id]).(posted := l.posted - {id}) else l
    case Drop(id) => l.(posted := l.posted - {id})
    case Start => Fire(l.(awake := true))
    case Timer => Fire(l)
    case BatchTimer => Speak(l)
    case Update(n, b, seqNo, batched) => Publish(l, n, b, seqNo, batched)
  }

  ghost function Listened(es: seq<Event>): Listener { Run(Listen, SILENT, es) }

  // ---------- the join of what was heard ----------

  lemma JoinOfSnoc(vs: seq<Vector>, v: Vector)
    requires vs != []
    ensures JoinOf(vs + [v]) == Join(JoinOf(vs), v)
  {
    assert (vs + [v])[..|vs|] == vs;
  }

  /** The join holds, for each key, the largest value of any of the vectors. */
  lemma {:induction false} JoinOfIsLeastUpperBound(vs: seq<Vector>, n: Name, b: uint64)
    requires vs != []
    ensures forall i :: 0 <= i < |vs| ==> Get(vs[i], n, b) <= Get(JoinOf(vs), n, b)
    ensures exists i :: 0 <= i < |vs| && Get(vs[i], n, b) == Get(JoinOf(vs), n, b)
  {
    if |vs| == 1 {
      assert Get(vs[0], n, b) == Get(JoinOf(vs), n, b);
    } else {
      var init, last := vs[..|vs| - 1], vs[|vs| - 1];
      assert vs == init + [last];
      JoinOfSnoc(init, last);
      JoinOfIsLeastUpperBound(init, n, b);
      JoinGet(JoinOf(init), last, n, b);
      forall i | 0 <= i < |vs| ensures Get(vs[i], n, b) <= Get(JoinOf(vs), n, b) {
        if i < |init| { assert vs[i] == init[i]; }
      }
      if Get(JoinOf(init), n, b) < Get(last, n, b) {
        assert Get(vs[|vs| - 1], n, b) == Get(JoinOf(vs), n, b);
      } else {
        var i :| 0 <= i < |init| && Get(init[i], n, b) == Get(JoinOf(init), n, b);
        assert vs[i] == init[i];
      }
    }
  }

  // ---------- the core acts as the listener ----------

  ghost predicate RecordIsJoin(record: Option<Vector>, heard: seq<Vector>) {
    record == if heard == [] then None else Some(JoinOf(heard))
  }

  /** Same vector, same messages, and a record that is the join of what was heard. */
  ghost predicate ActsAs(s: System, l: Listener) {
    && s.core.vv == l.vv && s.core.sent == l.sent && s.core.initialized == l.awake
    && RecordIsJoin(s.core.recorded, l.heard)
    && s.jobs.Keys == l.posted.Keys && forall id :: id in s.jobs ==> s.jobs[id].remote == l.posted[id]
  }

  lemma HearsAlike(c: Core, l: Listener, remote: Vector)
    requires c.vv == l.vv && RecordIsJoin(c.recorded, l.heard)
    ensures var d, k := ReceiveSerial(c, remote), Hear(l, remote);
      && d.vv == k.vv && RecordIsJoin(d.recorded, k.heard)
      && d.sent == c.sent && k.sent == l.sent && d.initialized == c.initialized && k.awake == l.awake
  {
    MergeFlags(c.vv, remote);
    if l.heard != [] { JoinOfSnoc(l.heard, remote); }
  }

  lemma FiresAlike(c: Core, l: Listener)
    requires RecordCovered(c) && c.vv == l.vv && c.sent == l.sent && c.initialized == l.awake
    requires RecordIsJoin(c.recorded, l.heard)
    ensures var d, k := TimerFires(c), Fire(l);
      d.vv == k.vv && d.sent == k.sent && d.initialized == k.awake && d.recorded.None? && k.heard == []
  {
    TimerMergeIsSilent(c);
    if c.recorded.Some? {
      MergeFlags(c.vv, c.recorded.value);
      if !Newer(c.vv, c.recorded.value) { Extensional(c.recorded.value, c.vv); }
    }
  }

  lemma ReceiveActsAs(s: System, l: Listener, remote: Vector)
    requires ActsAs(s, l)
    ensures ActsAs(Step(s, Receive(remote)), Listen(l, Receive(remote)))
  {
    hide ReceiveSerial, Hear, RecordIsJoin;
    HearsAlike(s.core, l, remote);
    HearFrame(l, remote);
  }

  lemma HearFrame(l: Listener, v: Vector)
    ensures Hear(l, v).posted == l.posted
  {
  }

  lemma ResultActsAs(s: System, l: Listener, id: nat)
    requires SnapshotsAgree(s) && ActsAs(s, l) && id in s.jobs
    ensures ActsAs(Step(s, Result(id)), Listen(l, Result(id)))
  {
    ResultIsSerialExactly(s.core, s.jobs[id]);
    hide ReceiveSerial, ReceiveResult, Hear, RecordIsJoin;
    HearsAlike(s.core, l, s.jobs[id].remote);
    HearFrame(l, s.jobs[id].remote);
  }

  lemma TimerActsAs(s: System, l: Listener, e: Event)
    requires RecordCovered(s.core) && ActsAs(s, l) && (e.Start? || e.Timer? || e.BatchTimer?)
    ensures ActsAs(Step(s, e), Listen(l, e))
  {
    hide ComputeMerge, JoinOf;
    if e.Start? { FiresAlike(s.core.(initialized := true), l.(awake := true)); }
    if e.Timer? { FiresAlike(s.core, l); }
  }

  lemma UpdateActsAs(s: System, l: Listener, e: Event)
    requires ActsAs(s, l) && e.Update?
    ensures ActsAs(Step(s, e), Listen(l, e))
  {
    hide JoinOf, Get;
  }

  lemma JobActsAs(s: System, l: Listener, e: Event)
    requires ActsAs(s, l) && (e.Capture? || e.Drop? || (e.Result? && e.id !in s.jobs))
    ensures ActsAs(Step(s, e), Listen(l, e))
  {
    hide RecordIsJoin;
  }

  lemma StepActsAs(s: System, l: Listener, e: Event)
    requires Invariant(s) && ActsAs(s, l)
    ensures ActsAs(Step(s, e), Listen(l, e))
  {
    hide Step, Listen, ActsAs, ExactlyOnce, RecordCovered, SnapshotsAgree;
    if e.Receive? {
      ReceiveActsAs(s, l, e.remote);
    } else if e.Result? && e.id in s.jobs {
      ResultActsAs(s, l, e.id);
    } else if e.Start? || e.Timer? || e.BatchTimer? {
      TimerActsAs(s, l, e);
    } else if e.Update? {
      UpdateActsAs(s, l, e);
    } else {
      JobActsAs(s, l, e);
    }
  }

  lemma {:induction false} RunActsAs(s: System, l: Listener, es: seq<Event>)
    requires Invariant(s) && ActsAs(s, l) && NeverLowers(s, es)
    ensures ActsAs(RunFrom(s, es), Run(Listen, l, es))
    decreases |es|
  {
    hide Invariant, ActsAs, Step, Listen;
    if es != [] {
      StepActsAs(s, l, es[0]);
      StepKeepsInvariant(s, es[0]);
      RunActsAs(Step(s, es[0]), Listen(l, es[0]), es[1..]);
    }
  }

  /**
   * Every run without a lowering update, serial or through the workers, has the vector and has sent the
   * messages that the listener has, and its record is the join of what the listener remembers.
   */
  lemma CoreActsAsListener(es: seq<Event>)
    requires NeverLowers(START, es)
    ensures ActsAs(RunFrom(START, es), Listened(es)) && Invariant(RunFrom(START, es))
  {
    InitialInvariant();
    RunActsAs(START, SILENT, es);
    RunKeepsInvariant(START, es);
  }

  /** While suppressed, the record is for every key the largest value heard since suppression began. */
  lemma RecordIsLargestHeard(es: seq<Event>, n: Name, b: uint64)
    requires NeverLowers(START, es)
    ensures var record, heard := RunFrom(START, es).core.recorded, Listened(es).heard;
            && (record.Some? <==> heard != [])
            && (record.Some? ==>
                 && (forall i :: 0 <= i < |heard| ==> Get(heard[i], n, b) <= Get(record.value, n, b))
                 && (exists i :: 0 <= i < |heard| && Get(heard[i], n, b) == Get(record.value, n, b)))
  {
    CoreActsAsListener(es);
    var heard := Listened(es).heard;
    if heard != [] { JoinOfIsLeastUpperBound(heard, n, b); }
  }

  // ---------- when the core sends ----------

  lemma AwakeStep(l: Listener, e: Event)
    ensures Listen(l, e).awake <==> l.awake || e.Start?
  {
  }

  /** The initial Interest is what wakes the node. */
  lemma {:induction false} AwakeSinceStart(l: Listener, es: seq<Event>)
    ensures Run(Listen, l, es).awake <==> l.awake || Start in es
    decreases |es|
  {
    if es != [] {
      AwakeStep(l, es[0]);
      AwakeSinceStart(Listen(l, es[0]), es[1..]);
    }
  }

  /**
   * Whenever the timer fires in a reachable state of a started core, it sends the vector, unless vectors
   * were heard since suppression began and their join is that vector. Either way suppression ends.
   */
  lemma SuppressionNeverHidesNews(es: seq<Event>)
    requires NeverLowers(START, es)
    ensures var c, heard := RunFrom(START, es).core, Listened(es).heard;
      var d := Step(RunFrom(START, es), Timer).core;
      && d.sent == c.sent + (if Start !in es || (heard != [] && JoinOf(heard) == c.vv) then [] else [c.vv])
      && d.vv == c.vv && d.recorded == None && d.reports == c.reports
  {
    CoreActsAsListener(es);
    AwakeSinceStart(SILENT, es);
    var s := RunFrom(START, es);
    StepActsAs(s, Listened(es), Timer);
    TimerMergeIsSilent(s.core);
  }

  /** Starting up sends the vector at once, under the same exception. */
  lemma StartSends(es: seq<Event>)
    requires NeverLowers(START, es)
    ensures var c, heard := RunFrom(START, es).core, Listened(es).heard;
      var d := Step(RunFrom(START, es), Start).core;
      && d.sent == c.sent + (if heard != [] && JoinOf(heard) == c.vv then [] else [c.vv])
      && d.vv == c.vv && d.recorded == None && d.initialized
  {
    CoreActsAsListener(es);
    var s := RunFrom(START, es);
    StepActsAs(s, Listened(es), Start);
    TimerMergeIsSilent(s.core.(initialized := true));
  }

  // ---------- single steps, by lookups ----------

  /**
   * A vector heard raises each entry to the larger value. A suppressed core raises its record likewise;
   * one that is not begins a record with the vector exactly when the vector lacks something.
   */
  lemma ReceiveRecords(s: System, remote: Vector, n: Name, b: uint64)
    ensures var c, d := s.core, Step(s, Receive(remote)).core;
      && Get(d.vv, n, b) == Max(Get(c.vv, n, b), Get(remote, n, b))
      && d.sent == c.sent && d.raised == c.raised && d.initialized == c.initialized
      && (c.recorded.Some? ==>
           d.recorded.Some? && Get(d.recorded.value, n, b) == Max(Get(c.recorded.value, n, b), Get(remote, n, b)))
      && (c.recorded.None? ==> d.recorded == if Newer(c.vv, remote) then Some(remote) else None)
  {
    JoinGet(s.core.vv, remote, n, b);
    MergeFlags(s.core.vv, remote);
    if s.core.recorded.Some? { JoinGet(s.core.recorded.value, remote, n, b); }
  }

  /** A worker's result does exactly the same with the vector that was posted, and its job is gone. */
  lemma ResultRecords(s: System, id: nat)
    requires SnapshotsAgree(s) && id in s.jobs
    ensures Step(s, Result(id)) == Step(s, Receive(s.jobs[id].remote)).(jobs := s.jobs - {id})
  {
    ResultIsSerialExactly(s.core, s.jobs[id]);
  }

  /**
   * A local update with a number above 0 writes that number and nothing else into the vector. It is
   * announced exactly when it rises, and then sent with the new vector unless it is batched.
   */
  lemma UpdateSends(s: System, node: Name, epoch: uint64, seqNo: uint64, batched: bool, n: Name, b: uint64)
    requires seqNo > 0
    ensures var c, d := s.core, Step(s, Update(node, epoch, seqNo, batched)).core;
      var rises := seqNo > Get(c.vv, node, epoch);
      && Get(d.vv, n, b) == (if n == node && b == epoch then seqNo else Get(c.vv, n, b))
      && d.sent == c.sent + (if rises && !batched && c.initialized then [d.vv] else [])
      && d.recorded == (if rises && !batched then None else c.recorded)
      && d.raised == c.raised + (if rises then [Range(node, Get(c.vv, node, epoch) + 1, seqNo, epoch)] else [])
      && d.reports == c.reports && d.initialized == c.initialized
  {
    hide Get;
  }

  /** A batched update leaves the sending to the batch timer, which sends whatever the vector is by then. */
  lemma BatchSends(s: System)
    ensures var c, d := s.core, Step(s, BatchTimer).core;
      d.sent == c.sent + (if c.initialized then [c.vv] else []) && d.vv == c.vv && d.recorded == None
  {
  }

  /** Number 0 is refused: the state stays as it is. */
  lemma ZeroIsRefused(s: System, node: Name, epoch: uint64, batched: bool)
    ensures Step(s, Update(node, epoch, 0, batched)) == s
  {
  }
}
