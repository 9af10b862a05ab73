/** A sync group over a network that loses, duplicates and reorders state vectors. */
module Group {
  import opened Names
  import opened StateVector
  import opened Merge
  import opened SyncCore
  import opened SyncRuns
  import opened Runs

  /** Node i publishes under names[i]; whatever any node ever sent can be delivered at any time. */
  datatype Group = Group(names: seq<Name>, nodes: seq<System>)
  datatype GroupEvent = At(i: nat, e: Event)

  ghost function GroupStep(g: Group, ge: GroupEvent): Group {
    if ge.i < |g.nodes| then g.(nodes := g.nodes[ge.i := Step(g.nodes[ge.i], ge.e)]) else g
  }

  ghost predicate InNetwork(g: Group, v: Vector) {
    exists j :: 0 <= j < |g.nodes| && v in g.nodes[j].core.sent
  }

  /** Vectors come from the network, and an entry is raised only by the node it belongs to. */
  ghost predicate Legal(g: Group, ge: GroupEvent) {
    ge.i < |g.nodes| == |g.names| ==>
      && Raises(g.nodes[ge.i], ge.e)
      && (ge.e.Update? ==> ge.e.node == g.names[ge.i])
      && (ge.e.Receive? || ge.e.Capture? ==> InNetwork(g, ge.e.remote))
  }

  ghost predicate DistinctNames(names: seq<Name>) {
    forall i, j :: 0 <= i < j < |names| ==> names[i] != names[j]
  }

  // ---------- one node ----------

  ghost predicate CoreUnder(c: Core, top: Vector) {
    && AtMost(c.vv, top)
    && (c.recorded.Some? ==> AtMost(c.recorded.value, top))
    && (forall v :: v in c.sent ==> AtMost(v, top))
  }

  /** Every vector the node holds anywhere is at most `top`. */
  ghost predicate HeldUnder(s: System, top: Vector) {
    && CoreUnder(s.core, top)
    && (forall id :: id in s.jobs ==> AtMost(s.jobs[id].local, top) && AtMost(s.jobs[id].remote, top))
  }

  lemma JoinLeast(v: Vector, w: Vector, top: Vector)
    requires AtMost(v, top) && AtMost(w, top)
    ensures AtMost(Join(v, w), top)
  {
    forall n, b ensures Get(Join(v, w), n, b) <= Get(top, n, b) { JoinGet(v, w, n, b); }
  }

  lemma ReactUnder(c: Core, remote: Vector, m: MergeResult, top: Vector)
    requires CoreUnder(c, top) && AtMost(remote, top)
    ensures CoreUnder(React(c, remote, m), top)
  {
    if c.recorded.Some? { JoinLeast(c.recorded.value, remote, top); }
  }

  lemma SerialUnder(c: Core, remote: Vector, top: Vector)
    requires CoreUnder(c, top) && AtMost(remote, top)
    ensures CoreUnder(ReceiveSerial(c, remote), top)
  {
    JoinLeast(c.vv, remote, top);
    var m := ComputeMerge(c.vv, remote);
    ReactUnder(Install(c, m), remote, m, top);
  }

  lemma TimerUnder(c: Core, top: Vector)
    requires CoreUnder(c, top) && RecordCovered(c)
    ensures CoreUnder(TimerFires(c), top)
  {
    TimerMergeIsSilent(c);
  }

  /** A step that reads only vectors under `top` leaves only vectors under `top`. */
  lemma StepUnder(s: System, e: Event, top: Vector)
    requires Invariant(s) && HeldUnder(s, top)
    requires e.Receive? || e.Capture? ==> AtMost(e.remote, top)
    requires e.Update? ==> e.seqNo <= Get(top, e.node, e.epoch)
    ensures HeldUnder(Step(s, e), top)
  {
    match e
    case Receive(remote) => SerialUnder(s.core, remote, top);
    case Result(id) =>
      if id in s.jobs {
        ResultIsSerialExactly(s.core, s.jobs[id]);
        SerialUnder(s.core, s.jobs[id].remote, top);
      }
    case Capture(id, remote) =>
    case Drop(id) =>
    case Start => TimerUnder(s.core.(initialized := true), top);
    case Timer => TimerUnder(s.core, top);
    case BatchTimer =>
    case Update(n, b, seqNo, batched) =>
      var t := Step(s, e);
      if seqNo > 0 {
        assert t.core.vv == Put(s.core.vv, n, b, seqNo);
        forall n', b' ensures Get(t.core.vv, n', b') <= Get(top, n', b') {
          assert Get(s.core.vv, n', b') <= Get(top, n', b');
        }
      }
  }

  ghost predicate Grown(s: System, t: System) {
    AtMost(s.core.vv, t.core.vv) && s.core.sent <= t.core.sent
  }

  /** A step never lowers an entry and never unsends a vector; what it sends is the new vector. */
  lemma StepGrows(s: System, e: Event)
    requires Invariant(s) && Raises(s, e)
    ensures var t := Step(s, e);
            && Grown(s, t)
            && (forall i :: |s.core.sent| <= i < |t.core.sent| ==> t.core.sent[i] == t.core.vv)
            && (e.Receive? ==> AtMost(e.remote, t.core.vv))
            && (e.Result? && e.id in s.jobs ==> AtMost(s.jobs[e.id].remote, t.core.vv))
  {
    match e
    case Receive(remote) => JoinUpper(s.core.vv, remote);
    case Result(id) =>
      if id in s.jobs {
        ResultIsSerialExactly(s.core, s.jobs[id]);
        JoinUpper(s.core.vv, s.jobs[id].remote);
      }
    case Capture(id, remote) =>
    case Drop(id) =>
    case Start => TimerMergeIsSilent(s.core.(initialized := true));
    case Timer => TimerMergeIsSilent(s.core);
    case BatchTimer =>
    case Update(n, b, seqNo, batched) =>
      if seqNo > 0 { assert Step(s, e).core.vv == Put(s.core.vv, n, b, seqNo); }
  }

  // ---------- the group ----------

  ghost predicate OwnedBy(names: seq<Name>, i: int, n: Name) {
    0 <= i < |names| && names[i] == n
  }

  /** The row a node of that name holds about itself. */
  ghost function OwnRow(g: Group, n: Name): (r: Row)
    requires |g.names| == |g.nodes| && n in g.names
    ensures forall b :: b in r ==> r[b] > 0
    ensures exists i :: 0 <= i < |g.names| && g.names[i] == n && r == RowOf(g.nodes[i].core.vv, n)
  {
    var i :| 0 <= i < |g.names| && g.names[i] == n;
    RowOf(g.nodes[i].core.vv, n)
  }

  /** What the owners themselves hold for their own entries. */
  ghost function Top(g: Group): Vector
    requires |g.names| == |g.nodes|
  {
    map n | n in g.names && OwnRow(g, n) != map[] :: OwnRow(g, n)
  }

  lemma OwnRowIs(g: Group, i: nat)
    requires |g.names| == |g.nodes| && DistinctNames(g.names) && i < |g.names|
    ensures OwnRow(g, g.names[i]) == RowOf(g.nodes[i].core.vv, g.names[i])
  {
    var n := g.names[i];
    var j :| 0 <= j < |g.names| && g.names[j] == n && OwnRow(g, n) == RowOf(g.nodes[j].core.vv, n);
    assert !(i < j) && !(j < i);
  }

  lemma TopGet(g: Group, n: Name, b: uint64)
    requires |g.names| == |g.nodes| && DistinctNames(g.names)
    ensures forall i :: OwnedBy(g.names, i, n) ==> Get(Top(g), n, b) == Get(g.nodes[i].core.vv, n, b)
    ensures n !in g.names ==> Get(Top(g), n, b) == 0
  {
    forall i | OwnedBy(g.names, i, n) ensures Get(Top(g), n, b) == Get(g.nodes[i].core.vv, n, b) {
      assert g.names[i] == n;
      OwnRowIs(g, i);
    }
  }

  ghost predicate GroupInvariant(g: Group) {
    && |g.names| == |g.nodes| && DistinctNames(g.names)
    && (forall i :: 0 <= i < |g.nodes| ==> Invariant(g.nodes[i]) && HeldUnder(g.nodes[i], Top(g)))
  }

  ghost function InitialGroup(names: seq<Name>): Group {
    Group(names, seq(|names|, i => START))
  }

  lemma InitialGroupInvariant(names: seq<Name>)
    requires DistinctNames(names)
    ensures GroupInvariant(InitialGroup(names))
  {
    InitialInvariant();
  }

  lemma AtMostTransitive(u: Vector, v: Vector, w: Vector)
    requires AtMost(u, v) && AtMost(v, w)
    ensures AtMost(u, w)
  {
    forall n, b ensures Get(u, n, b) <= Get(w, n, b) {
      assert Get(u, n, b) <= Get(v, n, b) <= Get(w, n, b);
    }
  }

  lemma HeldUnderWeaken(s: System, top: Vector, top': Vector)
    requires HeldUnder(s, top) && AtMost(top, top')
    ensures HeldUnder(s, top')
  {
    AtMostTransitive(s.core.vv, top, top');
    if s.core.recorded.Some? { AtMostTransitive(s.core.recorded.value, top, top'); }
    forall v | v in s.core.sent ensures AtMost(v, top') { AtMostTransitive(v, top, top'); }
    forall id | id in s.jobs ensures AtMost(s.jobs[id].local, top') && AtMost(s.jobs[id].remote, top') {
      AtMostTransitive(s.jobs[id].local, top, top');
      AtMostTransitive(s.jobs[id].remote, top, top');
    }
  }

  /** Owners only ever raise their entries, so the bound itself only grows. */
  lemma TopGrows(g: Group, ge: GroupEvent)
    requires GroupInvariant(g) && Legal(g, ge)
    ensures AtMost(Top(g), Top(GroupStep(g, ge)))
    ensures forall i :: 0 <= i < |g.nodes| ==> Grown(g.nodes[i], GroupStep(g, ge).nodes[i])
  {
    var h := GroupStep(g, ge);
    forall i | 0 <= i < |g.nodes| ensures Grown(g.nodes[i], h.nodes[i]) {
      if i == ge.i { StepGrows(g.nodes[i], ge.e); }
    }
    forall n, b ensures Get(Top(g), n, b) <= Get(Top(h), n, b) {
      TopGet(g, n, b);
      TopGet(h, n, b);
      if n in g.names {
        var i :| 0 <= i < |g.names| && g.names[i] == n;
        assert OwnedBy(g.names, i, n);
        assert Grown(g.nodes[i], h.nodes[i]);
      }
    }
  }

  lemma NetworkUnder(g: Group, v: Vector)
    requires GroupInvariant(g) && InNetwork(g, v)
    ensures AtMost(v, Top(g))
  {
    var j :| 0 <= j < |g.nodes| && v in g.nodes[j].core.sent;
    assert HeldUnder(g.nodes[j], Top(g));
  }

  lemma GroupStepKeeps(g: Group, ge: GroupEvent)
    requires GroupInvariant(g) && Legal(g, ge)
    ensures GroupInvariant(GroupStep(g, ge))
  {
    if ge.i < |g.nodes| {
      var h := GroupStep(g, ge);
      TopGrows(g, ge);
      var s, e := g.nodes[ge.i], ge.e;
      StepKeepsInvariant(s, e);
      HeldUnderWeaken(s, Top(g), Top(h));
      if e.Receive? || e.Capture? {
        NetworkUnder(g, e.remote);
        AtMostTransitive(e.remote, Top(g), Top(h));
      }
      if e.Update? {
        TopGet(h, e.node, e.epoch);
        assert OwnedBy(h.names, ge.i, e.node);
        assert e.seqNo <= Get(h.nodes[ge.i].core.vv, e.node, e.epoch);
      }
      StepUnder(s, e, Top(h));
      forall i | 0 <= i < |h.nodes| ensures Invariant(h.nodes[i]) && HeldUnder(h.nodes[i], Top(h)) {
        if i != ge.i { HeldUnderWeaken(g.nodes[i], Top(g), Top(h)); }
      }
    }
  }

  ghost predicate GroupGrown(g: Group, h: Group) {
    && |h.nodes| == |g.nodes| && h.names == g.names
    && forall i :: 0 <= i < |g.nodes| ==> AtMost(g.nodes[i].core.vv, h.nodes[i].core.vv)
  }

  lemma GroupRun(g: Group, es: seq<GroupEvent>)
    requires GroupInvariant(g) && Admissible(GroupStep, Legal, g, es)
    ensures GroupInvariant(Run(GroupStep, g, es)) && GroupGrown(g, Run(GroupStep, g, es))
  {
    forall t, e | GroupInvariant(t) && Legal(t, e)
      ensures GroupInvariant(GroupStep(t, e)) && GroupGrown(t, GroupStep(t, e))
    {
      GroupStepKeeps(t, e);
      TopGrows(t, e);
      forall i | 0 <= i < |t.nodes| ensures AtMost(t.nodes[i].core.vv, GroupStep(t, e).nodes[i].core.vv) {
        assert Grown(t.nodes[i], GroupStep(t, e).nodes[i]);
      }
    }
    forall t, u, v | GroupGrown(t, u) && GroupGrown(u, v) ensures GroupGrown(t, v) {
      forall i | 0 <= i < |t.nodes| ensures AtMost(t.nodes[i].core.vv, v.nodes[i].core.vv) {
        AtMostTransitive(t.nodes[i].core.vv, u.nodes[i].core.vv, v.nodes[i].core.vv);
      }
    }
    Monotonicity(GroupStep, Legal, GroupInvariant, GroupGrown, g, es);
  }

  /**
   * However vectors are lost, duplicated, delayed and reordered: no node ever claims more of a
   * node's publications than that node itself, and nobody claims anything of a stranger.
   */
  lemma NobodyOutrunsTheOwner(names: seq<Name>, es: seq<GroupEvent>, o: nat, j: nat, b: uint64)
    requires DistinctNames(names) && o < |names| && j < |names|
    requires Admissible(GroupStep, Legal, InitialGroup(names), es)
    ensures var g := Run(GroupStep, InitialGroup(names), es);
            && |g.nodes| == |names|
            && Get(g.nodes[j].core.vv, names[o], b) <= Get(g.nodes[o].core.vv, names[o], b)
            && forall n :: n !in names ==> Get(g.nodes[j].core.vv, n, b) == 0
  {
    InitialGroupInvariant(names);
    GroupRun(InitialGroup(names), es);
    var g := Run(GroupStep, InitialGroup(names), es);
    TopGet(g, names[o], b);
    assert OwnedBy(g.names, o, names[o]);
    assert HeldUnder(g.nodes[j], Top(g));
    assert Get(g.nodes[j].core.vv, names[o], b) <= Get(Top(g), names[o], b);
    forall n | n !in names ensures Get(g.nodes[j].core.vv, n, b) == 0 {
      TopGet(g, n, b);
      assert Get(g.nodes[j].core.vv, n, b) <= Get(Top(g), n, b);
    }
  }

  /** Along every run every entry of every node only grows. */
  lemma EntriesAreMonotone(g: Group, es: seq<GroupEvent>, j: nat, n: Name, b: uint64)
    requires GroupInvariant(g) && Admissible(GroupStep, Legal, g, es) && j < |g.nodes|
    ensures var h := Run(GroupStep, g, es);
            |h.nodes| == |g.nodes| && Get(g.nodes[j].core.vv, n, b) <= Get(h.nodes[j].core.vv, n, b)
  {
    GroupRun(g, es);
  }

  // ---------- convergence ----------

  /**
   * A group together with who has heard of whom since some moment: know[i] lists the nodes whose
   * vector at that moment has reached node i, and every message and every queued job carries the
   * list of the vector in it.
   */
  datatype Tracked = Tracked(
    g: Group, know: seq<set<nat>>, sentKnow: seq<seq<set<nat>>>, jobKnow: seq<map<nat, set<nat>>>)

  /** Either a delivery of message k of node j, or a step that involves no message and no update. */
  datatype QuietEvent =
    | Deliver(i: nat, j: nat, k: nat)
    | DeliverToWorker(i: nat, j: nat, k: nat, id: nat)
    | Other(i: nat, e: Event)

  ghost predicate QuietLegal(t: Tracked, q: QuietEvent) {
    && q.i < |t.g.nodes|
    && (q.Deliver? || q.DeliverToWorker? ==> q.j < |t.g.nodes| && q.k < |t.g.nodes[q.j].core.sent|)
    && (q.Other? ==> !q.e.Receive? && !q.e.Capture? && !q.e.Update?)
  }

  ghost function AsGroupEvent(t: Tracked, q: QuietEvent): GroupEvent
    requires QuietLegal(t, q)
  {
    match q
    case Deliver(i, j, k) => At(i, Receive(t.g.nodes[j].core.sent[k]))
    case DeliverToWorker(i, j, k, id) => At(i, Capture(id, t.g.nodes[j].core.sent[k]))
    case Other(i, e) => At(i, e)
  }

  ghost predicate Shaped(t: Tracked) {
    && |t.know| == |t.sentKnow| == |t.jobKnow| == |t.g.nodes| == |t.g.names|
    && (forall j :: 0 <= j < |t.g.nodes| ==> |t.sentKnow[j]| == |t.g.nodes[j].core.sent|)
    && (forall j :: 0 <= j < |t.g.nodes| ==> t.jobKnow[j].Keys == t.g.nodes[j].jobs.Keys)
  }

  /** What node i knows after the event. */
  ghost function Learns(t: Tracked, q: QuietEvent): set<nat>
    requires Shaped(t) && QuietLegal(t, q)
  {
    match q
    case Deliver(i, j, k) => t.know[i] + t.sentKnow[j][k]
    case DeliverToWorker(i, _, _, _) => t.know[i]
    case Other(i, e) =>
      if e.Result? && e.id in t.jobKnow[i] then t.know[i] + t.jobKnow[i][e.id] else t.know[i]
  }

  ghost function JobsKnow(t: Tracked, q: QuietEvent): map<nat, set<nat>>
    requires Shaped(t) && QuietLegal(t, q)
  {
    match q
    case Deliver(i, _, _) => t.jobKnow[i]
    case DeliverToWorker(i, j, k, id) => t.jobKnow[i][id := t.sentKnow[j][k]]
    case Other(i, e) => if e.Result? || e.Drop? then t.jobKnow[i] - {e.id} else t.jobKnow[i]
  }

  ghost function QuietStep(t: Tracked, q: QuietEvent): Tracked {
    if Shaped(t) && QuietLegal(t, q) then
      var h := GroupStep(t.g, AsGroupEvent(t, q));
      var known := Learns(t, q);
      var added := |h.nodes[q.i].core.sent| - |t.g.nodes[q.i].core.sent|;
      Tracked(h, t.know[q.i := known],
              t.sentKnow[q.i := t.sentKnow[q.i] + if added <= 0 then [] else seq(added, _ => known)],
              t.jobKnow[q.i := JobsKnow(t, q)])
    else t
  }

  ghost function Watch(g: Group): Tracked
    requires |g.names| == |g.nodes|
  {
    Tracked(g, seq(|g.nodes|, i => {i}),
            seq(|g.nodes|, i requires 0 <= i < |g.nodes| => seq(|g.nodes[i].core.sent|, _ => {})),
            seq(|g.nodes|, i requires 0 <= i < |g.nodes| => map id | id in g.nodes[i].jobs :: {}))
  }

  /** v includes what each of the listed nodes held when the publishing stopped. */
  ghost predicate Carries(v: Vector, who: set<nat>, base: Group) {
    forall k :: k in who ==> k < |base.nodes| && AtMost(base.nodes[k].core.vv, v)
  }

  ghost predicate NodeTracks(s: System, know: set<nat>, sentKnow: seq<set<nat>>, jobKnow: map<nat, set<nat>>,
                             base: Group)
  {
    && Carries(s.core.vv, know, base)
    && |sentKnow| == |s.core.sent|
    && (forall k :: 0 <= k < |sentKnow| ==> Carries(s.core.sent[k], sentKnow[k], base))
    && jobKnow.Keys == s.jobs.Keys
    && (forall id :: id in s.jobs ==> Carries(s.jobs[id].remote, jobKnow[id], base))
  }

  ghost predicate Tracks(t: Tracked, base: Group) {
    && GroupInvariant(t.g) && Shaped(t)
    && t.g.names == base.names && |base.nodes| == |base.names| && Top(t.g) == Top(base)
    && forall j :: 0 <= j < |t.g.nodes| ==> NodeTracks(t.g.nodes[j], t.know[j], t.sentKnow[j], t.jobKnow[j], base)
  }

  lemma CarriesMore(v: Vector, w: Vector, who: set<nat>, base: Group)
    requires Carries(v, who, base) && AtMost(v, w)
    ensures Carries(w, who, base)
  {
    forall k | k in who ensures k < |base.nodes| && AtMost(base.nodes[k].core.vv, w) {
      AtMostTransitive(base.nodes[k].core.vv, v, w);
    }
  }

  /** With nobody publishing, the owners' own entries stand still. */
  lemma QuietTop(g: Group, ge: GroupEvent)
    requires GroupInvariant(g) && Legal(g, ge) && !ge.e.Update?
    ensures Top(GroupStep(g, ge)) == Top(g)
  {
    var h := GroupStep(g, ge);
    TopGrows(g, ge);
    if ge.i < |g.nodes| {
      if ge.e.Receive? || ge.e.Capture? { NetworkUnder(g, ge.e.remote); }
      StepUnder(g.nodes[ge.i], ge.e, Top(g));
    }
    forall n, b ensures Get(Top(h), n, b) == Get(Top(g), n, b) {
      TopGet(g, n, b);
      TopGet(h, n, b);
      if n in g.names {
        var i :| 0 <= i < |g.names| && g.names[i] == n;
        assert OwnedBy(g.names, i, n);
        assert HeldUnder(h.nodes[i], Top(g));
        assert Get(h.nodes[i].core.vv, n, b) <= Get(Top(g), n, b) <= Get(Top(h), n, b);
      }
    }
    Extensional(Top(h), Top(g));
  }

  lemma QuietIsLegal(t: Tracked, q: QuietEvent)
    requires GroupInvariant(t.g) && QuietLegal(t, q)
    ensures Legal(t.g, AsGroupEvent(t, q)) && !AsGroupEvent(t, q).e.Update?
  {
    if !q.Other? { assert t.g.nodes[q.j].core.sent[q.k] in t.g.nodes[q.j].core.sent; }
  }

  lemma MessageCarries(t: Tracked, base: Group, j: nat, k: nat)
    requires Tracks(t, base) && j < |t.g.nodes| && k < |t.g.nodes[j].core.sent|
    ensures Carries(t.g.nodes[j].core.sent[k], t.sentKnow[j][k], base)
  {
    assert NodeTracks(t.g.nodes[j], t.know[j], t.sentKnow[j], t.jobKnow[j], base);
  }

  lemma CarriesUnion(v: Vector, a: set<nat>, b: set<nat>, base: Group)
    requires Carries(v, a, base) && Carries(v, b, base)
    ensures Carries(v, a + b, base)
  {
  }

  /** What the stepping node now knows is carried by its new vector. */
  lemma LearnsCarried(t: Tracked, q: QuietEvent, base: Group)
    requires Tracks(t, base) && QuietLegal(t, q)
    ensures Carries(Step(t.g.nodes[q.i], AsGroupEvent(t, q).e).core.vv, Learns(t, q), base)
  {
    var i, e := q.i, AsGroupEvent(t, q).e;
    var s := t.g.nodes[i];
    assert NodeTracks(s, t.know[i], t.sentKnow[i], t.jobKnow[i], base);
    QuietIsLegal(t, q);
    StepGrows(s, e);
    var v := Step(s, e).core.vv;
    CarriesMore(s.core.vv, v, t.know[i], base);
    if q.Deliver? {
      MessageCarries(t, base, q.j, q.k);
      CarriesMore(e.remote, v, t.sentKnow[q.j][q.k], base);
      CarriesUnion(v, t.know[i], t.sentKnow[q.j][q.k], base);
    } else if e.Result? && e.id in s.jobs {
      CarriesMore(s.jobs[e.id].remote, v, t.jobKnow[i][e.id], base);
      CarriesUnion(v, t.know[i], t.jobKnow[i][e.id], base);
    }
  }

  /** Its new messages are its new vector, and a job carries what its message carried. */
  lemma NodeStepTracks(t: Tracked, q: QuietEvent, base: Group)
    requires Tracks(t, base) && QuietLegal(t, q)
    ensures var u := QuietStep(t, q);
            NodeTracks(u.g.nodes[q.i], u.know[q.i], u.sentKnow[q.i], u.jobKnow[q.i], base)
  {
    var i, e := q.i, AsGroupEvent(t, q).e;
    var s := t.g.nodes[i];
    var r := Step(s, e);
    assert NodeTracks(s, t.know[i], t.sentKnow[i], t.jobKnow[i], base);
    LearnsCarried(t, q, base);
    SentCarried(t, q, base, r);
    JobsCarried(t, q, base, r);
  }

  lemma SentCarried(t: Tracked, q: QuietEvent, base: Group, r: System)
    requires Tracks(t, base) && QuietLegal(t, q) && r == Step(t.g.nodes[q.i], AsGroupEvent(t, q).e)
    requires Carries(r.core.vv, Learns(t, q), base)
    ensures var known := QuietStep(t, q).sentKnow[q.i];
            |known| == |r.core.sent| && forall k :: 0 <= k < |known| ==> Carries(r.core.sent[k], known[k], base)
  {
    QuietIsLegal(t, q);
    StepGrows(t.g.nodes[q.i], AsGroupEvent(t, q).e);
    var known := QuietStep(t, q).sentKnow[q.i];
    forall k | 0 <= k < |known| ensures Carries(r.core.sent[k], known[k], base) {
      if k < |t.sentKnow[q.i]| {
        MessageCarries(t, base, q.i, k);
        assert r.core.sent[k] == t.g.nodes[q.i].core.sent[k];
      }
    }
  }

  lemma JobsCarried(t: Tracked, q: QuietEvent, base: Group, r: System)
    requires Tracks(t, base) && QuietLegal(t, q) && r == Step(t.g.nodes[q.i], AsGroupEvent(t, q).e)
    ensures var known := JobsKnow(t, q);
            known.Keys == r.jobs.Keys && forall id :: id in r.jobs ==> Carries(r.jobs[id].remote, known[id], base)
  {
    assert NodeTracks(t.g.nodes[q.i], t.know[q.i], t.sentKnow[q.i], t.jobKnow[q.i], base);
    if q.DeliverToWorker? { MessageCarries(t, base, q.j, q.k); }
  }

  lemma QuietStepTracks(t: Tracked, q: QuietEvent, base: Group)
    requires Tracks(t, base) && QuietLegal(t, q)
    ensures Tracks(QuietStep(t, q), base)
  {
    QuietIsLegal(t, q);
    GroupStepKeeps(t.g, AsGroupEvent(t, q));
    QuietTop(t.g, AsGroupEvent(t, q));
    NodeStepTracks(t, q, base);
    var u := QuietStep(t, q);
    assert NodeTracks(u.g.nodes[q.i], u.know[q.i], u.sentKnow[q.i], u.jobKnow[q.i], base);
    forall j | 0 <= j < |u.g.nodes| ensures NodeTracks(u.g.nodes[j], u.know[j], u.sentKnow[j], u.jobKnow[j], base) {
      if j != q.i { assert NodeTracks(t.g.nodes[j], t.know[j], t.sentKnow[j], t.jobKnow[j], base); }
    }
  }

  lemma {:induction false} QuietRunTracks(t: Tracked, qs: seq<QuietEvent>, base: Group)
    requires Tracks(t, base) && Admissible(QuietStep, QuietLegal, t, qs)
    ensures Tracks(Run(QuietStep, t, qs), base)
    decreases |qs|
  {
    if qs != [] {
      QuietStepTracks(t, qs[0], base);
      QuietRunTracks(QuietStep(t, qs[0]), qs[1..], base);
    }
  }

  /** The owners' entries are the join of all vectors of the group. */
  lemma TopIsGlobalJoin(g: Group, v: Vector)
    requires GroupInvariant(g)
    ensures forall j :: 0 <= j < |g.nodes| ==> AtMost(g.nodes[j].core.vv, Top(g))
    ensures (forall j :: 0 <= j < |g.nodes| ==> AtMost(g.nodes[j].core.vv, v)) ==> AtMost(Top(g), v)
  {
    if forall j :: 0 <= j < |g.nodes| ==> AtMost(g.nodes[j].core.vv, v) {
      forall n, b ensures Get(Top(g), n, b) <= Get(v, n, b) {
        TopGet(g, n, b);
        if n in g.names {
          var i :| 0 <= i < |g.names| && g.names[i] == n;
          assert OwnedBy(g.names, i, n) && AtMost(g.nodes[i].core.vv, v);
        }
      }
    }
  }

  lemma FullKnowledge(t: Tracked, base: Group, i: nat)
    requires GroupInvariant(base) && Tracks(t, base) && i < |t.g.nodes|
    requires forall k :: 0 <= k < |base.nodes| ==> k in t.know[i]
    ensures t.g.nodes[i].core.vv == Top(base)
  {
    var v := t.g.nodes[i].core.vv;
    assert NodeTracks(t.g.nodes[i], t.know[i], t.sentKnow[i], t.jobKnow[i], base);
    assert forall k :: 0 <= k < |base.nodes| ==> AtMost(base.nodes[k].core.vv, v);
    TopIsGlobalJoin(base, v);
    assert HeldUnder(t.g.nodes[i], Top(t.g));
    forall n, b ensures Get(v, n, b) == Get(Top(base), n, b) {
      assert Get(v, n, b) <= Get(Top(t.g), n, b) && Get(Top(base), n, b) <= Get(v, n, b);
    }
    Extensional(v, Top(base));
  }

  lemma WatchTracks(g: Group)
    requires GroupInvariant(g)
    ensures Tracks(Watch(g), g)
  {
    var t := Watch(g);
    forall j | 0 <= j < |g.nodes| ensures NodeTracks(t.g.nodes[j], t.know[j], t.sentKnow[j], t.jobKnow[j], g) {
      assert t.know[j] == {j} && |t.sentKnow[j]| == |g.nodes[j].core.sent|;
    }
  }

  /**
   * Once publishing stops, any deliveries, serial or through the workers, that chain every node's
   * vector to every other node leave all vectors equal to the join of the group's vectors.
   */
  lemma ChainedDeliveriesConverge(g: Group, qs: seq<QuietEvent>)
    requires GroupInvariant(g) && Admissible(QuietStep, QuietLegal, Watch(g), qs)
    ensures var t := Run(QuietStep, Watch(g), qs);
            |t.g.nodes| == |t.know| == |g.nodes| &&
            forall i :: 0 <= i < |g.nodes| && (forall k :: 0 <= k < |g.nodes| ==> k in t.know[i]) ==>
              t.g.nodes[i].core.vv == Top(g)
  {
    var t := Run(QuietStep, Watch(g), qs);
    WatchTracks(g);
    QuietRunTracks(Watch(g), qs, g);
    forall i | 0 <= i < |g.nodes| && (forall k :: 0 <= k < |g.nodes| ==> k in t.know[i])
      ensures t.g.nodes[i].core.vv == Top(g)
    {
      FullKnowledge(t, g, i);
    }
  }
}
