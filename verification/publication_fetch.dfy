/**
 * The publication fetch machine (svspubsub.cpp): which publications are asked for, in what order,
 * how many at a time, and how often.
 */
module PublicationFetch {
  import opened Names
  import opened Runs

  datatype Key = Key(node: Name, epoch: uint64, seqNo: uint64)
  type Session = (Name, uint64)

  datatype Status = Queued | Fetching | Backoff | Delivered | Expired

  /** Clock readings are positive milliseconds; 0 is the clock's epoch, which stands for "not set". */
  type Time = t: int | 0 < t witness 1

  datatype FetchState = FetchState(
    status: Status, attempts: nat, firstQueued: nat, deadline: int, nextAttempt: int,
    attemptStarted: nat, lifetime: int, backoff: int)

  datatype Options = Options(
    maxPubAge: int, retries: int, interestLifetime: int, minLifetime: int, maxLifetime: int,
    failureBackoff: int, maxBackoff: int, window: nat)

  datatype Fetches = Fetches(subs: map<Key, seq<nat>>, states: map<Key, FetchState>, estimates: map<Session, int>)

  datatype Event =
    | Add(key: Key, sub: nat, now: Time)
    | FetchAll(now: Time, cached: set<Key>, order: seq<Key>)
    | FetchFailed(key: Key, now: Time)
    | DataArrived(key: Key, now: Time, encapsulated: bool)
    | CleanUp(key: Key)

  const UNSET := FetchState(Queued, 0, 0, 0, 0, 0, 0, 0)

  function Clamp(value: int, lower: int, upper: int): int {
    var raised := if value < lower then lower else value;
    if upper < raised then upper else raised
  }

  /** Integer division by two rounds towards zero. */
  function Half(x: int): int { if x >= 0 then x / 2 else -(-x / 2) }

  function SessionOf(key: Key): Session { (key.node, key.epoch) }

  function Window(o: Options): nat { if o.window < 1 then 1 else o.window }

  function ClampLifetime(o: Options, value: int): int { Clamp(value, o.minLifetime, o.maxLifetime) }

  // ---------- single-publication steps ----------

  function Enqueued(o: Options, st: FetchState, lifetime: int, now: Time): FetchState {
    st.(status := Queued, firstQueued := now, deadline := now + (if o.maxPubAge > 0 then o.maxPubAge else 30000),
        nextAttempt := now, lifetime := ClampLifetime(o, lifetime), backoff := o.failureBackoff)
  }

  function StateOf(p: Fetches, key: Key): FetchState {
    if key in p.states then p.states[key] else UNSET
  }

  ghost function DoAdd(o: Options, p: Fetches, key: Key, sub: nat, now: Time): Fetches {
    var subs := p.subs[key := (if key in p.subs then p.subs[key] else []) + [sub]];
    var st := StateOf(p, key);
    var s := SessionOf(key);
    var lifetime := if s in p.estimates && p.estimates[s] > 0 then p.estimates[s] else o.interestLifetime;
    p.(subs := subs, states := p.states[key := if st.firstQueued == 0 then Enqueued(o, st, lifetime, now) else st])
  }

  function Removed(p: Fetches, key: Key): Fetches {
    p.(subs := p.subs - {key}, states := p.states - {key})
  }

  predicate Exhausted(o: Options, st: FetchState, now: Time) {
    (o.retries >= 0 && st.attempts > o.retries) || now >= st.deadline
  }

  function BackedOff(o: Options, st: FetchState, now: Time): FetchState {
    var backoff := if st.backoff <= 0 then o.failureBackoff else st.backoff;
    st.(status := Backoff, nextAttempt := now + backoff, lifetime := ClampLifetime(o, st.lifetime * 2),
        backoff := Clamp(backoff * 2, o.failureBackoff, o.maxBackoff))
  }

  ghost function DoFail(o: Options, p: Fetches, key: Key, now: Time): Fetches {
    if key !in p.subs || key !in p.states then p
    else if Exhausted(o, p.states[key], now) then Removed(p, key)
    else
      var st := BackedOff(o, p.states[key], now);
      p.(states := p.states[key := st], estimates := p.estimates[SessionOf(key) := st.lifetime])
  }

  /** The session's lifetime estimate after an answer: halfway between the old one and twice the round trip. */
  function NewEstimate(o: Options, p: Fetches, key: Key, now: Time): int
    requires key in p.states
  {
    var s := SessionOf(key);
    var elapsed := now - p.states[key].attemptStarted;
    var target := ClampLifetime(o, (if elapsed <= 0 then 1 else elapsed) * 2);
    var old_ := if s in p.estimates then p.estimates[s] else 0;
    if old_ <= 0 then target else ClampLifetime(o, Half(old_ + target))
  }

  ghost function DoSucceed(o: Options, p: Fetches, key: Key, now: Time): Fetches {
    if key !in p.states then p
    else
      var st := p.states[key];
      if st.attemptStarted == 0 then p.(states := p.states[key := st.(status := Delivered)])
      else
        var estimate := NewEstimate(o, p, key, now);
        p.(states := p.states[key := st.(status := Delivered, lifetime := estimate)],
           estimates := p.estimates[SessionOf(key) := estimate])
  }

  // ---------- one round of fetching ----------

  function Examined(o: Options, st: FetchState, now: Time): FetchState {
    var st := if st.firstQueued == 0 then Enqueued(o, st, o.interestLifetime, now) else st;
    if st.status in {Queued, Backoff} && now >= st.deadline then st.(status := Expired) else st
  }

  ghost function Scan(o: Options, p: Fetches, now: Time): Fetches {
    p.(states := map key | key in p.states.Keys + p.subs.Keys ::
         if key in p.subs then Examined(o, StateOf(p, key), now) else p.states[key])
  }

  ghost function ExpiredKeys(p: Fetches): set<Key> {
    set key | key in p.states && key in p.subs && p.states[key].status.Expired?
  }

  ghost function Expire(p: Fetches): Fetches {
    p.(subs := p.subs - ExpiredKeys(p), states := p.states - ExpiredKeys(p))
  }

  predicate Due(st: FetchState, now: Time) {
    st.status in {Queued, Backoff} && st.nextAttempt <= now
  }

  ghost predicate IsReady(p: Fetches, key: Key, now: Time) {
    key in p.subs && key in p.states && Due(p.states[key], now)
  }

  /** Fewest attempts first, then newest bootstrap, then newest number. */
  predicate Before(states: map<Key, FetchState>, a: Key, b: Key)
    requires a in states && b in states
  {
    if states[a].attempts != states[b].attempts then states[a].attempts < states[b].attempts
    else if a.epoch != b.epoch then a.epoch > b.epoch
    else a.seqNo > b.seqNo
  }

  predicate Distinct(order: seq<Key>) {
    forall i, j :: 0 <= i < j < |order| ==> order[i] != order[j]
  }

  predicate InOrder(states: map<Key, FetchState>, order: seq<Key>) {
    && (forall i :: 0 <= i < |order| ==> order[i] in states)
    && (forall i, j :: 0 <= i < j < |order| ==> !Before(states, order[j], order[i]))
  }

  /** Any order std::sort may leave the ready keys in; it may break ties as it likes. */
  ghost predicate IsSchedule(p: Fetches, now: Time, order: seq<Key>) {
    && Distinct(order) && (forall key :: key in order <==> IsReady(p, key, now))
    && InOrder(p.states, order)
  }

  function Dispatched(o: Options, st: FetchState, now: Time): FetchState {
    st.(status := Fetching, attemptStarted := now, lifetime := ClampLifetime(o, st.lifetime),
        attempts := st.attempts + 1)
  }

  ghost predicate Skipped(p: Fetches, key: Key, now: Time) {
    key !in p.subs || key !in p.states || p.states[key].status.Fetching? || p.states[key].nextAttempt > now
  }

  /** A cached packet settles the publication at once; otherwise it is asked for. */
  ghost function Advance(o: Options, p: Fetches, now: Time, cached: set<Key>, key: Key): Fetches {
    if key in cached || key !in p.states then Removed(DoSucceed(o, p, key, now), key)
    else p.(states := p.states[key := Dispatched(o, p.states[key], now)])
  }

  ghost function Dispatch(o: Options, p: Fetches, now: Time, cached: set<Key>, order: seq<Key>, inFlight: nat): Fetches
    decreases |order|
  {
    if order == [] || inFlight >= Window(o) then p
    else if Skipped(p, order[0], now) then Dispatch(o, p, now, cached, order[1..], inFlight)
    else
      var started := if order[0] in cached then inFlight else inFlight + 1;
      Dispatch(o, Advance(o, p, now, cached, order[0]), now, cached, order[1..], started)
  }

  ghost function FetchingKeys(p: Fetches): set<Key> {
    set key | key in p.states && p.states[key].status.Fetching?
  }

  ghost function InFlight(p: Fetches): nat {
    |set key | key in p.subs && key in p.states && p.states[key].status.Fetching?|
  }

  ghost function Prepared(o: Options, p: Fetches, now: Time): Fetches { Expire(Scan(o, p, now)) }

  ghost function DoFetchAll(o: Options, p: Fetches, now: Time, cached: set<Key>, order: seq<Key>): Fetches {
    Dispatch(o, Prepared(o, p, now), now, cached, order, InFlight(Scan(o, p, now)))
  }

  ghost function Step(o: Options): (Fetches, Event) -> Fetches {
    (p: Fetches, e: Event) =>
      match e
      case Add(key, sub, now) => DoAdd(o, p, key, sub, now)
      case FetchAll(now, cached, order) => DoFetchAll(o, p, now, cached, order)
      case FetchFailed(key, now) => DoFail(o, p, key, now)
      case DataArrived(key, now, encapsulated) =>
        if encapsulated then DoSucceed(o, p, key, now) else DoFail(o, p, key, now)
      case CleanUp(key) => Removed(p, key)
  }

  /** The only thing asked of an event: a round dispatches in some order the sort may produce. */
  ghost function Ok(o: Options): (Fetches, Event) -> bool {
    (p: Fetches, e: Event) => e.FetchAll? ==> IsSchedule(Prepared(o, p, e.now), e.now, e.order)
  }

  // ---------- the invariant ----------

  predicate InRange(o: Options, lifetime: int) { o.minLifetime <= lifetime <= o.maxLifetime }

  ghost predicate Sound(o: Options, st: FetchState) {
    && st.firstQueued > 0 && !st.status.Expired? && InRange(o, st.lifetime)
    && (st.status.Fetching? ==> st.attempts > 0 && st.attemptStarted > 0)
    && (o.retries >= 0 ==>
        st.attempts <= o.retries + 1 && (st.status in {Queued, Backoff} ==> st.attempts <= o.retries))
  }

  ghost predicate AllSound(o: Options, p: Fetches) {
    && (forall key :: key in p.states ==> Sound(o, p.states[key]))
    && (forall s :: s in p.estimates ==> InRange(o, p.estimates[s]))
  }

  ghost predicate Invariant(o: Options, p: Fetches) {
    p.subs.Keys == p.states.Keys && |FetchingKeys(p)| <= Window(o) && AllSound(o, p)
  }

  lemma FewerFetching(p: Fetches, q: Fetches)
    requires FetchingKeys(q) <= FetchingKeys(p)
    ensures |FetchingKeys(q)| <= |FetchingKeys(p)|
  {
    hide FetchingKeys;
    SubsetSize(FetchingKeys(q), FetchingKeys(p));
  }

  lemma {:induction false} SubsetSize<T>(a: set<T>, b: set<T>)
    requires a <= b
    ensures |a| <= |b|
  {
    if a != {} {
      var x :| x in a;
      SubsetSize(a - {x}, b - {x});
    }
  }

  lemma AddKeeps(o: Options, p: Fetches, key: Key, sub: nat, now: Time)
    requires Invariant(o, p) && o.minLifetime <= o.maxLifetime
    ensures Invariant(o, DoAdd(o, p, key, sub, now))
  {
    FewerFetching(p, DoAdd(o, p, key, sub, now));
  }

  lemma RemovedKeeps(o: Options, p: Fetches, key: Key)
    requires Invariant(o, p)
    ensures Invariant(o, Removed(p, key))
  {
    FewerFetching(p, Removed(p, key));
  }

  lemma FailKeeps(o: Options, p: Fetches, key: Key, now: Time)
    requires Invariant(o, p) && o.minLifetime <= o.maxLifetime
    ensures Invariant(o, DoFail(o, p, key, now))
  {
    FewerFetching(p, DoFail(o, p, key, now));
  }

  lemma SucceedKeeps(o: Options, p: Fetches, key: Key, now: Time)
    requires Invariant(o, p) && o.minLifetime <= o.maxLifetime
    ensures Invariant(o, DoSucceed(o, p, key, now))
  {
    FewerFetching(p, DoSucceed(o, p, key, now));
  }

  lemma ScanExamines(o: Options, p: Fetches, now: Time)
    requires Invariant(o, p)
    ensures var s := Scan(o, p, now);
      && s.subs == p.subs && s.estimates == p.estimates && s.states.Keys == p.states.Keys
      && forall key :: key in p.states ==> s.states[key] == Examined(o, p.states[key], now)
  {
  }

  lemma PreparedKeeps(o: Options, p: Fetches, now: Time)
    requires Invariant(o, p)
    ensures var q := Prepared(o, p, now);
      && Invariant(o, q) && FetchingKeys(q) == FetchingKeys(p) && InFlight(Scan(o, p, now)) == |FetchingKeys(q)|
      && forall key :: key in q.states ==>
          key in p.states && q.states[key] == p.states[key]
          && (q.states[key].status in {Queued, Backoff} ==> now < q.states[key].deadline)
    ensures forall key :: key in p.states && key !in Prepared(o, p, now).states ==>
        p.states[key].status in {Queued, Backoff} && p.states[key].deadline <= now
  {
    hide Scan;
    ScanExamines(o, p, now);
    var s, q := Scan(o, p, now), Prepared(o, p, now);
    assert FetchingKeys(q) == FetchingKeys(p);
    assert (set key | key in s.subs && key in s.states && s.states[key].status.Fetching?) == FetchingKeys(p);
  }

  ghost predicate AllReady(p: Fetches, now: Time, order: seq<Key>) {
    Distinct(order) && forall key :: key in order ==> IsReady(p, key, now)
  }

  lemma StartsFetching(o: Options, p: Fetches, now: Time, cached: set<Key>, key: Key)
    requires Invariant(o, p) && o.minLifetime <= o.maxLifetime && |FetchingKeys(p)| < Window(o)
    requires IsReady(p, key, now) && key !in cached
    ensures var q := Advance(o, p, now, cached, key);
      Invariant(o, q) && |FetchingKeys(q)| == |FetchingKeys(p)| + 1
  {
    assert key !in FetchingKeys(p);
    assert FetchingKeys(Advance(o, p, now, cached, key)) == FetchingKeys(p) + {key};
  }

  lemma TakenFromCache(o: Options, p: Fetches, now: Time, cached: set<Key>, key: Key)
    requires Invariant(o, p) && o.minLifetime <= o.maxLifetime && IsReady(p, key, now) && key in cached
    ensures var q := Advance(o, p, now, cached, key);
      Invariant(o, q) && FetchingKeys(q) == FetchingKeys(p)
  {
    var m := DoSucceed(o, p, key, now);
    SucceedKeeps(o, p, key, now);
    RemovedKeeps(o, m, key);
    assert FetchingKeys(Removed(m, key)) == FetchingKeys(p);
  }

  lemma AdvanceKeeps(o: Options, p: Fetches, now: Time, cached: set<Key>, key: Key)
    requires Invariant(o, p) && o.minLifetime <= o.maxLifetime && |FetchingKeys(p)| < Window(o) && IsReady(p, key, now)
    ensures var q := Advance(o, p, now, cached, key);
      && Invariant(o, q) && |FetchingKeys(q)| == |FetchingKeys(p)| + if key in cached then 0 else 1
  {
    hide Invariant, Advance, FetchingKeys, IsReady;
    if key in cached { TakenFromCache(o, p, now, cached, key); } else { StartsFetching(o, p, now, cached, key); }
  }

  lemma AdvanceTouchesOne(o: Options, p: Fetches, now: Time, cached: set<Key>, key: Key)
    requires key in p.states
    ensures var q := Advance(o, p, now, cached, key);
      if key in cached then q.subs == p.subs - {key} && q.states == p.states - {key}
      else q == p.(states := p.states[key := Dispatched(o, p.states[key], now)])
  {
  }

  /** What one round has done to the first n keys of its schedule, and to nothing else. */
  ghost predicate Served(o: Options, p: Fetches, q: Fetches, now: Time, cached: set<Key>, order: seq<Key>, n: nat)
    requires n <= |order|
  {
    && (forall i :: 0 <= i < n ==> order[i] in p.states)
    && (forall i :: 0 <= i < n && order[i] in cached ==> order[i] !in q.states && order[i] !in q.subs)
    && (forall i :: 0 <= i < n && order[i] !in cached ==>
        order[i] in q.states && q.states[order[i]] == Dispatched(o, p.states[order[i]], now))
    && (forall key :: key !in order[..n] ==> (key in q.states <==> key in p.states))
    && (forall key :: key !in order[..n] && key in p.states ==> q.states[key] == p.states[key])
  }

  lemma ServeOneMore(o: Options, p: Fetches, m: Fetches, q: Fetches, now: Time, cached: set<Key>, order: seq<Key>,
      n: nat)
    requires n < |order| && Distinct(order) && order[0] in p.states
    requires Served(o, m, q, now, cached, order[1..], n)
    requires order[0] in cached ==>
        m.subs == p.subs - {order[0]} && m.states == p.states - {order[0]} && q.subs.Keys == q.states.Keys
    requires order[0] !in cached ==> m == p.(states := p.states[order[0] := Dispatched(o, p.states[order[0]], now)])
    ensures Served(o, p, q, now, cached, order, n + 1)
  {
    var rest := order[1..];
    assert order[..n + 1] == [order[0]] + rest[..n];
    assert order[0] !in rest;
    forall i | 1 <= i < n + 1 ensures order[i] == rest[i - 1] && order[i] != order[0] {}
  }

  lemma {:induction false} DispatchServes(o: Options, p: Fetches, now: Time, cached: set<Key>, order: seq<Key>)
      returns (n: nat)
    requires Invariant(o, p) && o.minLifetime <= o.maxLifetime && AllReady(p, now, order)
    ensures var q := Dispatch(o, p, now, cached, order, |FetchingKeys(p)|);
      && Invariant(o, q) && n <= |order| && Served(o, p, q, now, cached, order, n)
      && (n < |order| ==> |FetchingKeys(q)| == Window(o))
    decreases |order|
  {
    hide Advance, Dispatched, Skipped, FetchingKeys, Invariant, AllReady, Served, IsReady;
    if order == [] || |FetchingKeys(p)| >= Window(o) {
      n := 0;
      ServedNone(o, p, now, cached, order);
    } else {
      var key, rest := order[0], order[1..];
      HeadReady(p, now, order);
      var m := Advance(o, p, now, cached, key);
      AdvanceTouchesOne(o, p, now, cached, key);
      RestReady(p, m, now, order);
      AdvanceKeeps(o, p, now, cached, key);
      n := DispatchServes(o, m, now, cached, rest);
      var q := Dispatch(o, m, now, cached, rest, |FetchingKeys(m)|);
      SameKeys(o, q);
      ServeOneMore(o, p, m, q, now, cached, order, n);
      n := n + 1;
    }
  }

  lemma ServedNone(o: Options, p: Fetches, now: Time, cached: set<Key>, order: seq<Key>)
    requires Invariant(o, p)
    ensures Served(o, p, p, now, cached, order, 0) && |FetchingKeys(p)| <= Window(o)
  {
  }

  lemma HeadReady(p: Fetches, now: Time, order: seq<Key>)
    requires order != [] && AllReady(p, now, order)
    ensures IsReady(p, order[0], now) && !Skipped(p, order[0], now) && order[0] in p.states && order[0] in p.subs
        && Distinct(order)
  {
    assert IsReady(p, order[0], now);
  }

  lemma SameKeys(o: Options, q: Fetches)
    requires Invariant(o, q)
    ensures q.subs.Keys == q.states.Keys
  {
  }

  lemma RestReady(p: Fetches, m: Fetches, now: Time, order: seq<Key>)
    requires order != [] && AllReady(p, now, order)
    requires forall key :: key != order[0] && key in p.subs ==> key in m.subs
    requires forall key :: key != order[0] && key in p.states ==> key in m.states && m.states[key] == p.states[key]
    ensures AllReady(m, now, order[1..])
  {
    forall key | key in order[1..] ensures IsReady(m, key, now) { assert IsReady(p, key, now); }
  }

  // ---------- one round, all rounds ----------

  lemma FetchAllKeeps(o: Options, p: Fetches, now: Time, cached: set<Key>, order: seq<Key>)
    requires Invariant(o, p) && o.minLifetime <= o.maxLifetime && IsSchedule(Prepared(o, p, now), now, order)
    ensures Invariant(o, DoFetchAll(o, p, now, cached, order))
  {
    PreparedKeeps(o, p, now);
    hide Prepared, Scan, Invariant, InOrder, InFlight;
    var n := DispatchServes(o, Prepared(o, p, now), now, cached, order);
  }

  /** A key served ahead of one left out stands before it in the schedule. */
  lemma ServedOutranks(o: Options, m: Fetches, q: Fetches, now: Time, cached: set<Key>, order: seq<Key>, n: nat,
      started: Key, waiting: Key)
    requires n <= |order| && IsSchedule(m, now, order) && Served(o, m, q, now, cached, order, n)
    requires started in m.states && !m.states[started].status.Fetching? && started in q.states
        && q.states[started].status.Fetching?
    requires waiting !in order[..n] && IsReady(m, waiting, now)
    ensures Due(m.states[started], now) && !Before(m.states, waiting, started)
  {
    assert started in order[..n] && waiting in order;
    var i :| 0 <= i < n && order[i] == started;
    var j :| 0 <= j < |order| && order[j] == waiting;
    assert order[j] !in order[..n];
    assert IsReady(m, order[i], now);
  }

  lemma LeftOut(o: Options, m: Fetches, q: Fetches, now: Time, cached: set<Key>, order: seq<Key>, n: nat, waiting: Key)
    requires n <= |order| && IsSchedule(m, now, order) && Served(o, m, q, now, cached, order, n)
        && IsReady(q, waiting, now)
    requires m.subs.Keys == m.states.Keys
    ensures waiting !in order[..n] && n < |order| && IsReady(m, waiting, now) && q.states[waiting] == m.states[waiting]
  {
    assert forall i :: 0 <= i < n ==> order[i] != waiting;
    assert IsReady(m, waiting, now);
    assert order[..|order|] == order;
  }

  /** Fewer attempts; or as many, and a newer epoch; or the same epoch too, and no older number. */
  ghost predicate Outranks(states: map<Key, FetchState>, a: Key, b: Key)
    requires a in states && b in states
  {
    || states[a].attempts < states[b].attempts
    || (states[a].attempts == states[b].attempts && (a.epoch > b.epoch || (a.epoch == b.epoch && a.seqNo >= b.seqNo)))
  }

  /**
   * One round from a reachable state. A publication that starts fetching was due and ranks no lower
   * than any due publication left waiting; one is left waiting only when the window is full, and
   * never past its deadline.
   */
  lemma RoundIsBestFirst(o: Options, p: Fetches, now: Time, cached: set<Key>, order: seq<Key>, started: Key,
      waiting: Key)
    requires Invariant(o, p) && o.minLifetime <= o.maxLifetime && IsSchedule(Prepared(o, p, now), now, order)
    requires IsReady(DoFetchAll(o, p, now, cached, order), waiting, now)
    ensures var q := DoFetchAll(o, p, now, cached, order);
      && |FetchingKeys(q)| == Window(o) && waiting in p.states && now < q.states[waiting].deadline
      && (started in q.states && q.states[started].status.Fetching? ==>
            && started in p.states
            && (|| p.states[started].status.Fetching?
                || (Due(p.states[started], now) && Outranks(p.states, started, waiting))))
  {
    PreparedKeeps(o, p, now);
    var m, q := Prepared(o, p, now), DoFetchAll(o, p, now, cached, order);
    hide Prepared, Scan, InFlight, AllSound, Dispatch, Dispatched, IsSchedule, FetchingKeys, Due;
    assert AllReady(m, now, order) by { ScheduleIsReady(m, now, order); }
    var n := DispatchServes(o, m, now, cached, order);
    LeftOut(o, m, q, now, cached, order, n, waiting);
    if started in q.states && q.states[started].status.Fetching? {
      ServedKeys(o, m, q, now, cached, order, n);
      hide Served;
      if !p.states[started].status.Fetching? {
        ServedOutranks(o, m, q, now, cached, order, n, started, waiting);
        assert Outranks(p.states, started, waiting);
      }
    }
  }

  lemma ScheduleIsReady(m: Fetches, now: Time, order: seq<Key>)
    requires IsSchedule(m, now, order)
    ensures AllReady(m, now, order)
  {
  }

  lemma ServedKeys(o: Options, m: Fetches, q: Fetches, now: Time, cached: set<Key>, order: seq<Key>, n: nat)
    requires n <= |order| && Served(o, m, q, now, cached, order, n)
    ensures q.states.Keys <= m.states.Keys
  {
    forall key | key in q.states ensures key in m.states {
      if key in order[..n] {
        var i :| 0 <= i < n && order[i] == key;
      }
    }
  }

  lemma StepKeeps(o: Options, p: Fetches, e: Event)
    requires Invariant(o, p) && o.minLifetime <= o.maxLifetime && Ok(o)(p, e)
    ensures Invariant(o, Step(o)(p, e))
  {
    hide Invariant, DoAdd, DoFetchAll, DoFail, DoSucceed, Removed, IsSchedule, Prepared;
    match e
    case Add(key, sub, now) => AddKeeps(o, p, key, sub, now);
    case FetchAll(now, cached, order) => FetchAllKeeps(o, p, now, cached, order);
    case FetchFailed(key, now) => FailKeeps(o, p, key, now);
    case DataArrived(key, now, encapsulated) => FailKeeps(o, p, key, now); SucceedKeeps(o, p, key, now);
    case CleanUp(key) => RemovedKeeps(o, p, key);
  }

  const IDLE := Fetches(map[], map[], map[])

  /**
   * Over every run, with stale and repeated callbacks: every publication queued has a state and vice
   * versa, at most max(1, window) are being fetched, none is asked for more than retries + 1 times,
   * and lifetimes and estimates stay within the configured bounds.
   */
  lemma FetchingIsBounded(o: Options, es: seq<Event>)
    requires o.minLifetime <= o.maxLifetime && Admissible(Step(o), Ok(o), IDLE, es)
    ensures var p := Run(Step(o), IDLE, es);
      && p.subs.Keys == p.states.Keys
      && |FetchingKeys(p)| <= Window(o)
      && (forall key :: key in p.states ==> InRange(o, p.states[key].lifetime) && !p.states[key].status.Expired?)
      && (forall key :: key in p.states && o.retries >= 0 ==> p.states[key].attempts <= o.retries + 1)
      && (forall s :: s in p.estimates ==> InRange(o, p.estimates[s]))
  {
    assert Invariant(o, IDLE) by { assert FetchingKeys(IDLE) == {}; }
    var inv := (p: Fetches) => Invariant(o, p);
    forall p, e | inv(p) && Ok(o)(p, e) ensures inv(Step(o)(p, e)) { StepKeeps(o, p, e); }
    Invariance(Step(o), Ok(o), inv, IDLE, es);
    assert inv(Run(Step(o), IDLE, es));
  }

  // ---------- one publication that keeps failing ----------

  ghost function Doubled(x: int, k: nat): int { if k == 0 then x else 2 * Doubled(x, k - 1) }

  ghost function AtMostOf(bound: int, x: int): int { if bound < x then bound else x }

  /** How long the k-th failure puts the publication off. */
  ghost function Wait(o: Options, k: nat): int {
    if k <= 1 then o.failureBackoff else AtMostOf(o.maxBackoff, Doubled(o.failureBackoff, k - 1))
  }

  /** The Interest lifetime after k failures. */
  ghost function LifetimeAfter(o: Options, k: nat): int {
    AtMostOf(o.maxLifetime, Doubled(ClampLifetime(o, o.interestLifetime), k))
  }

  ghost function Deadline(o: Options, added: Time): int { added + if o.maxPubAge > 0 then o.maxPubAge else 30000 }

  /** Rounds that ask for the publication, each followed by its failure; the pairs are the clock readings. */
  function Rounds(key: Key, times: seq<(Time, Time)>): seq<Event>
    decreases |times|
  {
    if times == [] then []
    else
      var last := times[|times| - 1];
      Rounds(key, times[..|times| - 1]) + [FetchAll(last.0, {}, [key]), FetchFailed(key, last.1)]
  }

  ghost predicate OnTime(o: Options, added: Time, times: seq<(Time, Time)>, i: nat)
    requires i < |times|
  {
    && (if i == 0 then added else times[i - 1].1 + Wait(o, i)) <= times[i].0 < Deadline(o, added)
    && times[i].1 < Deadline(o, added)
  }

  /** Each round takes place once the publication is due again, and before its deadline. */
  ghost predicate Timely(o: Options, added: Time, times: seq<(Time, Time)>) {
    forall i :: 0 <= i < |times| ==> OnTime(o, added, times, i)
  }

  /** The machine with this publication only, after those failures. */
  ghost function Failed(o: Options, key: Key, sub: nat, added: Time, times: seq<(Time, Time)>): Fetches {
    var k := |times|;
    var st := if k == 0
      then FetchState(Queued, 0, added, Deadline(o, added), added, 0, LifetimeAfter(o, 0), o.failureBackoff)
      else FetchState(Backoff, k, added, Deadline(o, added), times[k - 1].1 + Wait(o, k), times[k - 1].0,
                      LifetimeAfter(o, k), Wait(o, k + 1));
    Fetches(map[key := [sub]], map[key := st], if k == 0 then map[] else map[SessionOf(key) := LifetimeAfter(o, k)])
  }

  ghost predicate PositiveOptions(o: Options) {
    0 < o.minLifetime <= o.maxLifetime && 0 < o.failureBackoff && 0 < o.maxBackoff
  }

  lemma {:induction false} DoubledPositive(x: int, k: nat)
    requires x > 0
    ensures Doubled(x, k) >= x
  {
    if k > 0 { DoubledPositive(x, k - 1); }
  }

  lemma NextWait(o: Options, k: nat)
    requires PositiveOptions(o) && k >= 1
    ensures Wait(o, k) > 0 && Clamp(Wait(o, k) * 2, o.failureBackoff, o.maxBackoff) == Wait(o, k + 1)
  {
    DoubledPositive(o.failureBackoff, k - 1);
    DoubledPositive(o.failureBackoff, k);
  }

  lemma NextLifetime(o: Options, k: nat)
    requires PositiveOptions(o)
    ensures ClampLifetime(o, LifetimeAfter(o, k)) == LifetimeAfter(o, k)
    ensures ClampLifetime(o, LifetimeAfter(o, k) * 2) == LifetimeAfter(o, k + 1)
  {
    var first := ClampLifetime(o, o.interestLifetime);
    DoubledPositive(first, k);
    DoubledPositive(first, k + 1);
  }

  /** A round in which the only publication is due asks for it. */
  lemma SoleIsAsked(o: Options, p: Fetches, key: Key, now: Time)
    requires p.subs.Keys == {key} && p.states.Keys == {key} && p.states[key].firstQueued > 0
    requires p.states[key].status in {Queued, Backoff} && p.states[key].nextAttempt <= now < p.states[key].deadline
    ensures IsSchedule(Prepared(o, p, now), now, [key])
    ensures Step(o)(p, FetchAll(now, {}, [key])) == p.(states := map[key := Dispatched(o, p.states[key], now)])
  {
    var m := Scan(o, p, now);
    assert m.states == p.states;
    assert m == p && ExpiredKeys(p) == {};
    assert Prepared(o, p, now) == p;
    assert (set k | k in p.subs && k in p.states && p.states[k].status.Fetching?) == {};
    var q := p.(states := map[key := Dispatched(o, p.states[key], now)]);
    assert p.states[key := Dispatched(o, p.states[key], now)] == q.states;
    assert [key][1..] == [];
    assert Dispatch(o, q, now, {}, [], 1) == q;
  }

  lemma AskAndFail(o: Options, key: Key, sub: nat, added: Time, times: seq<(Time, Time)>, t: Time, u: Time)
    requires PositiveOptions(o) && Timely(o, added, times + [(t, u)])
    ensures var p := Failed(o, key, sub, added, times);
      var q := Step(o)(p, FetchAll(t, {}, [key]));
      && IsSchedule(Prepared(o, p, t), t, [key])
      && Step(o)(q, FetchFailed(key, u)) ==
        if o.retries >= 0 && |times| + 1 > o.retries then Fetches(map[], map[], q.estimates)
        else Failed(o, key, sub, added, times + [(t, u)])
  {
    var k := |times|;
    var all := times + [(t, u)];
    assert OnTime(o, added, all, k) && all[k] == (t, u) && (k > 0 ==> all[k - 1] == times[k - 1]);
    var p := Failed(o, key, sub, added, times);
    SoleIsAsked(o, p, key, t);
    NextLifetime(o, k);
    NextWait(o, k + 1);
    var q := Step(o)(p, FetchAll(t, {}, [key]));
    hide Prepared, IsSchedule, DoFetchAll, Clamp, Doubled, AtMostOf;
    if o.retries >= 0 && k + 1 > o.retries {
      assert q.subs - {key} == map[] && q.states - {key} == map[];
    } else {
      FailedOnceMore(o, key, sub, added, times, t, u, q);
    }
  }

  lemma FailedOnceMore(o: Options, key: Key, sub: nat, added: Time, times: seq<(Time, Time)>, t: Time, u: Time,
      q: Fetches)
    requires u < Deadline(o, added) && (o.retries < 0 || |times| + 1 <= o.retries)
    requires PositiveOptions(o)
    requires q == Failed(o, key, sub, added, times).(
        states := map[key := Dispatched(o, Failed(o, key, sub, added, times).states[key], t)])
    ensures Step(o)(q, FetchFailed(key, u)) == Failed(o, key, sub, added, times + [(t, u)])
  {
    var k := |times|;
    var all := times + [(t, u)];
    assert all[k] == (t, u);
    NextLifetime(o, k);
    NextWait(o, k + 1);
    assert Wait(o, k + 1) > 0;
    hide Clamp, Doubled, AtMostOf, Wait, LifetimeAfter;
    var s := SessionOf(key);
    assert q.estimates[s := LifetimeAfter(o, k + 1)] == map[s := LifetimeAfter(o, k + 1)];
    var st := BackedOff(o, q.states[key], u);
    assert q.states[key := st] == map[key := st];
  }

  lemma AddFirst(o: Options, key: Key, sub: nat, added: Time)
    requires PositiveOptions(o)
    ensures Step(o)(IDLE, Add(key, sub, added)) == Failed(o, key, sub, added, [])
  {
    assert LifetimeAfter(o, 0) == ClampLifetime(o, o.interestLifetime);
    assert [] + [sub] == [sub];
    assert DoAdd(o, IDLE, key, sub, added).states == Failed(o, key, sub, added, []).states;
    assert DoAdd(o, IDLE, key, sub, added).subs == Failed(o, key, sub, added, []).subs;
  }

  lemma TimelyPrefix(o: Options, added: Time, times: seq<(Time, Time)>, last: (Time, Time))
    requires Timely(o, added, times + [last])
    ensures Timely(o, added, times)
  {
    var all := times + [last];
    forall i | 0 <= i < |times| ensures OnTime(o, added, times, i) {
      assert OnTime(o, added, all, i) && all[i] == times[i] && (i > 0 ==> all[i - 1] == times[i - 1]);
    }
  }

  /**
   * As long as retries are left, the k-th failure in a row puts the publication off for the initial back-off
   * doubled k - 1 times, and leaves its lifetime, and its session's estimate, doubled k times; both up to
   * their limits.
   */
  lemma {:induction false} FailuresDouble(o: Options, key: Key, sub: nat, added: Time, times: seq<(Time, Time)>)
    requires PositiveOptions(o) && Timely(o, added, times) && (o.retries < 0 || |times| <= o.retries)
    ensures var es := [Add(key, sub, added)] + Rounds(key, times);
      Admissible(Step(o), Ok(o), IDLE, es) && Run(Step(o), IDLE, es) == Failed(o, key, sub, added, times)
    decreases |times|
  {
    hide PositiveOptions, Failed;
    var add := [Add(key, sub, added)];
    if times == [] {
      assert add + Rounds(key, times) == add;
      One(Step(o), IDLE, add[0]);
      OneAdmissible(Step(o), Ok(o), IDLE, add[0]);
      AddFirst(o, key, sub, added);
    } else {
      var init, last := times[..|times| - 1], times[|times| - 1];
      assert times == init + [last];
      TimelyPrefix(o, added, init, last);
      FailuresDouble(o, key, sub, added, init);
      OneMoreRound(o, key, sub, added, init, last.0, last.1);
    }
  }

  /** One more round at the end of a run. */
  lemma RoundAfter(o: Options, before: seq<Event>, p: Fetches, key: Key, t: Time, u: Time)
    requires Admissible(Step(o), Ok(o), IDLE, before) && Run(Step(o), IDLE, before) == p
    requires IsSchedule(Prepared(o, p, t), t, [key])
    ensures var es := before + [FetchAll(t, {}, [key]), FetchFailed(key, u)];
      && Admissible(Step(o), Ok(o), IDLE, es)
      && Run(Step(o), IDLE, es) == Step(o)(Step(o)(p, FetchAll(t, {}, [key])), FetchFailed(key, u))
  {
    hide IsSchedule, Prepared, DoFetchAll, DoFail;
    var round := [FetchAll(t, {}, [key]), FetchFailed(key, u)];
    Append(Step(o), IDLE, before, round);
    Two(Step(o), p, round[0], round[1]);
    TwoAdmissible(Step(o), Ok(o), p, round[0], round[1]);
    AdmissibleAppend(Step(o), Ok(o), IDLE, before, round);
  }

  lemma OneMoreRound(o: Options, key: Key, sub: nat, added: Time, times: seq<(Time, Time)>, t: Time, u: Time)
    requires PositiveOptions(o) && Timely(o, added, times + [(t, u)])
    requires var es := [Add(key, sub, added)] + Rounds(key, times);
      Admissible(Step(o), Ok(o), IDLE, es) && Run(Step(o), IDLE, es) == Failed(o, key, sub, added, times)
    ensures var es := [Add(key, sub, added)] + Rounds(key, times + [(t, u)]);
      && Admissible(Step(o), Ok(o), IDLE, es)
      && (o.retries < 0 || |times| + 1 <= o.retries ==>
           Run(Step(o), IDLE, es) == Failed(o, key, sub, added, times + [(t, u)]))
      && (o.retries >= 0 && |times| + 1 > o.retries ==>
           Run(Step(o), IDLE, es).subs == map[] && Run(Step(o), IDLE, es).states == map[])
  {
    hide Step, Ok, PositiveOptions, Failed, Timely, IsSchedule, Prepared;
    RoundsSnoc(key, sub, added, times, t, u);
    AskAndFail(o, key, sub, added, times, t, u);
    var before := [Add(key, sub, added)] + Rounds(key, times);
    RoundAfter(o, before, Failed(o, key, sub, added, times), key, t, u);
  }

  lemma RoundsSnoc(key: Key, sub: nat, added: Time, times: seq<(Time, Time)>, t: Time, u: Time)
    ensures [Add(key, sub, added)] + Rounds(key, times + [(t, u)])
      == [Add(key, sub, added)] + Rounds(key, times) + [FetchAll(t, {}, [key]), FetchFailed(key, u)]
  {
    var all := times + [(t, u)];
    assert all[..|all| - 1] == times && all[|all| - 1] == (t, u);
  }

  /** With r >= 0 retries the publication is asked for r + 1 times; the failure of the last one drops it. */
  lemma FetchRetriesAreUsed(o: Options, key: Key, sub: nat, added: Time, times: seq<(Time, Time)>)
    requires PositiveOptions(o) && Timely(o, added, times) && |times| == o.retries + 1 >= 1
    ensures var es := [Add(key, sub, added)] + Rounds(key, times);
      && Admissible(Step(o), Ok(o), IDLE, es)
      && Run(Step(o), IDLE, es).subs == map[] && Run(Step(o), IDLE, es).states == map[]
  {
    hide PositiveOptions, Failed;
    var init, last := times[..|times| - 1], times[|times| - 1];
    assert times == init + [last];
    TimelyPrefix(o, added, init, last);
    FailuresDouble(o, key, sub, added, init);
    OneMoreRound(o, key, sub, added, init, last.0, last.1);
  }

  /** Another subscription joins those of its publication and leaves a publication already known as it is. */
  lemma AddJoins(o: Options, p: Fetches, key: Key, sub: nat, now: Time)
    requires Invariant(o, p)
    ensures var q := Step(o)(p, Add(key, sub, now));
      && q.subs.Keys == p.subs.Keys + {key} && q.estimates == p.estimates
      && q.subs[key] == (if key in p.subs then p.subs[key] + [sub] else [sub])
      && (forall k :: k in p.subs && k != key ==> q.subs[k] == p.subs[k])
      && (forall k :: k in p.states ==> k in q.states && q.states[k] == p.states[k])
      && (key !in p.subs ==>
           && q.states[key].status.Queued? && q.states[key].attempts == 0
           && q.states[key].nextAttempt == now && q.states[key].deadline == Deadline(o, now))
  {
  }

  /**
   * An answer moves the session's estimate halfway to twice the round trip, rounding down, when both are within
   * the limits; the first answer sets it to that. No other publication is touched.
   */
  lemma AnswerMovesHalfway(o: Options, p: Fetches, key: Key, now: Time)
    requires Invariant(o, p) && 0 < o.minLifetime <= o.maxLifetime && key in p.states
    requires p.states[key].attemptStarted > 0
    ensures var q, s := Step(o)(p, DataArrived(key, now, true)), SessionOf(key);
      var trip := 2 * (now - p.states[key].attemptStarted);
      && key in q.states && q.states[key].status.Delivered? && s in q.estimates
      && q.states[key].lifetime == q.estimates[s] && InRange(o, q.estimates[s])
      && (s !in p.estimates && InRange(o, trip) ==> q.estimates[s] == trip)
      && (s in p.estimates && InRange(o, trip) ==>
           2 * q.estimates[s] <= p.estimates[s] + trip <= 2 * q.estimates[s] + 1)
      && q.subs == p.subs && q.states.Keys == p.states.Keys
      && (forall k :: k in p.states && k != key ==> q.states[k] == p.states[k])
      && (forall s' :: s' in p.estimates && s' != s ==> s' in q.estimates && q.estimates[s'] == p.estimates[s'])
  {
    assert AllSound(o, p);
  }

  // ---------- the machine ----------

  /** Insertion sort by the same comparison; the schedule allows any order among equals. */
  method SortReady(states: map<Key, FetchState>, ready: seq<Key>) returns (order: seq<Key>)
    requires Distinct(ready) && forall key :: key in ready ==> key in states
    ensures Distinct(order) && InOrder(states, order) && forall key :: key in order <==> key in ready
  {
    order := [];
    for n := 0 to |ready|
      invariant Distinct(order) && InOrder(states, order)
      invariant forall key :: key in order <==> key in ready[..n]
    {
      var key, at := ready[n], 0;
      while at < |order| && !Before(states, key, order[at])
        invariant 0 <= at <= |order|
        invariant forall i :: 0 <= i < at ==> !Before(states, key, order[i])
      {
        at := at + 1;
      }
      InsertSorted(states, order, key, at);
      assert key !in order;
      order := order[..at] + [key] + order[at..];
      assert ready[..n + 1] == ready[..n] + [key];
    }
    assert ready[..|ready|] == ready;
  }

  lemma InsertSorted(states: map<Key, FetchState>, order: seq<Key>, key: Key, at: nat)
    requires InOrder(states, order) && Distinct(order) && key in states && key !in order && at <= |order|
    requires forall i :: 0 <= i < at ==> !Before(states, key, order[i])
    requires at < |order| ==> Before(states, key, order[at])
    ensures var longer := order[..at] + [key] + order[at..];
      InOrder(states, longer) && Distinct(longer) && forall k :: k in longer <==> k in order || k == key
  {
    var longer := order[..at] + [key] + order[at..];
    forall k ensures k in longer <==> k in order || k == key {
      assert k in order <==> k in order[..at] || k in order[at..];
    }
    forall i, j | 0 <= i < j < |longer| ensures !Before(states, longer[j], longer[i]) && longer[i] != longer[j] {
      if i < at < j { assert longer[i] == order[i] && longer[j] == order[j - 1]; }
      else if i == at { assert longer[j] == order[j - 1] && !Before(states, order[j - 1], order[at]); }
      else if j == at { assert longer[i] == order[i]; }
      else if at < i { assert longer[i] == order[i - 1] && longer[j] == order[j - 1]; }
    }
  }

  // How far a scan has come.

  ghost function PartScan(o: Options, p: Fetches, now: Time, todo: set<Key>): Fetches {
    p.(states := map key | key in p.states.Keys + (p.subs.Keys - todo) ::
         if key in p.subs && key !in todo then Examined(o, StateOf(p, key), now) else p.states[key])
  }

  ghost function FetchingAmong(g: Fetches, done: set<Key>): set<Key> {
    set key | key in done && key in g.states && g.states[key].status.Fetching?
  }

  ghost predicate Tallied(g: Fetches, done: set<Key>, now: Time, inFlight: nat, ready: seq<Key>) {
    && inFlight == |FetchingAmong(g, done)| && Distinct(ready)
    && forall key :: key in ready <==> key in done && key in g.states && Due(g.states[key], now)
  }

  lemma ScanStarts(o: Options, p: Fetches, now: Time)
    ensures PartScan(o, p, now, p.subs.Keys) == p
    ensures Tallied(Scan(o, p, now), p.subs.Keys - p.subs.Keys, now, 0, [])
  {
    assert PartScan(o, p, now, p.subs.Keys).states == p.states;
    assert FetchingAmong(Scan(o, p, now), p.subs.Keys - p.subs.Keys) == {};
  }

  lemma ScanStep(o: Options, p: Fetches, now: Time, todo: set<Key>, key: Key)
    requires key in todo && todo <= p.subs.Keys
    ensures var m, st := PartScan(o, p, now, todo), Examined(o, StateOf(p, key), now);
      && StateOf(m, key) == StateOf(p, key)
      && PartScan(o, p, now, todo - {key}) == m.(states := m.states[key := st])
      && key in Scan(o, p, now).states && Scan(o, p, now).states[key] == st
  {
    var m, st := PartScan(o, p, now, todo), Examined(o, StateOf(p, key), now);
    assert PartScan(o, p, now, todo - {key}).states == m.states[key := st];
  }

  lemma TallyOne(g: Fetches, done: set<Key>, now: Time, inFlight: nat, ready: seq<Key>, key: Key)
    requires Tallied(g, done, now, inFlight, ready) && key !in done && key in g.states
    ensures var st := g.states[key];
      Tallied(g, done + {key}, now, if st.status.Fetching? then inFlight + 1 else inFlight,
              if !st.status.Fetching? && Due(st, now) then ready + [key] else ready)
  {
    assert FetchingAmong(g, done + {key})
        == FetchingAmong(g, done) + if g.states[key].status.Fetching? then {key} else {};
  }

  lemma ScanEnds(o: Options, p: Fetches, now: Time, inFlight: nat, ready: seq<Key>)
    requires Tallied(Scan(o, p, now), p.subs.Keys - {}, now, inFlight, ready)
    ensures PartScan(o, p, now, {}) == Scan(o, p, now) && inFlight == InFlight(Scan(o, p, now))
    ensures Distinct(ready) && forall key :: key in ready <==> IsReady(Scan(o, p, now), key, now)
  {
    var g := Scan(o, p, now);
    assert PartScan(o, p, now, {}).states == g.states;
    assert FetchingAmong(g, p.subs.Keys - {})
        == set key | key in g.subs && key in g.states && g.states[key].status.Fetching?;
  }

  ghost function PartExpire(p: Fetches, todo: set<Key>): Fetches {
    p.(subs := p.subs - (ExpiredKeys(p) - todo), states := p.states - (ExpiredKeys(p) - todo))
  }

  lemma ExpireStarts(p: Fetches)
    ensures PartExpire(p, p.states.Keys) == p && PartExpire(p, {}) == Expire(p)
  {
    assert ExpiredKeys(p) - p.states.Keys == {} && ExpiredKeys(p) - {} == ExpiredKeys(p);
  }

  lemma ReadyAreKept(p: Fetches, now: Time)
    ensures forall key :: IsReady(p, key, now) <==> IsReady(Expire(p), key, now)
  {
  }

  lemma ExpireStep(p: Fetches, todo: set<Key>, key: Key)
    requires key in todo && todo <= p.states.Keys
    ensures var m := PartExpire(p, todo);
      && key in m.states
      && PartExpire(p, todo - {key}) == if m.states[key].status.Expired? && key in m.subs then Removed(m, key) else m
  {
    var gone, m := ExpiredKeys(p) - todo, PartExpire(p, todo);
    assert key in m.subs <==> key in p.subs;
    if key in ExpiredKeys(p) {
      assert ExpiredKeys(p) - (todo - {key}) == gone + {key};
      assert p.states - (gone + {key}) == (p.states - gone) - {key};
      assert p.subs - (gone + {key}) == (p.subs - gone) - {key};
    } else {
      assert ExpiredKeys(p) - (todo - {key}) == gone;
    }
  }

  class PublicationFetcher {
    const opts: Options
    var fetchMap: map<Key, seq<nat>>
    var states: map<Key, FetchState>
    var estimates: map<Session, int>

    ghost function State(): Fetches
      reads this
    {
      Fetches(fetchMap, states, estimates)
    }

    constructor (opts: Options)
      ensures State() == IDLE && this.opts == opts
    {
      this.opts := opts;
      fetchMap, states, estimates := map[], map[], map[];
    }

    method AddPublicationFetch(key: Key, sub: nat, now: Time)
      modifies this
      ensures State() == Step(opts)(old(State()), Add(key, sub, now))
    {
      fetchMap := fetchMap[key := (if key in fetchMap then fetchMap[key] else []) + [sub]];
      if key !in states { states := states[key := UNSET]; }
      var st := states[key];
      if st.firstQueued == 0 {
        var lifetime := opts.interestLifetime;
        var s := SessionOf(key);
        if s in estimates && estimates[s] > 0 { lifetime := estimates[s]; }
        states := states[key := Enqueued(opts, st, lifetime, now)];
      }
    }

    method CleanUpFetch(key: Key)
      modifies this
      ensures State() == Step(opts)(old(State()), CleanUp(key))
    {
      fetchMap := fetchMap - {key};
      states := states - {key};
    }

    /** `repair` says that the publication, kept for another attempt, is also put on the repair list. */
    method MarkPublicationFetchFailed(key: Key, now: Time) returns (repair: bool)
      modifies this
      ensures State() == Step(opts)(old(State()), FetchFailed(key, now))
      ensures repair <==> key in fetchMap && key in states
      ensures repair ==> states[key].status.Backoff? && now < states[key].deadline
    {
      if key !in fetchMap || key !in states { return false; }
      var st := states[key];
      if (opts.retries >= 0 && st.attempts > opts.retries) || now >= st.deadline {
        CleanUpFetch(key);
        return false;
      }
      if st.backoff <= 0 { st := st.(backoff := opts.failureBackoff); }
      st := st.(status := Backoff, nextAttempt := now + st.backoff, lifetime := ClampLifetime(opts, st.lifetime * 2));
      estimates := estimates[SessionOf(key) := st.lifetime];
      states := states[key := st.(backoff := Clamp(st.backoff * 2, opts.failureBackoff, opts.maxBackoff))];
      return true;
    }

    method ObservePublicationFetchSuccess(key: Key, now: Time)
      modifies this
      ensures State() == DoSucceed(opts, old(State()), key, now)
    {
      if key !in states { return; }
      var st := states[key];
      if st.attemptStarted != 0 {
        var rtt := now - st.attemptStarted;
        if rtt <= 0 { rtt := 1; }
        var target := ClampLifetime(opts, rtt * 2);
        var s := SessionOf(key);
        var estimate := if s in estimates then estimates[s] else 0;
        estimate := if estimate <= 0 then target else ClampLifetime(opts, Half(estimate + target));
        estimates := estimates[s := estimate];
        st := st.(lifetime := estimate);
      }
      states := states[key := st.(status := Delivered)];
    }

    method OnSyncData(key: Key, now: Time, encapsulated: bool) returns (repair: bool)
      modifies this
      ensures State() == Step(opts)(old(State()), DataArrived(key, now, encapsulated))
      ensures repair ==> !encapsulated && key in states && states[key].status.Backoff?
    {
      repair := false;
      if !encapsulated {
        repair := MarkPublicationFetchFailed(key, now);
      } else {
        ObservePublicationFetchSuccess(key, now);
      }
    }

    method ScanFetchMap(now: Time) returns (inFlight: nat, ready: seq<Key>)
      modifies this
      ensures State() == Scan(opts, old(State()), now) && inFlight == InFlight(State())
      ensures Distinct(ready) && forall key :: key in ready <==> IsReady(State(), key, now)
    {
      hide Scan, PartScan, Tallied, Examined, InFlight, IsReady;
      ghost var p := State();
      inFlight, ready := 0, [];
      var todo := fetchMap.Keys;
      ScanStarts(opts, p, now);
      while todo != {}
        invariant todo <= p.subs.Keys && State() == PartScan(opts, p, now, todo)
        invariant Tallied(Scan(opts, p, now), p.subs.Keys - todo, now, inFlight, ready)
        decreases |todo|
      {
        var key :| key in todo;
        var st := Examined(opts, if key in states then states[key] else UNSET, now);
        ScanStep(opts, p, now, todo, key);
        TallyOne(Scan(opts, p, now), p.subs.Keys - todo, now, inFlight, ready, key);
        assert p.subs.Keys - (todo - {key}) == (p.subs.Keys - todo) + {key};
        todo := todo - {key};
        states := states[key := st];
        if st.status.Fetching? {
          inFlight := inFlight + 1;
        } else if Due(st, now) {
          ready := ready + [key];
        }
      }
      ScanEnds(opts, p, now, inFlight, ready);
    }

    method DropExpired()
      modifies this
      ensures State() == Expire(old(State()))
    {
      hide PartExpire;
      ghost var p := State();
      var todo := states.Keys;
      ExpireStarts(p);
      while todo != {}
        invariant todo <= p.states.Keys && State() == PartExpire(p, todo)
        decreases |todo|
      {
        var key :| key in todo;
        ExpireStep(p, todo, key);
        todo := todo - {key};
        if states[key].status.Expired? && key in fetchMap {
          fetchMap, states := fetchMap - {key}, states - {key};
        }
      }
    }

    method DispatchReady(now: Time, cached: set<Key>, order: seq<Key>, fetching: nat)
      modifies this
      ensures State() == Dispatch(opts, old(State()), now, cached, order, fetching)
    {
      ghost var p := State();
      var inFlight, n := fetching, 0;
      while n < |order| && inFlight < Window(opts)
        invariant 0 <= n <= |order| && 0 <= inFlight
        invariant Dispatch(opts, p, now, cached, order, fetching)
            == Dispatch(opts, State(), now, cached, order[n..], inFlight)
      {
        var key := order[n];
        assert order[n..][0] == key && order[n..][1..] == order[n + 1..];
        n := n + 1;
        if key in fetchMap && key in states && !states[key].status.Fetching? && states[key].nextAttempt <= now {
          if key in cached {
            ObservePublicationFetchSuccess(key, now);
            CleanUpFetch(key);
          } else {
            states := states[key := Dispatched(opts, states[key], now)];
            inFlight := inFlight + 1;
          }
        }
      }
    }

    /** Fetches what is due, best first, and says in which order it went through the publications. */
    method FetchAllPublications(now: Time, cached: set<Key>) returns (order: seq<Key>)
      modifies this
      ensures IsSchedule(Prepared(opts, old(State()), now), now, order)
      ensures State() == Step(opts)(old(State()), FetchAll(now, cached, order))
    {
      hide Scan, Expire, InFlight, Dispatch, Due, InOrder, Distinct;
      var inFlight: nat;
      var ready: seq<Key>;
      inFlight, ready := ScanFetchMap(now);
      ReadyAreKept(State(), now);
      DropExpired();
      order := SortReady(states, ready);
      DispatchReady(now, cached, order, inFlight);
    }
  }
}