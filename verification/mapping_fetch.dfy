/**
 * Fetching the names of publications (svspubsub.cpp) and answering such queries
 * (mapping-provider.cpp): ranges are asked for in chunks, and what a reply leaves out is asked for again.
 */
module MappingFetch {
  import opened Names
  import opened Runs
  import opened Merge

  datatype Query = Query(node: Name, epoch: uint64, low: nat, high: nat)

  /** The number and epoch of one mapping in a reply. */
  datatype Mapped = Mapped(epoch: uint64, seqNo: nat)

  datatype Fetches = Fetches(inFlight: set<Query>, suppressUntil: map<Query, int>)

  // ---------- chunks ----------

  type Interval = (nat, nat)

  /** The first number of the range whose mapping is not known yet. */
  function FirstUnknown(low: nat, high: nat, known: set<nat>): (first: nat)
    requires low <= high + 1
    ensures low <= first <= high + 1
    decreases high + 1 - low
  {
    if low <= high && low in known then FirstUnknown(low + 1, high, known) else low
  }

  function Chunks(low: nat, high: nat): seq<Interval>
    decreases if low <= high then high + 1 - low else 0
  {
    if low > high then [] else [(low, if high - low > 10 then low + 10 else high)] + Chunks(low + 11, high)
  }

  /** Adjacent, non-empty intervals from low up to high. */
  ghost predicate Tiles(parts: seq<Interval>, low: nat, high: nat) {
    if parts == [] then low == high + 1
    else parts[0].0 == low && low <= parts[0].1 && Tiles(parts[1..], parts[0].1 + 1, high)
  }

  lemma {:induction false} ChunksTile(low: nat, high: nat)
    requires low <= high + 1
    ensures Tiles(Chunks(low, high), low, high)
    ensures forall c :: c in Chunks(low, high) ==> c.1 - c.0 <= 10
    decreases high + 1 - low
  {
    if low <= high {
      if low + 11 <= high + 1 {
        ChunksTile(low + 11, high);
      } else {
        assert Chunks(low + 11, high) == [];
      }
    }
  }

  lemma {:induction false} TilesCover(parts: seq<Interval>, low: nat, high: nat, n: nat)
    requires Tiles(parts, low, high) && low <= n <= high
    ensures exists c :: c in parts && c.0 <= n <= c.1
  {
    if n > parts[0].1 {
      TilesCover(parts[1..], parts[0].1 + 1, high, n);
      var c :| c in parts[1..] && c.0 <= n <= c.1;
      assert c in parts;
    } else {
      assert parts[0] in parts;
    }
  }

  // ---------- gaps ----------

  /** The scan over a reply: `start` is where the current run of unreturned numbers began. */
  function Gaps(n: nat, high: nat, returned: set<nat>, start: Option<nat>): seq<Interval>
    requires start.Some? ==> start.value < n
    requires n <= high + 1
    decreases high + 1 - n
  {
    if n > high then if start.Some? then [(start.value, high)] else []
    else if n !in returned then Gaps(n + 1, high, returned, if start.None? then Some(n) else start)
    else (if start.Some? then [(start.value, n - 1)] else []) + Gaps(n + 1, high, returned, None)
  }

  /** a..b lies in low..high, was not returned, and cannot be extended on either side. */
  ghost predicate MaximalRun(low: nat, high: nat, returned: set<nat>, a: nat, b: nat) {
    && low <= a <= b <= high && (forall n: nat :: a <= n <= b ==> n !in returned)
    && (a == low || a - 1 in returned) && (b == high || b + 1 in returned)
  }

  function From(n: nat, start: Option<nat>): nat { if start.Some? then start.value else n }

  lemma {:induction false} GapsAreMaximalRuns(n: nat, high: nat, returned: set<nat>, start: Option<nat>, a: nat, b: nat)
    requires (start.Some? ==> start.value < n) && n <= high + 1
    requires forall m: nat :: From(n, start) <= m < n ==> m !in returned
    ensures (a, b) in Gaps(n, high, returned, start) <==> MaximalRun(From(n, start), high, returned, a, b)
    decreases high + 1 - n
  {
    if n > high {
    } else if n !in returned {
      GapsAreMaximalRuns(n + 1, high, returned, if start.None? then Some(n) else start, a, b);
    } else {
      GapsAreMaximalRuns(n + 1, high, returned, None, a, b);
      if start.Some? && MaximalRun(start.value, high, returned, a, b) {
        if a <= n - 1 {
          assert a == start.value;
          assert b <= n - 1;
        }
      }
    }
  }

  /** Intervals in ascending order, with at least one number between any two. */
  ghost predicate Apart(parts: seq<Interval>, low: nat, high: nat) {
    parts == [] || (low <= parts[0].0 <= parts[0].1 <= high && Apart(parts[1..], parts[0].1 + 2, high))
  }

  /** No number is asked for twice. */
  lemma {:induction false} GapsAreApart(n: nat, high: nat, returned: set<nat>, start: Option<nat>)
    requires (start.Some? ==> start.value < n) && n <= high + 1
    ensures Apart(Gaps(n, high, returned, start), From(n, start), high)
    decreases high + 1 - n
  {
    if n <= high {
      var next := if n in returned then None else if start.None? then Some(n) else start;
      GapsAreApart(n + 1, high, returned, next);
      var rest := Gaps(n + 1, high, returned, next);
      if n in returned && start.Some? {
        assert ([(start.value, n - 1)] + rest)[1..] == rest;
      } else {
        assert [] + rest == rest;
      }
    }
  }

  function Width(c: Interval): int { c.1 - c.0 + 1 }

  function TotalWidth(parts: seq<Interval>): int { if parts == [] then 0 else Width(parts[0]) + TotalWidth(parts[1..]) }

  /** How many numbers of n..high were returned. */
  function Returned(n: nat, high: nat, returned: set<nat>): nat
    decreases if n <= high then high + 1 - n else 0
  {
    if n > high then 0 else Returned(n + 1, high, returned) + if n in returned then 1 else 0
  }

  lemma {:induction false} GapsWidth(n: nat, high: nat, returned: set<nat>, start: Option<nat>)
    requires (start.Some? ==> start.value < n) && n <= high + 1
    ensures TotalWidth(Gaps(n, high, returned, start)) == high + 1 - From(n, start) - Returned(n, high, returned)
    decreases high + 1 - n
  {
    if n > high {
      if start.Some? { assert [(start.value, high)][1..] == []; }
    } else {
      GapsWidth(n + 1, high, returned, if n in returned then None else if start.None? then Some(n) else start);
      if n in returned && start.Some? {
        var rest := Gaps(n + 1, high, returned, None);
        assert ([(start.value, n - 1)] + rest)[1..] == rest;
      } else if n in returned {
        assert [] + Gaps(n + 1, high, returned, None) == Gaps(n + 1, high, returned, None);
      }
    }
  }

  lemma {:induction false} SomethingReturned(n: nat, high: nat, returned: set<nat>, m: nat)
    requires n <= m <= high && m in returned
    ensures Returned(n, high, returned) > 0
    decreases high + 1 - n
  {
    if n < m { SomethingReturned(n + 1, high, returned, m); }
  }

  // ---------- steps ----------

  function Normal(q: Query): Query { if q.high < q.low then q.(high := q.low) else q }

  /** A query is sent unless it is in flight or still backing off. */
  ghost function Schedule(f: Fetches, q: Query, now: int): Fetches {
    var key := Normal(q);
    if key in f.inFlight || (key in f.suppressUntil && f.suppressUntil[key] > now) then f
    else Fetches(f.inFlight + {key}, f.suppressUntil - {key})
  }

  ghost function ScheduleAll(f: Fetches, node: Name, epoch: uint64, parts: seq<Interval>, now: int): Fetches
    decreases |parts|
  {
    if parts == [] then f
    else ScheduleAll(Schedule(f, Query(node, epoch, parts[0].0, parts[0].1), now), node, epoch, parts[1..], now)
  }

  ghost function DoUpdate(f: Fetches, stream: Range, known: set<nat>, now: int): Fetches {
    ScheduleAll(f, stream.node, stream.epoch,
      if stream.low <= stream.high then Chunks(FirstUnknown(stream.low, stream.high, known), stream.high) else [], now)
  }

  function InRange(key: Query, reply: seq<Mapped>): set<nat> {
    set i | 0 <= i < |reply| && reply[i].epoch == key.epoch && key.low <= reply[i].seqNo <= key.high :: reply[i].seqNo
  }

  ghost function Complete(f: Fetches, key: Query): Fetches {
    Fetches(f.inFlight - {key}, f.suppressUntil - {key})
  }

  /** An empty reply is dropped; otherwise the gaps are asked for again. */
  ghost function DoReply(f: Fetches, q: Query, reply: seq<Mapped>, now: int): Fetches {
    var key := Normal(q);
    var g := Complete(f, key);
    if reply == [] then g
    else ScheduleAll(g, key.node, key.epoch, Gaps(key.low, key.high, InRange(key, reply), None), now)
  }

  ghost function DoFail(f: Fetches, backoff: int, q: Query, now: int): Fetches {
    var key := Normal(q);
    Fetches(f.inFlight - {key}, if backoff > 0 then f.suppressUntil[key := now + backoff] else f.suppressUntil)
  }

  datatype Event =
    | Update(stream: Range, known: set<nat>, now: int)
    | Reply(query: Query, reply: seq<Mapped>, now: int)
    | Failed(query: Query, now: int)

  ghost function Step(backoff: int): (Fetches, Event) -> Fetches {
    (f: Fetches, e: Event) =>
      match e
      case Update(stream, known, now) => DoUpdate(f, stream, known, now)
      case Reply(q, reply, now) => DoReply(f, q, reply, now)
      case Failed(q, now) => DoFail(f, backoff, q, now)
  }

  // ---------- nothing is forgotten ----------

  /** The query is on its way or backing off. */
  ghost predicate Pursued(f: Fetches, key: Query, now: int) {
    key in f.inFlight || (key in f.suppressUntil && f.suppressUntil[key] > now)
  }

  lemma {:induction false} ScheduledArePursued(f: Fetches, node: Name, epoch: uint64, parts: seq<Interval>, now: int)
    requires forall c :: c in parts ==> c.0 <= c.1
    ensures var g := ScheduleAll(f, node, epoch, parts, now);
      && (forall key :: Pursued(f, key, now) ==> Pursued(g, key, now))
      && (forall c :: c in parts ==> Pursued(g, Query(node, epoch, c.0, c.1), now))
    decreases |parts|
  {
    if parts != [] {
      var q := Query(node, epoch, parts[0].0, parts[0].1);
      var m := Schedule(f, q, now);
      assert parts[0] in parts && Pursued(m, q, now);
      ScheduledArePursued(m, node, epoch, parts[1..], now);
      forall c | c in parts ensures c == parts[0] || c in parts[1..] {}
    }
  }

  lemma {:induction false} TilesOrdered(parts: seq<Interval>, low: nat, high: nat)
    requires Tiles(parts, low, high)
    ensures forall c :: c in parts ==> low <= c.0 <= c.1
  {
    if parts != [] {
      TilesOrdered(parts[1..], parts[0].1 + 1, high);
      forall c | c in parts ensures c == parts[0] || c in parts[1..] {}
    }
  }

  lemma {:induction false} PrefixKnown(low: nat, high: nat, known: set<nat>, n: nat)
    requires low <= high + 1 && low <= n < FirstUnknown(low, high, known)
    ensures n in known
    decreases high + 1 - low
  {
    if low <= high && low in known && low < n { PrefixKnown(low + 1, high, known, n); }
  }

  /** After an update every number of the range is known or in a chunk of at most 11 that is asked for. */
  lemma UpdateCoversRange(f: Fetches, stream: Range, known: set<nat>, now: int, n: nat)
    requires stream.low <= n <= stream.high
    ensures n in known || exists low: nat, high: nat ::
      low <= n <= high <= stream.high && high - low <= 10
          && Pursued(DoUpdate(f, stream, known, now), Query(stream.node, stream.epoch, low, high), now)
  {
    var first := FirstUnknown(stream.low, stream.high, known);
    if n < first {
      PrefixKnown(stream.low, stream.high, known, n);
    } else {
      var parts := Chunks(first, stream.high);
      ChunksTile(first, stream.high);
      TilesOrdered(parts, first, stream.high);
      ScheduledArePursued(f, stream.node, stream.epoch, parts, now);
      TilesCover(parts, first, stream.high, n);
      var c :| c in parts && c.0 <= n <= c.1;
      TilesEnd(parts, first, stream.high, c);
      assert Pursued(DoUpdate(f, stream, known, now), Query(stream.node, stream.epoch, c.0, c.1), now);
    }
  }

  lemma {:induction false} TilesEnd(parts: seq<Interval>, low: nat, high: nat, c: Interval)
    requires Tiles(parts, low, high) && c in parts
    ensures c.1 <= high
  {
    if c == parts[0] {
      TilesReach(parts[1..], parts[0].1 + 1, high);
    } else {
      TilesEnd(parts[1..], parts[0].1 + 1, high, c);
    }
  }

  lemma {:induction false} TilesReach(parts: seq<Interval>, low: nat, high: nat)
    requires Tiles(parts, low, high)
    ensures low <= high + 1
  {
    if parts != [] { TilesReach(parts[1..], parts[0].1 + 1, high); }
  }

  /** After a reply every number of the range was returned or lies in exactly the run that is asked for. */
  lemma ReplyCoversRange(f: Fetches, q: Query, reply: seq<Mapped>, now: int, n: nat)
    requires reply != [] && q.low <= n <= q.high
    ensures n in InRange(q, reply) || exists a: nat, b: nat ::
      a <= n <= b && MaximalRun(q.low, q.high, InRange(q, reply), a, b)
          && Pursued(DoReply(f, q, reply, now), Query(q.node, q.epoch, a, b), now)
  {
    var returned := InRange(q, reply);
    if n !in returned {
      var gaps := Gaps(q.low, q.high, returned, None);
      var a, b := RunAround(q.low, q.high, returned, n);
      GapsAreMaximalRuns(q.low, q.high, returned, None, a, b);
      GapsAreApart(q.low, q.high, returned, None);
      ApartOrdered(gaps, q.low, q.high);
      ScheduledArePursued(Complete(f, q), q.node, q.epoch, gaps, now);
      assert (a, b) in gaps;
    }
  }

  lemma {:induction false} ApartOrdered(parts: seq<Interval>, low: nat, high: nat)
    requires Apart(parts, low, high)
    ensures forall c :: c in parts ==> low <= c.0 <= c.1 <= high
  {
    if parts != [] {
      ApartOrdered(parts[1..], parts[0].1 + 2, high);
      forall c | c in parts ensures c == parts[0] || c in parts[1..] {}
    }
  }

  lemma RunAround(low: nat, high: nat, returned: set<nat>, n: nat) returns (a: nat, b: nat)
    requires low <= n <= high && n !in returned
    ensures a <= n <= b && MaximalRun(low, high, returned, a, b)
  {
    a, b := n, n;
    while a > low && a - 1 !in returned
      invariant low <= a <= n && forall m: nat :: a <= m <= n ==> m !in returned
    {
      a := a - 1;
    }
    while b < high && b + 1 !in returned
      invariant n <= b <= high && forall m: nat :: a <= m <= b ==> m !in returned
    {
      b := b + 1;
    }
  }

  // ---------- exactly what is asked for ----------

  ghost predicate BackingOff(f: Fetches, key: Query, now: int) {
    key in f.suppressUntil && f.suppressUntil[key] > now
  }

  /** Of the ranges to ask for, exactly those not backing off are in flight afterwards; nothing else changes. */
  lemma {:induction false} ScheduleAllExactly(f: Fetches, node: Name, epoch: uint64, parts: seq<Interval>, now: int,
      key: Query)
    requires forall c :: c in parts ==> c.0 <= c.1
    ensures var g := ScheduleAll(f, node, epoch, parts, now);
      && (key in g.inFlight <==>
           || key in f.inFlight
           || (key.node == node && key.epoch == epoch && (key.low, key.high) in parts && !BackingOff(f, key, now)))
      && (BackingOff(g, key, now) <==> BackingOff(f, key, now))
    decreases |parts|
  {
    if parts != [] {
      var c := parts[0];
      assert c in parts;
      var m := Schedule(f, Query(node, epoch, c.0, c.1), now);
      ScheduleAllExactly(m, node, epoch, parts[1..], now, key);
      assert (key.low, key.high) in parts <==> (key.low, key.high) == c || (key.low, key.high) in parts[1..];
    }
  }

  /** The chunks start every 11 numbers from the first one, and only the last one may be shorter than that. */
  lemma {:induction false} ChunksExactly(low: nat, high: nat, a: nat, b: nat)
    requires low <= high + 1
    ensures (a, b) in Chunks(low, high) <==>
      low <= a <= high && (a - low) % 11 == 0 && b == if a + 10 <= high then a + 10 else high
    decreases high + 1 - low
  {
    if low + 11 <= high + 1 {
      ChunksExactly(low + 11, high, a, b);
      assert a >= low + 11 ==> (a - low) % 11 == (a - (low + 11)) % 11;
    } else if low <= high {
      assert Chunks(low + 11, high) == [];
    }
  }

  lemma FirstUnknownIs(low: nat, high: nat, known: set<nat>)
    requires low <= high + 1
    ensures var first := FirstUnknown(low, high, known);
      (forall n: nat :: low <= n < first ==> n in known) && (first <= high ==> first !in known)
  {
    var first := FirstUnknown(low, high, known);
    forall n: nat | low <= n < first ensures n in known { PrefixKnown(low, high, known, n); }
    StopsAtUnknown(low, high, known);
  }

  lemma {:induction false} StopsAtUnknown(low: nat, high: nat, known: set<nat>)
    requires low <= high + 1
    ensures FirstUnknown(low, high, known) <= high ==> FirstUnknown(low, high, known) !in known
    decreases high + 1 - low
  {
    if low <= high && low in known { StopsAtUnknown(low + 1, high, known); }
  }

  /**
   * An update asks for nothing before the first unknown number `first`, and from there for exactly the chunks that
   * start every 11 numbers and are not backing off.
   */
  lemma UpdateAsksExactly(f: Fetches, stream: Range, known: set<nat>, now: int, key: Query) returns (first: nat)
    requires stream.low <= stream.high
    ensures stream.low <= first && (forall n: nat :: stream.low <= n < first ==> n in known)
    ensures first <= stream.high ==> first !in known
    ensures key in DoUpdate(f, stream, known, now).inFlight <==>
      || key in f.inFlight
      || (&& key.node == stream.node && key.epoch == stream.epoch && !BackingOff(f, key, now)
          && first <= key.low <= stream.high && (key.low - first) % 11 == 0
          && key.high == if key.low + 10 <= stream.high then key.low + 10 else stream.high)
  {
    first := FirstUnknown(stream.low, stream.high, known);
    FirstUnknownIs(stream.low, stream.high, known);
    var parts := Chunks(first, stream.high);
    ChunksTile(first, stream.high);
    TilesOrdered(parts, first, stream.high);
    ScheduleAllExactly(f, stream.node, stream.epoch, parts, now, key);
    ChunksExactly(first, stream.high, key.low, key.high);
  }

  /** A number of the range counts as returned exactly when the reply maps it under the epoch asked for. */
  lemma InRangeExactly(q: Query, reply: seq<Mapped>, n: nat)
    ensures n in InRange(q, reply) <==> q.low <= n <= q.high && Mapped(q.epoch, n) in reply
  {
    if Mapped(q.epoch, n) in reply {
      var i :| 0 <= i < |reply| && reply[i] == Mapped(q.epoch, n);
    }
  }

  /**
   * A reply forgets its query; unless it is empty, exactly the maximal runs it leaves out, and that are not backing
   * off, are asked for again.
   */
  lemma ReplyAsksExactly(f: Fetches, q: Query, reply: seq<Mapped>, now: int, key: Query)
    requires q.low <= q.high
    ensures var g := DoReply(f, q, reply, now);
      key in g.inFlight <==>
        || (key in f.inFlight && key != q)
        || (&& reply != [] && key.node == q.node && key.epoch == q.epoch && (key == q || !BackingOff(f, key, now))
            && MaximalRun(q.low, q.high, InRange(q, reply), key.low, key.high))
  {
    if reply != [] {
      var returned := InRange(q, reply);
      var gaps := Gaps(q.low, q.high, returned, None);
      GapsAreApart(q.low, q.high, returned, None);
      ApartOrdered(gaps, q.low, q.high);
      GapsAreMaximalRuns(q.low, q.high, returned, None, key.low, key.high);
      ScheduleAllExactly(Complete(f, q), q.node, q.epoch, gaps, now, key);
    }
  }

  /** A failed query is no longer in flight; asked for again, it is sent at once unless a back-off is still running. */
  lemma FailureReleases(backoff: int, f: Fetches, q: Query, failedAt: int, now: int)
    requires Sound(f) && Normal(q) in f.inFlight
    ensures var g := Step(backoff)(f, Failed(q, failedAt));
      && g.inFlight == f.inFlight - {Normal(q)}
      && (Normal(q) in Schedule(g, q, now).inFlight <==> backoff <= 0 || failedAt + backoff <= now)
  {
  }

  // ---------- gap filling ends ----------

  /** Numbers asked for and not answered yet. */
  ghost function Outstanding(keys: set<Query>): nat {
    if keys == {} then 0
    else
      var key :| key in keys;
      Outstanding(keys - {key}) + Numbers(key)
  }

  function Numbers(key: Query): nat { if key.low <= key.high then key.high - key.low + 1 else 0 }

  lemma {:induction false} OutstandingWithout(keys: set<Query>, key: Query)
    requires key in keys
    ensures Outstanding(keys) == Outstanding(keys - {key}) + Numbers(key)
    decreases |keys|
  {
    var k :| k in keys && Outstanding(keys) == Outstanding(keys - {k}) + Numbers(k);
    if k != key {
      OutstandingWithout(keys - {k}, key);
      OutstandingWithout(keys - {key}, k);
      assert keys - {k} - {key} == keys - {key} - {k};
    }
  }

  lemma {:induction false} ScheduleAllOutstanding(f: Fetches, node: Name, epoch: uint64, parts: seq<Interval>, now: int)
    requires forall c :: c in parts ==> c.0 <= c.1
    ensures Outstanding(ScheduleAll(f, node, epoch, parts, now).inFlight) <= Outstanding(f.inFlight) + TotalWidth(parts)
    decreases |parts|
  {
    if parts != [] {
      assert parts[0] in parts;
      var key := Query(node, epoch, parts[0].0, parts[0].1);
      var g := Schedule(f, key, now);
      if key !in f.inFlight {
        OutstandingWithout(f.inFlight + {key}, key);
        assert f.inFlight + {key} - {key} == f.inFlight;
      }
      ScheduleAllOutstanding(g, node, epoch, parts[1..], now);
    }
  }

  /** A reply that returns numbers of the range settles them: the outstanding total drops by that many. */
  lemma ReplySettles(f: Fetches, q: Query, reply: seq<Mapped>, now: int)
    requires q.low <= q.high && q in f.inFlight
    ensures Outstanding(DoReply(f, q, reply, now).inFlight) + Returned(q.low, q.high, InRange(q, reply))
        <= Outstanding(f.inFlight)
  {
    var returned := InRange(q, reply);
    OutstandingWithout(f.inFlight, q);
    if reply == [] {
      ReturnedAtMost(q.low, q.high, returned);
    } else {
      var gaps := Gaps(q.low, q.high, returned, None);
      GapsWidth(q.low, q.high, returned, None);
      GapsAreApart(q.low, q.high, returned, None);
      ApartOrdered(gaps, q.low, q.high);
      ScheduleAllOutstanding(Complete(f, q), q.node, q.epoch, gaps, now);
    }
  }

  lemma {:induction false} ReturnedAtMost(n: nat, high: nat, returned: set<nat>)
    requires n <= high + 1
    ensures Returned(n, high, returned) <= high + 1 - n
    decreases high + 1 - n
  {
    if n <= high { ReturnedAtMost(n + 1, high, returned); }
  }

  /** A reply to a query in flight that holds at least one number of its range. */
  ghost predicate Settles(f: Fetches, e: Event) {
    e.Reply? && e.query in f.inFlight && InRange(e.query, e.reply) != {}
  }

  ghost function CountSettling(backoff: int, f: Fetches, es: seq<Event>): nat
    decreases |es|
  {
    if es == [] then 0
    else CountSettling(backoff, Step(backoff)(f, es[0]), es[1..]) + if Settles(f, es[0]) then 1 else 0
  }

  ghost predicate AnswersOnly(f: Fetches, e: Event) {
    !e.Update? && (e.Reply? ==> e.query in f.inFlight)
  }

  ghost predicate WellFormed(f: Fetches) { forall key :: key in f.inFlight ==> key.low <= key.high }

  lemma {:induction false} ScheduleKeepsForm(f: Fetches, node: Name, epoch: uint64, parts: seq<Interval>, now: int)
    requires WellFormed(f)
    ensures WellFormed(ScheduleAll(f, node, epoch, parts, now))
    decreases |parts|
  {
    if parts != [] {
      var q := Query(node, epoch, parts[0].0, parts[0].1);
      ScheduleKeepsForm(Schedule(f, q, now), node, epoch, parts[1..], now);
    }
  }

  lemma AnswerSettles(backoff: int, f: Fetches, e: Event)
    requires WellFormed(f) && AnswersOnly(f, e)
    ensures var g := Step(backoff)(f, e);
      WellFormed(g) && Outstanding(g.inFlight) + (if Settles(f, e) then 1 else 0) <= Outstanding(f.inFlight)
  {
    match e
    case Update(_, _, _) =>
    case Reply(q, reply, now) =>
      assert Normal(q) == q;
      ReplySettles(f, q, reply, now);
      ScheduleKeepsForm(Complete(f, q), q.node, q.epoch, Gaps(q.low, q.high, InRange(q, reply), None), now);
      if Settles(f, e) {
        var m :| m in InRange(q, reply);
        SomethingReturned(q.low, q.high, InRange(q, reply), m);
      }
    case Failed(q, now) =>
      if Normal(q) in f.inFlight { OutstandingWithout(f.inFlight, Normal(q)); }
      else { assert f.inFlight - {Normal(q)} == f.inFlight; }
  }

  /**
   * Gap filling ends: once no new updates come, replies that return something number at most the
   * numbers outstanding at the start, however the rest of the replies and failures fall.
   */
  lemma {:induction false} GapFillingTerminates(backoff: int, f: Fetches, es: seq<Event>)
    requires WellFormed(f) && Admissible(Step(backoff), AnswersOnly, f, es)
    ensures CountSettling(backoff, f, es) + Outstanding(Run(Step(backoff), f, es).inFlight) <= Outstanding(f.inFlight)
    decreases |es|
  {
    if es != [] {
      AnswerSettles(backoff, f, es[0]);
      var g := Step(backoff)(f, es[0]);
      GapFillingTerminates(backoff, g, es[1..]);
    }
  }

  // ---------- the answering side ----------

  /** What the provider knows of the asked range, in ascending order; the end is at least the start. */
  function Answer(known: set<nat>, epoch: uint64, n: nat, high: nat): seq<Mapped>
    requires n <= high + 1
    decreases high + 1 - n
  {
    if n > high then [] else (if n in known then [Mapped(epoch, n)] else []) + Answer(known, epoch, n + 1, high)
  }

  lemma {:induction false} AnswerIsWhatIsKnown(known: set<nat>, epoch: uint64, n: nat, high: nat, m: Mapped)
    requires n <= high + 1
    ensures m in Answer(known, epoch, n, high) <==> m.epoch == epoch && n <= m.seqNo <= high && m.seqNo in known
    decreases high + 1 - n
  {
    if n <= high { AnswerIsWhatIsKnown(known, epoch, n + 1, high, m); }
  }

  ghost predicate Ascends(all: seq<Mapped>, low: nat, high: nat) {
    && (forall i :: 0 <= i < |all| ==> low <= all[i].seqNo <= high)
    && (forall i, j :: 0 <= i < j < |all| ==> all[i].seqNo < all[j].seqNo)
  }

  lemma SmallerFirst(m: Mapped, rest: seq<Mapped>, high: nat)
    requires Ascends(rest, m.seqNo + 1, high) && m.seqNo <= high
    ensures Ascends([m] + rest, m.seqNo, high)
  {
  }

  /** It lists them in ascending order, each once. */
  lemma {:induction false} AnswerAscends(known: set<nat>, epoch: uint64, n: nat, high: nat)
    requires n <= high + 1
    ensures Ascends(Answer(known, epoch, n, high), n, high)
    decreases high + 1 - n
  {
    if n <= high {
      var rest := Answer(known, epoch, n + 1, high);
      AnswerAscends(known, epoch, n + 1, high);
      SmallerFirst(Mapped(epoch, n), rest, high);
      assert [] + rest == rest;
    }
  }

  /** A provider that answers at all settles something: it answers only with a non-empty part of the range. */
  lemma ProviderMakesProgress(f: Fetches, known: set<nat>, q: Query, now: int)
    requires q in f.inFlight && q.low <= q.high
    requires Answer(known, q.epoch, q.low, q.high) != []
    ensures var reply := Answer(known, q.epoch, q.low, q.high);
      && Settles(f, Reply(q, reply, now)) && InRange(q, reply) == set m | m in known && q.low <= m <= q.high
      && Outstanding(DoReply(f, q, reply, now).inFlight) < Outstanding(f.inFlight)
  {
    var reply := Answer(known, q.epoch, q.low, q.high);
    forall m: Mapped ensures m in reply <==> m.epoch == q.epoch && q.low <= m.seqNo <= q.high && m.seqNo in known {
      AnswerIsWhatIsKnown(known, q.epoch, q.low, q.high, m);
    }
    InRangeIs(q, reply, known);
    assert reply[0] in reply && reply[0].seqNo in InRange(q, reply);
    ReplySettles(f, q, reply, now);
    SomethingReturned(q.low, q.high, InRange(q, reply), reply[0].seqNo);
  }

  lemma InRangeIs(q: Query, reply: seq<Mapped>, known: set<nat>)
    requires forall m: Mapped :: m in reply <==> m.epoch == q.epoch && q.low <= m.seqNo <= q.high && m.seqNo in known
    ensures InRange(q, reply) == set m | m in known && q.low <= m <= q.high
  {
    forall m: nat | m in known && q.low <= m <= q.high ensures m in InRange(q, reply) {
      assert Mapped(q.epoch, m) in reply;
      var i :| 0 <= i < |reply| && reply[i] == Mapped(q.epoch, m);
    }
    forall m | m in InRange(q, reply) ensures m in known && q.low <= m <= q.high {
      var i :| 0 <= i < |reply| && reply[i].epoch == q.epoch && q.low <= reply[i].seqNo <= q.high
          && reply[i].seqNo == m;
      assert reply[i] in reply;
    }
  }

  // ---------- back-off ----------

  ghost predicate Disjoint(f: Fetches) { forall key :: key in f.inFlight ==> key !in f.suppressUntil }

  lemma {:induction false} ScheduleAllKeepsApart(f: Fetches, node: Name, epoch: uint64, parts: seq<Interval>, now: int)
    requires Disjoint(f)
    ensures Disjoint(ScheduleAll(f, node, epoch, parts, now))
    decreases |parts|
  {
    if parts != [] {
      var q := Query(node, epoch, parts[0].0, parts[0].1);
      ScheduleAllKeepsApart(Schedule(f, q, now), node, epoch, parts[1..], now);
    }
  }

  ghost predicate Sound(f: Fetches) { WellFormed(f) && Disjoint(f) }

  lemma StepKeepsSound(backoff: int, f: Fetches, e: Event)
    requires Sound(f)
    ensures Sound(Step(backoff)(f, e))
  {
    match e
    case Update(stream, known, now) =>
      var parts :=
        if stream.low <= stream.high then Chunks(FirstUnknown(stream.low, stream.high, known), stream.high) else [];
      ScheduleKeepsForm(f, stream.node, stream.epoch, parts, now);
      ScheduleAllKeepsApart(f, stream.node, stream.epoch, parts, now);
    case Reply(q, reply, now) =>
      var key := Normal(q);
      var parts := Gaps(key.low, key.high, InRange(key, reply), None);
      ScheduleKeepsForm(Complete(f, key), key.node, key.epoch, parts, now);
      ScheduleAllKeepsApart(Complete(f, key), key.node, key.epoch, parts, now);
    case Failed(q, now) =>
  }

  const NOTHING := Fetches({}, map[])

  /** In every reachable state queries in flight are non-empty ranges, and none of them is backing off. */
  lemma QueriesAreSound(backoff: int, es: seq<Event>)
    ensures Sound(Run(Step(backoff), NOTHING, es))
  {
    AllAdmissible(Step(backoff), NOTHING, es);
    forall f, e | Sound(f) ensures Sound(Step(backoff)(f, e)) { StepKeepsSound(backoff, f, e); }
    Invariance(Step(backoff), Always, Sound, NOTHING, es);
  }

  /** The query failed and may not be sent again before `until`. */
  ghost predicate Resting(f: Fetches, key: Query, until: int) {
    key !in f.inFlight && key in f.suppressUntil && f.suppressUntil[key] >= until
  }

  lemma {:induction false} ScheduleAllRests(f: Fetches, node: Name, epoch: uint64, parts: seq<Interval>, now: int,
      key: Query, until: int)
    requires Resting(f, key, until) && now < until
    ensures Resting(ScheduleAll(f, node, epoch, parts, now), key, until)
    decreases |parts|
  {
    if parts != [] {
      var q := Query(node, epoch, parts[0].0, parts[0].1);
      ScheduleAllRests(Schedule(f, q, now), node, epoch, parts[1..], now, key, until);
    }
  }

  function TimeOf(e: Event): int { e.now }

  lemma {:induction false} RestingStays(backoff: int, f: Fetches, es: seq<Event>, key: Query, failedAt: int)
    requires Resting(f, key, failedAt + backoff) && backoff > 0
    requires forall e :: e in es ==> failedAt <= TimeOf(e) < failedAt + backoff && (e.Reply? ==> Normal(e.query) != key)
    ensures key !in Run(Step(backoff), f, es).inFlight
    decreases |es|
  {
    if es != [] {
      var until := failedAt + backoff;
      assert es[0] in es;
      match es[0] {
        case Update(stream, known, now) =>
          ScheduleAllRests(f, stream.node, stream.epoch,
            if stream.low <= stream.high then Chunks(FirstUnknown(stream.low, stream.high, known), stream.high) else [],
            now, key, until);
        case Reply(q, reply, now) =>
          var k := Normal(q);
          var gaps := Gaps(k.low, k.high, InRange(k, reply), None);
          ScheduleAllRests(Complete(f, k), k.node, k.epoch, gaps, now, key, until);
        case Failed(q, now) =>
      }
      RestingStays(backoff, Step(backoff)(f, es[0]), es[1..], key, failedAt);
    }
  }

  /** From a failure until the back-off ends the same query is not sent again, whatever is heard meanwhile. */
  lemma BackoffIsRespected(backoff: int, f: Fetches, q: Query, failedAt: int, es: seq<Event>)
    requires backoff > 0
    requires forall e :: e in es ==>
               failedAt <= TimeOf(e) < failedAt + backoff && (e.Reply? ==> Normal(e.query) != Normal(q))
    ensures Normal(q) !in Run(Step(backoff), f, [Failed(q, failedAt)] + es).inFlight
  {
    var g := Step(backoff)(f, Failed(q, failedAt));
    assert Resting(g, Normal(q), failedAt + backoff);
    RestingStays(backoff, g, es, Normal(q), failedAt);
    assert ([Failed(q, failedAt)] + es)[1..] == es;
  }

  // ---------- the machine ----------

  lemma {:induction false} ScheduleAllAppend(f: Fetches, node: Name, epoch: uint64, a: seq<Interval>, b: seq<Interval>,
      now: int)
    ensures ScheduleAll(f, node, epoch, a + b, now)
        == ScheduleAll(ScheduleAll(f, node, epoch, a, now), node, epoch, b, now)
    decreases |a|
  {
    if a == [] {
      assert a + b == b;
    } else {
      assert (a + b)[1..] == a[1..] + b;
      ScheduleAllAppend(Schedule(f, Query(node, epoch, a[0].0, a[0].1), now), node, epoch, a[1..], b, now);
    }
  }

  class MappingFetcher {
    const failureBackoff: int
    var inFlight: set<Query>
    var suppressUntil: map<Query, int>

    ghost function State(): Fetches
      reads this
    {
      Fetches(inFlight, suppressUntil)
    }

    constructor (failureBackoff: int)
      ensures State() == NOTHING && this.failureBackoff == failureBackoff
    {
      this.failureBackoff := failureBackoff;
      inFlight, suppressUntil := {}, map[];
    }

    method ScheduleMappingFetch(requested: Query, now: int) returns (sent: bool)
      modifies this
      ensures State() == Schedule(old(State()), requested, now)
      ensures sent <==> !Pursued(old(State()), Normal(requested), now)
    {
      var key := Normal(requested);
      if key in inFlight { return false; }
      if key in suppressUntil && suppressUntil[key] > now { return false; }
      suppressUntil := suppressUntil - {key};
      inFlight := inFlight + {key};
      sent := true;
    }

    method MarkMappingFetchFailed(q: Query, now: int)
      modifies this
      ensures State() == Step(failureBackoff)(old(State()), Failed(q, now))
    {
      var key := Normal(q);
      inFlight := inFlight - {key};
      if failureBackoff > 0 {
        suppressUntil := suppressUntil[key := now + failureBackoff];
      }
    }

    /** The part of an update that looks for mappings: skip what is known, ask for the rest in chunks. */
    method UpdateCallback(stream: Range, known: set<nat>, now: int)
      modifies this
      ensures State() == Step(failureBackoff)(old(State()), Update(stream, known, now))
    {
      if stream.low > stream.high { return; }
      var low, high := stream.low as nat, stream.high as nat;
      while low <= high && low in known
        invariant low <= high + 1
        invariant FirstUnknown(low, high, known) == FirstUnknown(stream.low, high, known)
        invariant State() == old(State())
      {
        low := low + 1;
      }
      ghost var goal := DoUpdate(State(), stream, known, now);
      while high >= low
        invariant goal == ScheduleAll(State(), stream.node, stream.epoch, Chunks(low, high), now)
        decreases if low <= high then high + 1 - low else 0
      {
        var end := if high - low > 10 then low + 10 else high;
        var _ := ScheduleMappingFetch(Query(stream.node, stream.epoch, low, end), now);
        low := low + 11;
      }
    }

    /** Handles a reply: forget the query, then ask again for every run of numbers it left out. */
    method OnFetchedNameMappings(q: Query, reply: seq<Mapped>, now: int)
      modifies this
      ensures State() == Step(failureBackoff)(old(State()), Reply(q, reply, now))
    {
      var key := Normal(q);
      inFlight := inFlight - {key};
      suppressUntil := suppressUntil - {key};
      if reply == [] { return; }
      var returned: set<nat> := {};
      for i := 0 to |reply|
        invariant State() == Complete(old(State()), key)
        invariant returned == InRange(key, reply[..i])
      {
        OneMapped(key, reply, i);
        if reply[i].epoch == key.epoch && key.low <= reply[i].seqNo <= key.high {
          returned := returned + {reply[i].seqNo};
        }
      }
      assert reply[..|reply|] == reply;
      ghost var f := State();
      ghost var goal := ScheduleAll(f, key.node, key.epoch, Gaps(key.low, key.high, returned, None), now);
      var seqNo, missingLow: Option<nat> := key.low, None;
      while seqNo <= key.high
        invariant key.low <= seqNo <= key.high + 1 && (missingLow.Some? ==> missingLow.value < seqNo)
        invariant goal == ScheduleAll(State(), key.node, key.epoch, Gaps(seqNo, key.high, returned, missingLow), now)
      {
        ghost var rest := Gaps(seqNo + 1, key.high, returned, None);
        if seqNo !in returned {
          if missingLow.None? { missingLow := Some(seqNo); }
        } else if missingLow.Some? {
          ScheduleAllAppend(State(), key.node, key.epoch, [(missingLow.value, seqNo - 1)], rest, now);
          OneScheduled(State(), key.node, key.epoch, (missingLow.value, seqNo - 1), now);
          var _ := ScheduleMappingFetch(Query(key.node, key.epoch, missingLow.value, seqNo - 1), now);
          missingLow := None;
        } else {
          assert [] + rest == rest;
        }
        seqNo := seqNo + 1;
      }
      if missingLow.Some? {
        OneScheduled(State(), key.node, key.epoch, (missingLow.value, key.high), now);
        var _ := ScheduleMappingFetch(Query(key.node, key.epoch, missingLow.value, key.high), now);
      }
    }
  }

  lemma OneMapped(key: Query, reply: seq<Mapped>, i: nat)
    requires i < |reply|
    ensures InRange(key, reply[..i + 1])
      == InRange(key, reply[..i])
         + if reply[i].epoch == key.epoch && key.low <= reply[i].seqNo <= key.high then {reply[i].seqNo} else {}
  {
    var longer := reply[..i + 1];
    assert longer == reply[..i] + [reply[i]];
    forall m | m in InRange(key, reply[..i]) ensures m in InRange(key, longer) {
      var j :| 0 <= j < i && reply[..i][j].epoch == key.epoch && key.low <= reply[..i][j].seqNo <= key.high
          && reply[..i][j].seqNo == m;
      assert longer[j] == reply[..i][j];
    }
    assert longer[i] == reply[i];
  }

  lemma OneScheduled(f: Fetches, node: Name, epoch: uint64, c: Interval, now: int)
    ensures ScheduleAll(f, node, epoch, [c], now) == Schedule(f, Query(node, epoch, c.0, c.1), now)
  {
    assert [c][1..] == [];
  }

  /** Answers a query with the known part of its range; no answer when nothing is known. */
  method OnMappingQuery(known: set<nat>, epoch: uint64, low: nat, high: nat) returns (r: Option<seq<Mapped>>)
    ensures var all := Answer(known, epoch, low, if high < low then low else high);
      r == if all == [] then None else Some(all)
  {
    var last := if high < low then low else high;
    var pairs, i := [], low;
    while i <= last
      invariant low <= i <= last + 1 && pairs + Answer(known, epoch, i, last) == Answer(known, epoch, low, last)
    {
      if i in known { pairs := pairs + [Mapped(epoch, i)]; }
      i := i + 1;
    }
    assert pairs + [] == pairs;
    r := if pairs == [] then None else Some(pairs);
  }
}
