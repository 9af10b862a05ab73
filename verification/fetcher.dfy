/** The windowed, retrying Interest queue (fetcher.cpp). */
module Fetcher {
  import opened Names
  import opened Runs

  /**
   * One queued or outstanding Interest. `origin` is the id the request was first expressed under,
   * `sends` how often it has been put on the wire and `ending` which callback ended it; they only
   * record history.
   */
  datatype Request = Request(id: nat, origin: nat, nRetries: int, nValidationRetries: int, sends: nat, ending: Ending)

  datatype Ending = Open | Satisfied | Nacked | TimedOut | Invalid

  datatype Fetch = Fetch(
    queue: seq<Request>, pending: map<nat, Request>, counter: nat, window: nat,
    validating: map<nat, Request>, waiting: map<nat, Request>, finished: seq<Request>,
    validator: bool, expressed: map<nat, (int, int)>, maxWindow: nat)

  datatype Event =
    | Express(nRetries: int, nValidationRetries: int)
    | Data(id: nat)
    | Nack(id: nat)
    | Timeout(id: nat)
    | Validated(id: nat)
    | ValidationFailed(id: nat)
    | RetryTimer(id: nat)
    | SetWindow(size: nat)

  // ---------- steps ----------

  /** processQueue pops one request and puts it on the wire. */
  ghost function Sent(f: Fetch): Fetch
    requires f.queue != []
  {
    var r := f.queue[0];
    f.(queue := f.queue[1..], pending := f.pending[r.id := r.(sends := r.sends + 1)])
  }

  ghost function ProcessQueue(f: Fetch): (g: Fetch)
    decreases |f.queue|
  {
    if f.queue != [] && |f.pending| < f.window then
      ProcessQueue(Sent(f))
    else f
  }

  ghost function Enqueue(f: Fetch, r: Request): Fetch {
    ProcessQueue(f.(counter := f.counter + 1, queue := f.queue + [r.(id := f.counter + 1)]))
  }

  ghost function Finish(f: Fetch, r: Request, how: Ending): Fetch { f.(finished := f.finished + [r.(ending := how)]) }

  ghost function Release(f: Fetch, id: nat): Fetch { f.(pending := f.pending - {id}) }

  ghost function DoExpress(f: Fetch, nRetries: int, nValidationRetries: int): Fetch {
    var id := f.counter + 1;
    Enqueue(f.(expressed := f.expressed[id := (nRetries, nValidationRetries)]),
        Request(id, id, nRetries, nValidationRetries, 0, Open))
  }

  ghost function DoData(f: Fetch, id: nat): Fetch
    requires id in f.pending
  {
    var r := f.pending[id];
    var g := ProcessQueue(Release(f, id));
    if f.validator then g.(validating := g.validating[id := r]) else Finish(g, r, Satisfied)
  }

  ghost function DoTimeout(f: Fetch, id: nat): Fetch
    requires id in f.pending
  {
    var r := f.pending[id];
    if r.nRetries == 0 then Finish(ProcessQueue(Release(f, id)), r, TimedOut)
    else Enqueue(Release(f, id), r.(nRetries := r.nRetries - 1))
  }

  ghost function DoValidationFailed(f: Fetch, id: nat): Fetch
    requires id in f.validating
  {
    var r := f.validating[id];
    var g := f.(validating := f.validating - {id});
    if r.nValidationRetries > 0 then g.(waiting := g.waiting[id := r]) else Finish(g, r, Invalid)
  }

  ghost function DoRetry(f: Fetch, id: nat): Fetch
    requires id in f.waiting
  {
    var r := f.waiting[id];
    Enqueue(f.(waiting := f.waiting - {id}), r.(nValidationRetries := r.nValidationRetries - 1))
  }

  ghost function Step(f: Fetch, e: Event): Fetch {
    match e
    case Express(n, v) => DoExpress(f, n, v)
    case Data(id) => if id in f.pending then DoData(f, id) else f
    case Nack(id) => if id in f.pending then Finish(ProcessQueue(Release(f, id)), f.pending[id], Nacked) else f
    case Timeout(id) => if id in f.pending then DoTimeout(f, id) else f
    case Validated(id) =>
      if id in f.validating then Finish(f.(validating := f.validating - {id}), f.validating[id], Satisfied) else f
    case ValidationFailed(id) => if id in f.validating then DoValidationFailed(f, id) else f
    case RetryTimer(id) => if id in f.waiting then DoRetry(f, id) else f
    case SetWindow(size) => ProcessQueue(f.(window := Max(1, size), maxWindow := Max(f.maxWindow, Max(1, size))))
  }

  // ---------- where the requests are ----------

  ghost function OriginsOf(rs: seq<Request>): multiset<nat> {
    multiset(seq(|rs|, i requires 0 <= i < |rs| => rs[i].origin))
  }

  ghost function IdsOf(rs: seq<Request>): multiset<nat> {
    multiset(seq(|rs|, i requires 0 <= i < |rs| => rs[i].id))
  }

  ghost function OriginsAt(m: map<nat, Request>, ids: set<nat>): multiset<nat>
    requires ids <= m.Keys
  {
    if ids == {} then multiset{}
    else
      var id :| id in ids;
      OriginsAt(m, ids - {id}) + multiset{m[id].origin}
  }

  ghost function OriginsIn(m: map<nat, Request>): multiset<nat> { OriginsAt(m, m.Keys) }

  /** The origins of all requests, wherever they are. */
  ghost function Everywhere(f: Fetch): multiset<nat> {
    OriginsOf(f.queue) + OriginsIn(f.pending) + OriginsIn(f.validating) + OriginsIn(f.waiting) + OriginsOf(f.finished)
  }

  /** Every request ever expressed is queued, pending, validating, waiting or finished, in exactly one place. */
  ghost predicate Conserved(f: Fetch) {
    Everywhere(f) == multiset(f.expressed.Keys)
  }

  ghost function LiveIds(f: Fetch): multiset<nat> {
    IdsOf(f.queue) + multiset(f.pending.Keys) + multiset(f.validating.Keys) + multiset(f.waiting.Keys)
  }

  ghost predicate DistinctIds(f: Fetch) {
    forall id :: LiveIds(f)[id] <= 1 && (id in LiveIds(f) ==> 1 <= id <= f.counter)
  }

  ghost predicate ExpressedBelow(f: Fetch, bound: nat) {
    forall id :: id in f.expressed ==> 1 <= id <= bound
  }

  /** No two requests on their way share an id, and ids are handed out upwards. */
  ghost predicate UniqueIds(f: Fetch) { DistinctIds(f) && ExpressedBelow(f, f.counter) }

  ghost predicate WindowKept(f: Fetch) {
    && 1 <= f.window <= f.maxWindow && |f.pending| <= f.maxWindow
    && (f.queue != [] ==> |f.pending| >= f.window)
  }

  function Budget(v: int): nat { if v < 0 then 0 else v }

  /** How often the request was sent follows from the retries it has used up. */
  ghost predicate Accounted(expressed: map<nat, (int, int)>, r: Request, out: nat) {
    && r.origin in expressed
    && var (n, v) := expressed[r.origin];
       && r.nRetries <= n && (n >= 0 ==> r.nRetries >= 0)
       && r.nValidationRetries <= v && (v >= 0 ==> r.nValidationRetries >= 0) && (v < 0 ==> r.nValidationRetries == v)
       && r.sends == (n - r.nRetries) + (v - r.nValidationRetries) + out
  }

  ghost predicate AllAccounted(f: Fetch) {
    && (forall i :: 0 <= i < |f.queue| ==> Accounted(f.expressed, f.queue[i], 0))
    && (forall id :: id in f.pending ==> Accounted(f.expressed, f.pending[id], 1) && f.pending[id].id == id)
    && (forall id :: id in f.validating ==> Accounted(f.expressed, f.validating[id], 1))
    && (forall id :: id in f.waiting ==>
        Accounted(f.expressed, f.waiting[id], 1) && f.waiting[id].nValidationRetries > 0)
    && (forall i :: 0 <= i < |f.finished| ==> Accounted(f.expressed, f.finished[i], 1))
  }

  ghost predicate Invariant(f: Fetch) {
    Conserved(f) && UniqueIds(f) && WindowKept(f) && AllAccounted(f)
  }

  /** Everything but the work-conservation half of the window rule; holds between the parts of a step. */
  ghost predicate Loose(f: Fetch) {
    Conserved(f) && UniqueIds(f) && AllAccounted(f) && 1 <= f.window <= f.maxWindow && |f.pending| <= f.maxWindow
  }

  // ---------- multiset facts ----------

  lemma {:induction false} OriginsAtRemove(m: map<nat, Request>, ids: set<nat>, id: nat)
    requires ids <= m.Keys && id in ids
    ensures OriginsAt(m, ids) == OriginsAt(m, ids - {id}) + multiset{m[id].origin}
    decreases |ids|
  {
    var k :| k in ids && OriginsAt(m, ids) == OriginsAt(m, ids - {k}) + multiset{m[k].origin};
    if k != id {
      OriginsAtRemove(m, ids - {k}, id);
      OriginsAtRemove(m, ids - {id}, k);
      assert ids - {k} - {id} == ids - {id} - {k};
    }
  }

  lemma {:induction false} OriginsAtSame(m: map<nat, Request>, n: map<nat, Request>, ids: set<nat>)
    requires ids <= m.Keys && ids <= n.Keys && forall id :: id in ids ==> m[id] == n[id]
    ensures OriginsAt(m, ids) == OriginsAt(n, ids)
    decreases |ids|
  {
    if ids != {} {
      var k :| k in ids && OriginsAt(m, ids) == OriginsAt(m, ids - {k}) + multiset{m[k].origin};
      OriginsAtSame(m, n, ids - {k});
      OriginsAtRemove(n, ids, k);
    }
  }

  lemma OriginsInRemove(m: map<nat, Request>, id: nat)
    requires id in m
    ensures OriginsIn(m) == OriginsIn(m - {id}) + multiset{m[id].origin}
  {
    OriginsAtRemove(m, m.Keys, id);
    assert (m - {id}).Keys == m.Keys - {id};
    OriginsAtSame(m, m - {id}, m.Keys - {id});
  }

  lemma OriginsInAdd(m: map<nat, Request>, id: nat, r: Request)
    requires id !in m
    ensures OriginsIn(m[id := r]) == OriginsIn(m) + multiset{r.origin}
  {
    OriginsInRemove(m[id := r], id);
    assert m[id := r] - {id} == m;
  }

  lemma HeadOrigins(rs: seq<Request>)
    requires rs != []
    ensures OriginsOf(rs) == multiset{rs[0].origin} + OriginsOf(rs[1..])
  {
    var t := rs[1..];
    assert seq(|rs|, i requires 0 <= i < |rs| => rs[i].origin)
        == [rs[0].origin] + seq(|t|, i requires 0 <= i < |t| => t[i].origin);
  }

  lemma HeadIds(rs: seq<Request>)
    requires rs != []
    ensures IdsOf(rs) == multiset{rs[0].id} + IdsOf(rs[1..])
  {
    var t := rs[1..];
    assert seq(|rs|, i requires 0 <= i < |rs| => rs[i].id) == [rs[0].id] + seq(|t|, i requires 0 <= i < |t| => t[i].id);
  }

  lemma Snoc(rs: seq<Request>, r: Request)
    ensures OriginsOf(rs + [r]) == OriginsOf(rs) + multiset{r.origin}
    ensures IdsOf(rs + [r]) == IdsOf(rs) + multiset{r.id}
  {
    var t := rs + [r];
    assert seq(|t|, i requires 0 <= i < |t| => t[i].origin)
        == seq(|rs|, i requires 0 <= i < |rs| => rs[i].origin) + [r.origin];
    assert seq(|t|, i requires 0 <= i < |t| => t[i].id) == seq(|rs|, i requires 0 <= i < |rs| => rs[i].id) + [r.id];
  }

  lemma AnyPosition(q: multiset<nat>, p: multiset<nat>, v: multiset<nat>, w: multiset<nat>, d: multiset<nat>,
                    x: multiset<nat>)
    ensures q + (p + x) + v + w + d == q + p + v + w + d + x
    ensures x + q + p + v + w + d == q + p + v + w + d + x
    ensures q + p + v + w + (d + x) == q + p + v + w + d + x
    ensures q + p + (v + x) + w + d == q + p + v + w + d + x
    ensures q + p + v + (w + x) + d == q + p + v + w + d + x
  {
  }

  lemma AnyIdPosition(q: multiset<nat>, p: multiset<nat>, v: multiset<nat>, w: multiset<nat>, x: multiset<nat>)
    ensures x + q + p + v + w == q + (p + x) + v + w == q + p + (v + x) + w == q + p + v + (w + x) == q + p + v + w + x
  {
  }

  // ---------- parts of steps ----------

  lemma HeadNotPending(f: Fetch)
    requires UniqueIds(f) && f.queue != []
    ensures f.queue[0].id !in f.pending
  {
    HeadIds(f.queue);
    assert LiveIds(f)[f.queue[0].id] <= 1;
  }

  lemma SentOrigins(f: Fetch)
    requires f.queue != [] && f.queue[0].id !in f.pending
    ensures Everywhere(Sent(f)) == Everywhere(f)
  {
    hide OriginsOf, OriginsIn;
    var r := f.queue[0];
    HeadOrigins(f.queue);
    OriginsInAdd(f.pending, r.id, r.(sends := r.sends + 1));
    AnyPosition(OriginsOf(f.queue[1..]), OriginsIn(f.pending), OriginsIn(f.validating), OriginsIn(f.waiting),
        OriginsOf(f.finished), multiset{r.origin});
  }

  lemma SentIds(f: Fetch)
    requires f.queue != [] && f.queue[0].id !in f.pending
    ensures LiveIds(Sent(f)) == LiveIds(f)
  {
    hide IdsOf;
    var r := f.queue[0];
    HeadIds(f.queue);
    KeysAdd(f.pending, r.id, r.(sends := r.sends + 1));
    AnyIdPosition(IdsOf(f.queue[1..]), multiset(f.pending.Keys), multiset(f.validating.Keys), multiset(f.waiting.Keys),
        multiset{r.id});
  }

  lemma KeysAdd(m: map<nat, Request>, id: nat, r: Request)
    requires id !in m
    ensures multiset(m[id := r].Keys) == multiset(m.Keys) + multiset{id}
  {
    assert m[id := r].Keys == m.Keys + {id};
  }

  lemma SentAccounts(f: Fetch)
    requires AllAccounted(f) && f.queue != []
    ensures AllAccounted(Sent(f))
  {
    assert Accounted(f.expressed, f.queue[0], 0);
  }

  lemma SentFrame(f: Fetch)
    requires f.queue != [] && f.queue[0].id !in f.pending
    ensures var g := Sent(f);
            && g.counter == f.counter && g.expressed == f.expressed && g.window == f.window
                && g.maxWindow == f.maxWindow
            && |g.pending| == |f.pending| + 1
  {
    assert Sent(f).pending.Keys == f.pending.Keys + {f.queue[0].id};
    assert |Sent(f).pending| == |Sent(f).pending.Keys|;
  }

  lemma SentKeeps(f: Fetch)
    requires Loose(f) && f.queue != [] && |f.pending| < f.window
    ensures Loose(Sent(f))
  {
    hide Everywhere, LiveIds, AllAccounted, Sent;
    HeadNotPending(f);
    SentFrame(f);
    SentOrigins(f);
    SentIds(f);
    SentAccounts(f);
  }

  ghost predicate OnlyMovesQueue(f: Fetch, g: Fetch) {
    && g.validating == f.validating && g.waiting == f.waiting && g.finished == f.finished && g.expressed == f.expressed
    && g.counter == f.counter && g.validator == f.validator && g.window == f.window && g.maxWindow == f.maxWindow
    && LiveIds(g) == LiveIds(f) && Everywhere(g) == Everywhere(f)
  }

  lemma {:induction false} ProcessQueueKeeps(f: Fetch)
    requires Loose(f)
    ensures Invariant(ProcessQueue(f)) && OnlyMovesQueue(f, ProcessQueue(f))
    decreases |f.queue|
  {
    hide Everywhere, LiveIds, AllAccounted, UniqueIds, Conserved;
    if f.queue != [] && |f.pending| < f.window {
      SentKeeps(f);
      assert Loose(f) && UniqueIds(f);
      HeadNotPending(f);
      SentOrigins(f);
      SentIds(f);
      ProcessQueueKeeps(Sent(f));
    }
  }

  lemma EnqueueOrigins(f: Fetch, r: Request, g: Fetch)
    requires g == f.(counter := f.counter + 1, queue := f.queue + [r])
    ensures Everywhere(g) == Everywhere(f) + multiset{r.origin}
    ensures LiveIds(g) == LiveIds(f) + multiset{r.id}
  {
    Snoc(f.queue, r);
    hide OriginsOf, OriginsIn, IdsOf;
  }

  lemma EnqueueAccounts(f: Fetch, r: Request, g: Fetch)
    requires g == f.(counter := f.counter + 1, queue := f.queue + [r])
    requires AllAccounted(f) && Accounted(f.expressed, r, 0)
    ensures AllAccounted(g)
  {
    hide Accounted;
  }

  /** Requeueing the one request that is currently nowhere, under a fresh id. */
  lemma EnqueueKeeps(f: Fetch, r: Request)
    requires Everywhere(f) + multiset{r.origin} == multiset(f.expressed.Keys)
    requires DistinctIds(f) && ExpressedBelow(f, f.counter + 1)
    requires AllAccounted(f) && 1 <= f.window <= f.maxWindow && |f.pending| <= f.maxWindow
    requires Accounted(f.expressed, r, 0)
    ensures Invariant(Enqueue(f, r))
  {
    hide Everywhere, LiveIds, AllAccounted, UniqueIds, DistinctIds, ExpressedBelow, Accounted, ProcessQueue;
    var s := r.(id := f.counter + 1);
    var g := f.(counter := f.counter + 1, queue := f.queue + [s]);
    assert Accounted(f.expressed, s, 0) by { SameAccount(f, r, s); }
    EnqueueOrigins(f, s, g);
    EnqueueAccounts(f, s, g);
    EnqueueIds(f, s, g);
    assert Loose(g);
    ProcessQueueKeeps(g);
  }

  lemma SameAccount(f: Fetch, r: Request, s: Request)
    requires Accounted(f.expressed, r, 0) && s == r.(id := s.id)
    ensures Accounted(f.expressed, s, 0)
  {
  }

  lemma EnqueueIds(f: Fetch, s: Request, g: Fetch)
    requires DistinctIds(f) && ExpressedBelow(f, f.counter + 1)
    requires LiveIds(g) == LiveIds(f) + multiset{s.id} && s.id == g.counter == f.counter + 1
        && g.expressed == f.expressed
    ensures UniqueIds(g)
  {
    hide LiveIds;
    forall id ensures LiveIds(g)[id] <= 1 {
      assert LiveIds(f)[id] <= 1;
      if id == s.id { assert id !in LiveIds(f); }
    }
  }

  // ---------- one request in hand ----------

  /** The invariant with one request taken out. */
  ghost predicate InHand(f: Fetch, r: Request) {
    && Everywhere(f) + multiset{r.origin} == multiset(f.expressed.Keys)
    && UniqueIds(f) && AllAccounted(f) && 1 <= f.window <= f.maxWindow && |f.pending| <= f.maxWindow
  }

  lemma KeysRemove(m: map<nat, Request>, id: nat)
    requires id in m
    ensures multiset(m.Keys) == multiset((m - {id}).Keys) + multiset{id}
    ensures |m - {id}| == |m| - 1
  {
    assert (m - {id}).Keys == m.Keys - {id};
    assert m.Keys == (m.Keys - {id}) + {id};
    assert |m| == |m.Keys| && |m - {id}| == |(m - {id}).Keys|;
  }

  /** g is f without the request `m[id]` of one of its maps. */
  ghost predicate TakenFrom(f: Fetch, g: Fetch, m: map<nat, Request>, id: nat) {
    && id in m
    && (|| (m == f.pending && g == f.(pending := m - {id}))
        || (m == f.validating && g == f.(validating := m - {id}))
        || (m == f.waiting && g == f.(waiting := m - {id})))
  }

  lemma TakeOutOrigins(f: Fetch, g: Fetch, m: map<nat, Request>, id: nat)
    requires TakenFrom(f, g, m, id)
    ensures Everywhere(f) == Everywhere(g) + multiset{m[id].origin}
  {
    hide OriginsOf, OriginsIn;
    OriginsInRemove(m, id);
    var x := multiset{m[id].origin};
    AnyPosition(OriginsOf(g.queue), OriginsIn(g.pending), OriginsIn(g.validating), OriginsIn(g.waiting),
        OriginsOf(g.finished), x);
  }

  lemma TakeOutIds(f: Fetch, g: Fetch, m: map<nat, Request>, id: nat)
    requires TakenFrom(f, g, m, id)
    ensures LiveIds(f) == LiveIds(g) + multiset{id}
  {
    hide IdsOf;
    KeysRemove(m, id);
    AnyIdPosition(IdsOf(g.queue), multiset(g.pending.Keys), multiset(g.validating.Keys), multiset(g.waiting.Keys),
        multiset{id});
  }

  lemma TakeOutAccounts(f: Fetch, g: Fetch, m: map<nat, Request>, id: nat)
    requires TakenFrom(f, g, m, id) && AllAccounted(f)
    ensures AllAccounted(g) && Accounted(f.expressed, m[id], 1)
  {
    hide Accounted;
  }

  lemma FewerIds(f: Fetch, g: Fetch, id: nat)
    requires UniqueIds(f) && LiveIds(f) == LiveIds(g) + multiset{id} && g.expressed == f.expressed
        && g.counter == f.counter
    ensures UniqueIds(g) && id !in LiveIds(g) && 1 <= id <= f.counter
  {
    hide LiveIds;
    forall i ensures LiveIds(g)[i] <= 1 && (i in LiveIds(g) ==> i in LiveIds(f)) { assert LiveIds(f)[i] <= 1; }
    assert LiveIds(f)[id] <= 1 && id in LiveIds(f);
  }

  lemma MoreIds(f: Fetch, g: Fetch, id: nat)
    requires UniqueIds(f) && LiveIds(g) == LiveIds(f) + multiset{id} && g.expressed == f.expressed
        && g.counter == f.counter
    requires id !in LiveIds(f) && 1 <= id <= f.counter
    ensures UniqueIds(g)
  {
    hide LiveIds;
    forall i ensures LiveIds(g)[i] <= 1 { assert LiveIds(f)[i] <= 1; }
  }

  /** Taking a request out of one of the maps frees exactly its id. */
  lemma TakeOut(f: Fetch, g: Fetch, m: map<nat, Request>, id: nat)
    requires Loose(f) && TakenFrom(f, g, m, id)
    ensures InHand(g, m[id]) && Accounted(f.expressed, m[id], 1)
    ensures id !in LiveIds(g) && 1 <= id <= f.counter
  {
    hide Accounted, Everywhere, LiveIds, AllAccounted, UniqueIds;
    TakeOutOrigins(f, g, m, id);
    TakeOutIds(f, g, m, id);
    TakeOutAccounts(f, g, m, id);
    assert |g.pending| <= |f.pending| by { KeysRemove(m, id); }
    FewerIds(f, g, id);
  }

  lemma FinishAccounts(f: Fetch, r: Request, how: Ending)
    requires AllAccounted(f) && Accounted(f.expressed, r, 1)
    ensures AllAccounted(Finish(f, r, how))
  {
    assert Accounted(f.expressed, r.(ending := how), 1);
    hide Accounted;
  }

  lemma PutFinished(f: Fetch, r: Request, how: Ending)
    requires InHand(f, r) && Accounted(f.expressed, r, 1)
    ensures Loose(Finish(f, r, how))
  {
    FinishAccounts(f, r, how);
    hide Accounted, AllAccounted, OriginsOf, OriginsIn, IdsOf;
    var g := Finish(f, r, how);
    Snoc(f.finished, r.(ending := how));
    AnyPosition(OriginsOf(f.queue), OriginsIn(f.pending), OriginsIn(f.validating), OriginsIn(f.waiting),
        OriginsOf(f.finished), multiset{r.origin});
    assert LiveIds(g) == LiveIds(f);
  }

  lemma PutIn(f: Fetch, g: Fetch, m: map<nat, Request>, id: nat, r: Request)
    requires InHand(f, r) && Accounted(f.expressed, r, 1) && id !in LiveIds(f) && 1 <= id <= f.counter
    requires || (m == f.validating && g == f.(validating := m[id := r]))
             || (m == f.waiting && g == f.(waiting := m[id := r]) && r.nValidationRetries > 0)
    ensures Loose(g)
  {
    hide Accounted, Everywhere, LiveIds, AllAccounted, UniqueIds;
    PutInAccounts(f, g, m, id, r);
    PutInTaken(f, g, m, id, r);
    hide TakenFrom;
    TakeOutOrigins(g, f, m[id := r], id);
    TakeOutIds(g, f, m[id := r], id);
    MoreIds(f, g, id);
  }

  lemma PutInTaken(f: Fetch, g: Fetch, m: map<nat, Request>, id: nat, r: Request)
    requires id !in m
    requires (m == f.validating && g == f.(validating := m[id := r]))
        || (m == f.waiting && g == f.(waiting := m[id := r]))
    ensures TakenFrom(g, f, m[id := r], id)
  {
    assert m[id := r] - {id} == m;
  }

  lemma PutInAccounts(f: Fetch, g: Fetch, m: map<nat, Request>, id: nat, r: Request)
    requires AllAccounted(f) && Accounted(f.expressed, r, 1) && id !in LiveIds(f)
    requires || (m == f.validating && g == f.(validating := m[id := r]))
             || (m == f.waiting && g == f.(waiting := m[id := r]) && r.nValidationRetries > 0)
    ensures AllAccounted(g) && id !in m
  {
    hide Accounted, IdsOf;
  }

  lemma SentCommutes(f: Fetch, v: map<nat, Request>, d: seq<Request>)
    requires f.queue != []
    ensures Sent(f).(validating := v, finished := d) == Sent(f.(validating := v, finished := d))
    ensures |Sent(f).queue| < |f.queue|
  {
  }

  /** Sending queued requests does not look at the requests being validated or finished. */
  lemma {:induction false} ProcessQueueCommutes(f: Fetch, v: map<nat, Request>, d: seq<Request>)
    ensures ProcessQueue(f).(validating := v, finished := d) == ProcessQueue(f.(validating := v, finished := d))
    decreases |f.queue|
  {
    if f.queue != [] && |f.pending| < f.window {
      SentCommutes(f, v, d);
      hide Sent;
      ProcessQueueCommutes(Sent(f), v, d);
    }
  }

  lemma {:induction false} ProcessQueueFrame(f: Fetch)
    ensures var g := ProcessQueue(f); g.validating == f.validating && g.finished == f.finished
    decreases |f.queue|
  {
    if f.queue != [] && |f.pending| < f.window { ProcessQueueFrame(Sent(f)); }
  }

  // ---------- steps ----------

  lemma ExpressKeeps(f: Fetch, n: int, v: int)
    requires Invariant(f)
    ensures Invariant(DoExpress(f, n, v))
  {
    hide Everywhere, LiveIds, Enqueue, AllAccounted, DistinctIds, ExpressedBelow, Accounted;
    var id := f.counter + 1;
    var g := f.(expressed := f.expressed[id := (n, v)]);
    var r := Request(id, id, n, v, 0, Open);
    FreshId(f);
    ExpressedGrows(f, g, id);
    ExpressedReady(f, g, r, n, v);
    hide UniqueIds, Conserved;
    EnqueueKeeps(g, r);
  }

  lemma ExpressedGrows(f: Fetch, g: Fetch, id: nat)
    requires id !in f.expressed && g == f.(expressed := g.expressed) && AllAccounted(f)
    requires forall o :: o in f.expressed ==> o in g.expressed && g.expressed[o] == f.expressed[o]
    ensures AllAccounted(g) && Everywhere(g) == Everywhere(f) && LiveIds(g) == LiveIds(f)
  {
    hide OriginsOf, OriginsIn, IdsOf;
  }

  lemma FreshId(f: Fetch)
    requires ExpressedBelow(f, f.counter)
    ensures f.counter + 1 !in f.expressed
  {
  }

  lemma AddOne(s: set<nat>, id: nat)
    requires id !in s
    ensures multiset(s + {id}) == multiset(s) + multiset{id}
  {
  }

  lemma ExpressedReady(f: Fetch, g: Fetch, r: Request, n: int, v: int)
    requires Conserved(f) && DistinctIds(f) && ExpressedBelow(f, f.counter)
    requires g == f.(expressed := f.expressed[f.counter + 1 := (n, v)]) && Everywhere(g) == Everywhere(f)
        && LiveIds(g) == LiveIds(f)
    requires r == Request(f.counter + 1, f.counter + 1, n, v, 0, Open)
    ensures Everywhere(g) + multiset{r.origin} == multiset(g.expressed.Keys)
    ensures DistinctIds(g) && ExpressedBelow(g, g.counter + 1) && Accounted(g.expressed, r, 0)
  {
    hide Everywhere, LiveIds;
    FreshId(f);
    AddOne(f.expressed.Keys, r.origin);
    assert g.expressed.Keys == f.expressed.Keys + {r.origin};
  }

  lemma DataKeeps(f: Fetch, id: nat)
    requires Invariant(f) && id in f.pending
    ensures Invariant(DoData(f, id))
  {
    hide Everywhere, LiveIds, AllAccounted, UniqueIds, Conserved, Accounted, ProcessQueue;
    var r, h := f.pending[id], Release(f, id);
    TakeOut(f, h, f.pending, id);
    ProcessQueueFrame(h);
    if f.validator {
      var g := h.(validating := h.validating[id := r]);
        PutIn(h, g, h.validating, id, r);
      ProcessQueueCommutes(h, g.validating, g.finished);
      ProcessQueueKeeps(g);
    } else {
      var g := Finish(h, r, Satisfied);
      PutFinished(h, r, Satisfied);
      ProcessQueueCommutes(h, g.validating, g.finished);
      ProcessQueueKeeps(g);
    }
  }

  /** A pending request that ends, by a nack or by its last timeout. */
  lemma EndPendingKeeps(f: Fetch, id: nat, how: Ending)
    requires Invariant(f) && id in f.pending
    ensures Invariant(Finish(ProcessQueue(Release(f, id)), f.pending[id], how))
  {
    hide Everywhere, LiveIds, AllAccounted, UniqueIds, Conserved, Accounted, ProcessQueue;
    var r, h := f.pending[id], Release(f, id);
    TakeOut(f, h, f.pending, id);
    ProcessQueueFrame(h);
    var g := Finish(h, r, how);
    PutFinished(h, r, how);
    ProcessQueueCommutes(h, g.validating, g.finished);
    ProcessQueueKeeps(g);
  }

  lemma RequeueKeeps(f: Fetch, r: Request, s: Request)
    requires InHand(f, r) && s.origin == r.origin && Accounted(f.expressed, s, 0)
    ensures Invariant(Enqueue(f, s))
  {
    hide Everywhere, LiveIds, AllAccounted, Accounted, Enqueue;
    EnqueueKeeps(f, s);
  }

  lemma TimeoutKeeps(f: Fetch, id: nat)
    requires Invariant(f) && id in f.pending
    ensures Invariant(DoTimeout(f, id))
  {
    hide Everywhere, LiveIds, AllAccounted, UniqueIds, ProcessQueue;
    var r := f.pending[id];
    if r.nRetries == 0 {
      EndPendingKeeps(f, id, TimedOut);
    } else {
      TakeOut(f, Release(f, id), f.pending, id);
      RequeueKeeps(Release(f, id), r, r.(nRetries := r.nRetries - 1));
    }
  }

  lemma ValidatingKeeps(f: Fetch, id: nat)
    requires Invariant(f) && id in f.validating
    ensures Invariant(Finish(f.(validating := f.validating - {id}), f.validating[id], Satisfied))
    ensures Invariant(DoValidationFailed(f, id))
  {
    hide Everywhere, LiveIds, AllAccounted, UniqueIds, Conserved, Accounted;
    var r, h := f.validating[id], f.(validating := f.validating - {id});
    TakeOut(f, h, f.validating, id);
    PutFinished(h, r, Satisfied);
    PutFinished(h, r, Invalid);
    assert WindowKept(Finish(h, r, Satisfied)) && WindowKept(Finish(h, r, Invalid));
    if r.nValidationRetries > 0 {
        PutIn(h, h.(waiting := h.waiting[id := r]), h.waiting, id, r);
    }
  }

  lemma RetryKeeps(f: Fetch, id: nat)
    requires Invariant(f) && id in f.waiting
    ensures Invariant(DoRetry(f, id))
  {
    hide Everywhere, LiveIds, UniqueIds, ProcessQueue, Enqueue;
    var r, h := f.waiting[id], f.(waiting := f.waiting - {id});
    assert r.nValidationRetries > 0;
    TakeOut(f, h, f.waiting, id);
    RequeueKeeps(h, r, r.(nValidationRetries := r.nValidationRetries - 1));
  }

  lemma WindowFrame(f: Fetch, g: Fetch)
    requires g == f.(window := g.window, maxWindow := g.maxWindow) && AllAccounted(f)
    ensures Everywhere(g) == Everywhere(f) && LiveIds(g) == LiveIds(f) && AllAccounted(g)
  {
  }

  lemma SetWindowKeeps(f: Fetch, size: nat)
    requires Invariant(f)
    ensures Invariant(Step(f, SetWindow(size)))
  {
    hide Everywhere, LiveIds, AllAccounted, Accounted, ProcessQueue;
    var g := f.(window := Max(1, size), maxWindow := Max(f.maxWindow, Max(1, size)));
    assert Everywhere(g) == Everywhere(f) && LiveIds(g) == LiveIds(f) && AllAccounted(g) by { WindowFrame(f, g); }
    ProcessQueueKeeps(g);
  }

  lemma StepKeeps(f: Fetch, e: Event)
    requires Invariant(f)
    ensures Invariant(Step(f, e))
  {
    hide Invariant, DoExpress, DoData, DoTimeout, DoValidationFailed, DoRetry, Finish, ProcessQueue, Release;
    match e
    case Express(n, v) => ExpressKeeps(f, n, v);
    case Data(id) => if id in f.pending { DataKeeps(f, id); }
    case Nack(id) => if id in f.pending { EndPendingKeeps(f, id, Nacked); }
    case Timeout(id) => if id in f.pending { TimeoutKeeps(f, id); }
    case Validated(id) => if id in f.validating { ValidatingKeeps(f, id); }
    case ValidationFailed(id) => if id in f.validating { ValidatingKeeps(f, id); }
    case RetryTimer(id) => if id in f.waiting { RetryKeeps(f, id); }
    case SetWindow(size) => SetWindowKeeps(f, size);
  }

  // ---------- whole runs ----------

  ghost function Start(validator: bool): Fetch {
    Fetch([], map[], 0, 10, map[], map[], [], validator, map[], 10)
  }

  lemma ReachableKeeps(validator: bool, es: seq<Event>)
    ensures Invariant(Run(Step, Start(validator), es))
  {
    assert Invariant(Start(validator)) by {
      assert LiveIds(Start(validator)) == multiset{};
      assert Everywhere(Start(validator)) == multiset{};
    }
    AllAdmissible(Step, Start(validator), es);
    forall f, e | Invariant(f) ensures Invariant(Step(f, e)) { StepKeeps(f, e); }
    Invariance(Step, Always, Invariant, Start(validator), es);
  }

  /** At every moment each expressed request is in exactly one place, and no two requests on their way share an id. */
  lemma EachRequestInOnePlace(validator: bool, es: seq<Event>, origin: nat)
    ensures var f := Run(Step, Start(validator), es);
      && OriginsOf(f.queue)[origin] + OriginsIn(f.pending)[origin] + OriginsIn(f.validating)[origin]
         + OriginsIn(f.waiting)[origin] + OriginsOf(f.finished)[origin] == (if origin in f.expressed then 1 else 0)
      && LiveIds(f)[origin] <= 1
  {
    ReachableKeeps(validator, es);
    hide OriginsOf, OriginsIn, LiveIds;
    var f := Run(Step, Start(validator), es);
    assert Everywhere(f)[origin] == multiset(f.expressed.Keys)[origin];
  }

  /** No more Interests are pending than the widest window set so far, and none waits while the window has room. */
  lemma WindowIsKeptAndUsed(validator: bool, es: seq<Event>)
    ensures var f := Run(Step, Start(validator), es);
      |f.pending| <= f.maxWindow && (f.queue != [] ==> |f.pending| >= f.window)
  {
    ReachableKeeps(validator, es);
  }

  ghost function Tighten(f: Fetch): Fetch { f.(maxWindow := f.window) }

  lemma {:induction false} ProcessQueueTightens(f: Fetch)
    ensures ProcessQueue(Tighten(f)) == Tighten(ProcessQueue(f)) && ProcessQueue(f).window == f.window
    decreases |f.queue|
  {
    if f.queue != [] && |f.pending| < f.window {
      assert Tighten(Sent(f)) == Sent(Tighten(f));
      ProcessQueueTightens(Sent(f));
    }
  }

  lemma EnqueueTightens(f: Fetch, r: Request)
    ensures Enqueue(Tighten(f), r) == Tighten(Enqueue(f, r)) && Enqueue(f, r).window == f.window
  {
    hide ProcessQueue;
    var g := f.(counter := f.counter + 1, queue := f.queue + [r.(id := f.counter + 1)]);
    ProcessQueueTightens(g);
    assert Tighten(g) == Tighten(f).(counter := f.counter + 1, queue := f.queue + [r.(id := f.counter + 1)]);
  }

  lemma StepTightens(f: Fetch, e: Event)
    requires !e.SetWindow?
    ensures Step(Tighten(f), e) == Tighten(Step(f, e)) && Step(f, e).window == f.window
  {
    hide ProcessQueue, Enqueue;
    match e
    case Express(n, v) =>
      var id := f.counter + 1;
      EnqueueTightens(f.(expressed := f.expressed[id := (n, v)]), Request(id, id, n, v, 0, Open));
    case Data(id) => ProcessQueueTightens(Release(f, id));
    case Nack(id) => ProcessQueueTightens(Release(f, id));
    case Timeout(id) =>
      ProcessQueueTightens(Release(f, id));
      if id in f.pending { EnqueueTightens(Release(f, id), f.pending[id].(nRetries := f.pending[id].nRetries - 1)); }
    case Validated(id) =>
    case ValidationFailed(id) =>
    case RetryTimer(id) =>
      if id in f.waiting {
        var r := f.waiting[id];
        EnqueueTightens(f.(waiting := f.waiting - {id}), r.(nValidationRetries := r.nValidationRetries - 1));
      }
  }

  /**
   * Once the pending Interests fit the window, they fit it until it is changed, and requests queue only
   * while it is full.
   */
  lemma {:induction false} FixedWindowIsRespected(f: Fetch, es: seq<Event>)
    requires Invariant(f) && |f.pending| <= f.window && forall e :: e in es ==> !e.SetWindow?
    ensures var g := Run(Step, f, es);
      g.window == f.window && |g.pending| <= f.window && (g.queue != [] ==> |g.pending| == f.window)
    decreases |es|
  {
    if es != [] {
      assert Invariant(Tighten(f)) by { TightInvariant(f); }
      StepKeeps(f, es[0]);
      StepKeeps(Tighten(f), es[0]);
      StepTightens(f, es[0]);
      hide Step;
      FixedWindowIsRespected(Step(f, es[0]), es[1..]);
    }
  }

  lemma TightInvariant(f: Fetch)
    requires Invariant(f) && |f.pending| <= f.window
    ensures Invariant(Tighten(f))
  {
    hide Accounted, OriginsOf, OriginsIn, IdsOf;
    assert Everywhere(Tighten(f)) == Everywhere(f) && LiveIds(Tighten(f)) == LiveIds(f);
  }

  ghost predicate Holds(f: Fetch, r: Request) {
    || r in f.queue || r in f.finished || (exists id :: id in f.pending && f.pending[id] == r)
    || (exists id :: id in f.validating && f.validating[id] == r)
        || (exists id :: id in f.waiting && f.waiting[id] == r)
  }

  /** A request expressed with non-negative retries is sent at most once more than it has retries of both kinds. */
  lemma SendsAreBounded(validator: bool, es: seq<Event>, r: Request)
    requires Holds(Run(Step, Start(validator), es), r)
    ensures var f := Run(Step, Start(validator), es);
      && r.origin in f.expressed
      && (f.expressed[r.origin].0 >= 0 ==> r.sends <= 1 + f.expressed[r.origin].0 + Budget(f.expressed[r.origin].1))
  {
    ReachableKeeps(validator, es);
    assert AllAccounted(Run(Step, Start(validator), es));
  }

  // ---------- retries are used ----------

  function Timeouts(k: nat): seq<Event> { if k == 0 then [] else Timeouts(k - 1) + [Timeout(k)] }

  /** One request expressed with n retries, after k timeouts. */
  ghost function Retrying(validator: bool, n: int, v: int, k: nat): Fetch {
    Start(validator).(counter := k + 1, pending := map[k + 1 := Request(k + 1, 1, n - k, v, k + 1, Open)],
                      expressed := map[1 := (n, v)])
  }

  /** A request that comes to an idle fetcher is sent at once, under the next id. */
  lemma EnqueueAlone(g: Fetch, r: Request)
    requires g.queue == [] && g.pending == map[] && g.window > 0
    ensures var id := g.counter + 1;
      Enqueue(g, r) == g.(counter := id, pending := map[id := r.(id := id, sends := r.sends + 1)])
  {
    var s := r.(id := g.counter + 1);
    var h := g.(counter := g.counter + 1, queue := [] + [s]);
    assert Sent(h).queue == [];
    assert ProcessQueue(h) == Sent(h);
  }

  lemma TimeoutRetries(validator: bool, n: int, v: int, k: nat)
    requires n != k
    ensures Step(Retrying(validator, n, v, k), Timeout(k + 1)) == Retrying(validator, n, v, k + 1)
  {
    hide ProcessQueue, Enqueue;
    var f := Retrying(validator, n, v, k);
    assert Release(f, k + 1) == f.(pending := map[]);
    EnqueueAlone(f.(pending := map[]), Request(k + 1, 1, n - k - 1, v, k + 1, Open));
  }

  lemma ExpressOnce(validator: bool, n: int, v: int)
    ensures Step(Start(validator), Express(n, v)) == Retrying(validator, n, v, 0)
  {
    hide ProcessQueue, Enqueue;
    EnqueueAlone(Start(validator).(expressed := map[1 := (n, v)]), Request(1, 1, n, v, 0, Open));
  }

  lemma {:induction false} TimeoutsRetry(validator: bool, n: int, v: int, k: nat)
    requires n < 0 || k <= n
    ensures Run(Step, Start(validator), [Express(n, v)] + Timeouts(k)) == Retrying(validator, n, v, k)
  {
    hide Step, Retrying, Start;
    if k == 0 {
      assert [Express(n, v)] + Timeouts(0) == [Express(n, v)];
      One(Step, Start(validator), Express(n, v));
      ExpressOnce(validator, n, v);
    } else {
      TimeoutsRetry(validator, n, v, k - 1);
      var before := [Express(n, v)] + Timeouts(k - 1);
      assert [Express(n, v)] + Timeouts(k) == before + [Timeout(k)];
      Append(Step, Start(validator), before, [Timeout(k)]);
      One(Step, Retrying(validator, n, v, k - 1), Timeout(k));
      TimeoutRetries(validator, n, v, k - 1);
    }
  }

  /** With negative retries there is no bound: k timeouts in a row make k + 1 sends of the same request. */
  lemma NegativeRetriesAreUnbounded(validator: bool, n: int, v: int, k: nat)
    requires n < 0
    ensures var f := Run(Step, Start(validator), [Express(n, v)] + Timeouts(k));
      && f.expressed == map[1 := (n, v)] && f.pending.Keys == {k + 1}
      && f.pending[k + 1].origin == 1 && f.pending[k + 1].sends == k + 1
  {
    TimeoutsRetry(validator, n, v, k);
  }

  /** With n >= 0 retries all of them are used: the request is sent after each of n timeouts and ends at the next. */
  lemma TimeoutRetriesAreUsed(validator: bool, n: nat, v: int, k: nat)
    requires k <= n
    ensures var f := Run(Step, Start(validator), [Express(n, v)] + Timeouts(k));
      && f.pending == map[k + 1 := Request(k + 1, 1, n - k, v, k + 1, Open)] && f.queue == [] && f.finished == []
    ensures var g := Run(Step, Start(validator), [Express(n, v)] + Timeouts(n + 1));
      && g.finished == [Request(n + 1, 1, 0, v, n + 1, TimedOut)]
      && g.pending == map[] && g.queue == [] && g.validating == map[] && g.waiting == map[]
  {
    TimeoutsRetry(validator, n, v, k);
    TimeoutsRetry(validator, n, v, n);
    var before := [Express(n, v)] + Timeouts(n);
    assert [Express(n, v)] + Timeouts(n + 1) == before + [Timeout(n + 1)];
    Append(Step, Start(validator), before, [Timeout(n + 1)]);
    One(Step, Retrying(validator, n, v, n), Timeout(n + 1));
    assert Release(Retrying(validator, n, v, n), n + 1).pending == map[];
  }

  /** k times: data that fails its validation, then the retry timer. */
  function Refusals(k: nat): seq<Event> {
    if k == 0 then [] else Refusals(k - 1) + [Data(k), ValidationFailed(k), RetryTimer(k)]
  }

  /** One request after k such rounds. */
  ghost function Refetching(n: int, v: int, k: nat): Fetch {
    Start(true).(counter := k + 1, pending := map[k + 1 := Request(k + 1, 1, n, v - k, k + 1, Open)],
                 expressed := map[1 := (n, v)])
  }

  /** The data has failed its validation. */
  ghost function Refused(n: int, v: int, k: nat): Fetch {
    Step(Step(Refetching(n, v, k), Data(k + 1)), ValidationFailed(k + 1))
  }

  lemma RefusedIs(n: int, v: int, k: nat)
    ensures var f := Refetching(n, v, k).(pending := map[]);
      var r := Request(k + 1, 1, n, v - k, k + 1, Open);
      Refused(n, v, k) == if k < v then f.(waiting := map[k + 1 := r]) else f.(finished := [r.(ending := Invalid)])
  {
    var f := Refetching(n, v, k);
    assert Release(f, k + 1).pending == map[];
    var g := Step(f, Data(k + 1));
    assert g.validating - {k + 1} == map[];
  }

  lemma RefusalRetries(n: int, v: int, k: nat)
    requires k < v
    ensures Step(Refused(n, v, k), RetryTimer(k + 1)) == Refetching(n, v, k + 1)
  {
    RefusedIs(n, v, k);
    hide ProcessQueue, Enqueue, Refused;
    var f := Refused(n, v, k);
    assert f.(waiting := f.waiting - {k + 1}) == f.(waiting := map[]);
    EnqueueAlone(f.(waiting := map[]), Request(k + 1, 1, n, v - k - 1, k + 1, Open));
  }

  lemma {:induction false} RefusalsRetry(n: int, v: int, k: nat)
    requires k == 0 || k <= v
    ensures Run(Step, Start(true), [Express(n, v)] + Refusals(k)) == Refetching(n, v, k)
  {
    hide Step, Start;
    if k == 0 {
      assert [Express(n, v)] + Refusals(0) == [Express(n, v)];
      One(Step, Start(true), Express(n, v));
      ExpressOnce(true, n, v);
    } else {
      RefusalsRetry(n, v, k - 1);
      var before, round := [Express(n, v)] + Refusals(k - 1), [Data(k), ValidationFailed(k), RetryTimer(k)];
      assert [Express(n, v)] + Refusals(k) == before + round;
      Append(Step, Start(true), before, round);
      Three(Step, Refetching(n, v, k - 1), Data(k), ValidationFailed(k), RetryTimer(k));
      RefusalRetries(n, v, k - 1);
    }
  }

  /** The refusal after the last retry ends the request. */
  lemma LastRefusal(n: int, v: int, k: nat)
    requires k >= v
    ensures var g := Refused(n, v, k);
      && g.finished == [Request(k + 1, 1, n, v - k, k + 1, Invalid)]
      && g.pending == map[] && g.queue == [] && g.validating == map[] && g.waiting == map[]
  {
    RefusedIs(n, v, k);
    hide Refused;
  }

  /**
   * So are the retries after failed validations: each of v refusals is followed by another send, the next one
   * ends the request. Without such retries the first refusal ends it.
   */
  lemma ValidationRetriesAreUsed(n: int, v: int, k: nat)
    requires k <= Budget(v)
    ensures var f := Run(Step, Start(true), [Express(n, v)] + Refusals(k));
      f.pending == map[k + 1 := Request(k + 1, 1, n, v - k, k + 1, Open)] && f.queue == [] && f.finished == []
    ensures var w := Budget(v);
      var g := Run(Step, Start(true), [Express(n, v)] + Refusals(w) + [Data(w + 1), ValidationFailed(w + 1)]);
      && g.finished == [Request(w + 1, 1, n, v - w, w + 1, Invalid)]
      && g.pending == map[] && g.queue == [] && g.validating == map[] && g.waiting == map[]
  {
    hide Step;
    RefusalsRetry(n, v, k);
    var w := Budget(v);
    RefusalsRetry(n, v, w);
    var before, last := [Express(n, v)] + Refusals(w), [Data(w + 1), ValidationFailed(w + 1)];
    Append(Step, Start(true), before, last);
    Two(Step, Refetching(n, v, w), Data(w + 1), ValidationFailed(w + 1));
    LastRefusal(n, v, w);
  }

  // ---------- first in, first out ----------

  /** The queue ascends by id, and everything pending was expressed before anything queued. */
  ghost predicate InOrder(f: Fetch) {
    && (forall i, j :: 0 <= i < j < |f.queue| ==> f.queue[i].id < f.queue[j].id)
    && (forall i :: 0 <= i < |f.queue| ==> f.queue[i].id <= f.counter)
    && (forall id :: id in f.pending ==> id <= f.counter)
    && (forall id, i :: id in f.pending && 0 <= i < |f.queue| ==> id < f.queue[i].id)
  }

  ghost function Room(f: Fetch): (k: nat)
    ensures k <= |f.queue|
  {
    if |f.pending| >= f.window then 0
    else if f.window - |f.pending| < |f.queue| then f.window - |f.pending| else |f.queue|
  }

  /** g has put exactly the first k queued requests of f on the wire. */
  ghost predicate TakesFirst(f: Fetch, g: Fetch, k: nat)
    requires k <= |f.queue|
  {
    && g == f.(queue := f.queue[k..], pending := g.pending)
    && (forall id :: id in f.pending ==> id in g.pending && g.pending[id] == f.pending[id])
    && (forall i :: 0 <= i < k ==>
         f.queue[i].id in g.pending && g.pending[f.queue[i].id] == f.queue[i].(sends := f.queue[i].sends + 1))
    && (forall id :: id in g.pending ==> id in f.pending || exists i :: 0 <= i < k && f.queue[i].id == id)
  }

  lemma SentInOrder(f: Fetch)
    requires InOrder(f) && f.queue != []
    ensures InOrder(Sent(f)) && |Sent(f).pending| == |f.pending| + 1 && TakesFirst(f, Sent(f), 1)
  {
    SentFrame(f);
  }

  lemma TakesMore(f: Fetch, g: Fetch, h: Fetch, k: nat)
    requires InOrder(f) && 1 <= |f.queue| && TakesFirst(f, g, 1) && k <= |g.queue| && TakesFirst(g, h, k)
    ensures TakesFirst(f, h, k + 1)
  {
    assert forall i :: 0 <= i < |g.queue| ==> g.queue[i] == f.queue[i + 1];
    assert g.queue[k..] == f.queue[k + 1..];
    forall i | 0 <= i < k + 1
      ensures f.queue[i].id in h.pending && h.pending[f.queue[i].id] == f.queue[i].(sends := f.queue[i].sends + 1)
    {
      if i > 0 { assert g.queue[i - 1] == f.queue[i]; }
    }
    forall id | id in h.pending && id !in f.pending ensures exists i :: 0 <= i < k + 1 && f.queue[i].id == id {
      if id in g.pending {
        assert f.queue[0].id == id;
      } else {
        var i :| 0 <= i < k && g.queue[i].id == id;
        assert f.queue[i + 1].id == id;
      }
    }
  }

  /** Processing the queue sends, in order, as many requests as the window has room for, and no more. */
  lemma {:induction false} ProcessQueueTakes(f: Fetch)
    requires InOrder(f)
    ensures InOrder(ProcessQueue(f)) && TakesFirst(f, ProcessQueue(f), Room(f))
    decreases |f.queue|
  {
    hide InOrder, TakesFirst, Sent;
    if f.queue != [] && |f.pending| < f.window {
      var g := Sent(f);
      SentInOrder(f);
      assert g.queue == f.queue[1..] && g.window == f.window by { TakesFrame(f, g, 1); }
      ProcessQueueTakes(g);
      TakesMore(f, g, ProcessQueue(g), Room(g));
    } else {
      TakesNone(f);
    }
  }

  lemma TakesFrame(f: Fetch, g: Fetch, k: nat)
    requires k <= |f.queue| && TakesFirst(f, g, k)
    ensures g.queue == f.queue[k..] && g.window == f.window
  {
  }

  lemma TakesNone(f: Fetch)
    ensures TakesFirst(f, f, 0)
  {
  }

  /** The request is queued, or pending under its id with one more send. */
  ghost predicate OnItsWay(f: Fetch, r: Request) {
    r in f.queue || (r.id in f.pending && f.pending[r.id] == r.(sends := r.sends + 1))
  }

  /** All requests of f but the one named are where they were, or went from the queue onto the wire. */
  ghost predicate OthersGoOn(f: Fetch, g: Fetch, but: set<nat>) {
    && (forall r :: r in f.queue ==> OnItsWay(g, r))
    && (forall i :: i in f.pending && i !in but ==> i in g.pending && g.pending[i] == f.pending[i])
    && (forall i :: i in f.validating && i !in but ==> i in g.validating && g.validating[i] == f.validating[i])
    && (forall i :: i in f.waiting && i !in but ==> i in g.waiting && g.waiting[i] == f.waiting[i])
  }

  lemma ProcessedGoOn(f: Fetch)
    requires InOrder(f)
    ensures var g := ProcessQueue(f);
      && InOrder(g) && OthersGoOn(f, g, {}) && g == f.(queue := g.queue, pending := g.pending)
      && forall id :: id !in f.pending && (forall r :: r in f.queue ==> r.id != id) ==> id !in g.pending
  {
    hide InOrder, ProcessQueue;
    ProcessQueueTakes(f);
    var g, k := ProcessQueue(f), Room(f);
    forall r | r in f.queue ensures OnItsWay(g, r) {
      var i :| 0 <= i < |f.queue| && f.queue[i] == r;
      if i >= k { assert g.queue[i - k] == r; }
    }
  }

  lemma ReleasedInOrder(f: Fetch, id: nat)
    requires InOrder(f) && id in f.pending
    ensures InOrder(Release(f, id)) && forall r :: r in f.queue ==> r.id != id
  {
  }

  lemma EnqueuedInOrder(f: Fetch, r: Request)
    requires InOrder(f)
    ensures var id := f.counter + 1;
      InOrder(f.(counter := id, queue := f.queue + [r.(id := id)]))
  {
  }

  /** A requeued request comes in last, under the next id. */
  lemma EnqueueGoesOn(f: Fetch, r: Request)
    requires InOrder(f)
    ensures var g, s := Enqueue(f, r), r.(id := f.counter + 1);
      && InOrder(g) && OnItsWay(g, s) && OthersGoOn(f, g, {})
      && g == f.(queue := g.queue, pending := g.pending, counter := f.counter + 1)
      && forall id :: id <= f.counter && id !in f.pending && (forall q :: q in f.queue ==> q.id != id) ==>
           id !in g.pending
  {
    hide InOrder, ProcessQueue;
    var s := r.(id := f.counter + 1);
    var h := f.(counter := f.counter + 1, queue := f.queue + [s]);
    EnqueuedInOrder(f, r);
    ProcessedGoOn(h);
    assert s in h.queue;
    assert forall q :: q in f.queue ==> q in h.queue;
  }

  // ---------- what each event does to its request and to the others ----------

  lemma ExpressOutcome(f: Fetch, n: int, v: int)
    requires InOrder(f)
    ensures var g, id := Step(f, Express(n, v)), f.counter + 1;
      && InOrder(g) && OthersGoOn(f, g, {}) && g.finished == f.finished && g.counter == id
      && OnItsWay(g, Request(id, id, n, v, 0, Open)) && g.expressed == f.expressed[id := (n, v)]
  {
    hide InOrder, Enqueue;
    var h := f.(expressed := f.expressed[f.counter + 1 := (n, v)]);
    assert InOrder(h) by { SameOrder(f, h); }
    EnqueueGoesOn(h, Request(f.counter + 1, f.counter + 1, n, v, 0, Open));
  }

  lemma SameOrder(f: Fetch, g: Fetch)
    requires InOrder(f) && g.queue == f.queue && g.pending == f.pending && g.counter == f.counter
    ensures InOrder(g)
  {
  }

  /** Data ends its request, or hands it to the validator. */
  lemma DataOutcome(f: Fetch, id: nat)
    requires InOrder(f) && id in f.pending
    ensures var g, r := Step(f, Data(id)), f.pending[id];
      && InOrder(g) && OthersGoOn(f, g, {id}) && id !in g.pending && g.counter == f.counter
      && (f.validator ==> g.validating == f.validating[id := r] && g.finished == f.finished)
      && (!f.validator ==> g.validating == f.validating && g.finished == f.finished + [r.(ending := Satisfied)])
  {
    hide InOrder, ProcessQueue;
    ReleasedInOrder(f, id);
    var h := ProcessQueue(Release(f, id));
    ProcessedGoOn(Release(f, id));
    SameOrder(h, Step(f, Data(id)));
  }

  /** A nack ends its request, whatever retries it has left. */
  lemma NackOutcome(f: Fetch, id: nat)
    requires InOrder(f) && id in f.pending
    ensures var g, r := Step(f, Nack(id)), f.pending[id];
      && InOrder(g) && OthersGoOn(f, g, {id}) && id !in g.pending && g.counter == f.counter
      && g.finished == f.finished + [r.(ending := Nacked)]
  {
    hide InOrder, ProcessQueue;
    ReleasedInOrder(f, id);
    ProcessedGoOn(Release(f, id));
    SameOrder(ProcessQueue(Release(f, id)), Step(f, Nack(id)));
  }

  /** A timeout ends a request with no retries left. */
  lemma LastTimeoutOutcome(f: Fetch, id: nat)
    requires InOrder(f) && id in f.pending && f.pending[id].nRetries == 0
    ensures var g, r := Step(f, Timeout(id)), f.pending[id];
      && InOrder(g) && OthersGoOn(f, g, {id}) && id !in g.pending && g.counter == f.counter
      && g.finished == f.finished + [r.(ending := TimedOut)]
  {
    hide InOrder, ProcessQueue;
    ReleasedInOrder(f, id);
    ProcessedGoOn(Release(f, id));
    SameOrder(ProcessQueue(Release(f, id)), Step(f, Timeout(id)));
  }

  /** Any other goes to the end of the queue with one retry less. */
  lemma TimeoutOutcome(f: Fetch, id: nat)
    requires InOrder(f) && id in f.pending && f.pending[id].nRetries != 0
    ensures var g, r := Step(f, Timeout(id)), f.pending[id];
      && InOrder(g) && OthersGoOn(f, g, {id}) && id !in g.pending
      && g.counter == f.counter + 1 && g.finished == f.finished
      && OnItsWay(g, r.(id := f.counter + 1, nRetries := r.nRetries - 1))
  {
    PendingBelow(f, id);
    hide InOrder, Enqueue, OnItsWay, OthersGoOn;
    ReleasedInOrder(f, id);
    var r := f.pending[id].(nRetries := f.pending[id].nRetries - 1);
    EnqueueGoesOn(Release(f, id), r);
    OthersOfRelease(f, id, Enqueue(Release(f, id), r));
  }

  lemma OthersOfRelease(f: Fetch, id: nat, g: Fetch)
    requires OthersGoOn(Release(f, id), g, {})
    ensures OthersGoOn(f, g, {id})
  {
    hide OnItsWay;
  }

  lemma PendingBelow(f: Fetch, id: nat)
    requires InOrder(f) && id in f.pending
    ensures id <= f.counter
  {
  }

  /** Valid data ends its request. */
  lemma ValidatedOutcome(f: Fetch, id: nat)
    requires InOrder(f) && id in f.validating
    ensures var g, r := Step(f, Validated(id)), f.validating[id];
      && InOrder(g) && OthersGoOn(f, g, {id}) && id !in g.validating && g.queue == f.queue && g.pending == f.pending
      && g.finished == f.finished + [r.(ending := Satisfied)]
  {
    hide InOrder;
    SameOrder(f, Step(f, Validated(id)));
  }

  /** Refused data ends its request unless validation retries are left, for which it waits. */
  lemma RefusedOutcome(f: Fetch, id: nat)
    requires InOrder(f) && id in f.validating
    ensures var g, r := Step(f, ValidationFailed(id)), f.validating[id];
      && InOrder(g) && OthersGoOn(f, g, {id}) && id !in g.validating && g.queue == f.queue && g.pending == f.pending
      && (r.nValidationRetries > 0 ==> id in g.waiting && g.waiting[id] == r && g.finished == f.finished)
      && (r.nValidationRetries <= 0 ==> g.waiting == f.waiting && g.finished == f.finished + [r.(ending := Invalid)])
  {
    hide InOrder;
    SameOrder(f, Step(f, ValidationFailed(id)));
  }

  /** The retry timer sends a waiting request to the end of the queue with one validation retry less. */
  lemma RetryOutcome(f: Fetch, id: nat)
    requires InOrder(f) && id in f.waiting
    ensures var g, r := Step(f, RetryTimer(id)), f.waiting[id];
      && InOrder(g) && OthersGoOn(f, g, {id}) && id !in g.waiting
      && g.counter == f.counter + 1 && g.finished == f.finished
      && OnItsWay(g, r.(id := f.counter + 1, nValidationRetries := r.nValidationRetries - 1))
  {
    hide InOrder, Enqueue;
    var r, h := f.waiting[id], f.(waiting := f.waiting - {id});
    SameOrder(f, h);
    EnqueueGoesOn(h, r.(nValidationRetries := r.nValidationRetries - 1));
  }

  lemma WindowOutcome(f: Fetch, size: nat)
    requires InOrder(f)
    ensures var g := Step(f, SetWindow(size));
      && InOrder(g) && OthersGoOn(f, g, {}) && g.finished == f.finished && g.counter == f.counter
      && g.window == if size == 0 then 1 else size
  {
    hide InOrder, ProcessQueue;
    var h := f.(window := Max(1, size), maxWindow := Max(f.maxWindow, Max(1, size)));
    SameOrder(f, h);
    ProcessedGoOn(h);
  }

  /** The event is about a request in the place where such events find one. */
  ghost predicate Concerns(f: Fetch, e: Event) {
    match e
    case Express(_, _) => true
    case Data(id) => id in f.pending
    case Nack(id) => id in f.pending
    case Timeout(id) => id in f.pending
    case Validated(id) => id in f.validating
    case ValidationFailed(id) => id in f.validating
    case RetryTimer(id) => id in f.waiting
    case SetWindow(_) => true
  }

  lemma StepInOrder(f: Fetch, e: Event)
    requires InOrder(f)
    ensures InOrder(Step(f, e))
    ensures !Concerns(f, e) ==> Step(f, e) == f
  {
    hide InOrder, DoExpress, DoData, DoTimeout, DoValidationFailed, DoRetry, Finish, ProcessQueue, Release;
    match e
    case Express(n, v) => ExpressOutcome(f, n, v);
    case Data(id) => if id in f.pending { DataOutcome(f, id); }
    case Nack(id) => if id in f.pending { NackOutcome(f, id); }
    case Timeout(id) =>
      if id in f.pending {
        if f.pending[id].nRetries == 0 { LastTimeoutOutcome(f, id); } else { TimeoutOutcome(f, id); }
      }
    case Validated(id) => if id in f.validating { ValidatedOutcome(f, id); }
    case ValidationFailed(id) => if id in f.validating { RefusedOutcome(f, id); }
    case RetryTimer(id) => if id in f.waiting { RetryOutcome(f, id); }
    case SetWindow(size) => WindowOutcome(f, size);
  }

  /** In every reachable state Interests leave in the order in which their ids were given out. */
  lemma InterestsLeaveInOrder(validator: bool, es: seq<Event>)
    ensures InOrder(Run(Step, Start(validator), es))
  {
    AllAdmissible(Step, Start(validator), es);
    forall f, e | InOrder(f) ensures InOrder(Step(f, e)) { StepInOrder(f, e); }
    Invariance(Step, Always, InOrder, Start(validator), es);
  }

  ghost predicate EndsAreFinal(f: Fetch, g: Fetch) {
    f.finished <= g.finished && f.expressed.Keys <= g.expressed.Keys
  }

  lemma {:induction false} ProcessQueueEnds(f: Fetch)
    ensures var g := ProcessQueue(f); g.finished == f.finished && g.expressed == f.expressed
    decreases |f.queue|
  {
    if f.queue != [] && |f.pending| < f.window { ProcessQueueEnds(Sent(f)); }
  }

  lemma StepEnds(f: Fetch, e: Event)
    ensures EndsAreFinal(f, Step(f, e))
  {
    hide ProcessQueue;
    forall g: Fetch
      ensures ProcessQueue(g).finished == g.finished && ProcessQueue(g).expressed == g.expressed
    {
      ProcessQueueEnds(g);
    }
  }

  /** Requests that ended stay ended: later events only append to the list of outcomes, so with
      EachRequestInOnePlace each request ends at most once and is not sent again afterwards. */
  lemma EndingIsFinal(validator: bool, es: seq<Event>, fs: seq<Event>)
    ensures Run(Step, Start(validator), es).finished <= Run(Step, Start(validator), es + fs).finished
  {
    var f := Run(Step, Start(validator), es);
    Append(Step, Start(validator), es, fs);
    AllAdmissible(Step, f, fs);
    forall g, e ensures EndsAreFinal(g, Step(g, e)) { StepEnds(g, e); }
    Monotonicity(Step, Always, (g: Fetch) => true, EndsAreFinal, f, fs);
  }

  /** Why each ended request ended. */
  ghost predicate Reasoned(f: Fetch) {
    forall r :: r in f.finished ==>
      && r.ending != Open
      && (r.ending == TimedOut ==> r.nRetries == 0) && (r.ending == Invalid ==> r.nValidationRetries <= 0)
  }

  lemma StepReasoned(f: Fetch, e: Event)
    requires Reasoned(f)
    ensures Reasoned(Step(f, e))
  {
    hide ProcessQueue;
    forall g: Fetch ensures ProcessQueue(g).finished == g.finished { ProcessQueueFrame(g); }
  }

  /** In every run a request that ends by a timeout, or by refused data, has used up the retries of that kind. */
  lemma NoRetryIsLost(validator: bool, es: seq<Event>, r: Request)
    requires r in Run(Step, Start(validator), es).finished
    ensures var f := Run(Step, Start(validator), es);
      && r.origin in f.expressed
      && var (n, v) := f.expressed[r.origin];
         && (r.ending == TimedOut ==> n >= 0 && r.sends >= n + 1)
         && (r.ending == Invalid && n >= 0 ==> r.sends >= Budget(v) + 1)
  {
    ReachableKeeps(validator, es);
    AllAdmissible(Step, Start(validator), es);
    forall g, e | Reasoned(g) ensures Reasoned(Step(g, e)) { StepReasoned(g, e); }
    Invariance(Step, Always, Reasoned, Start(validator), es);
    assert AllAccounted(Run(Step, Start(validator), es));
  }

  // ---------- the fetcher ----------

  class InterestFetcher {
    var queue: seq<Request>
    var pending: map<nat, Request>
    var counter: nat
    var windowSize: nat
    var validating: map<nat, Request>
    var waiting: map<nat, Request>
    var finished: seq<Request>
    const validator: bool
    const nRetriesOnValidationFail: int
    ghost var expressed: map<nat, (int, int)>
    ghost var maxWindow: nat

    ghost function State(): Fetch
      reads this
    {
      Fetch(queue, pending, counter, windowSize, validating, waiting, finished, validator, expressed, maxWindow)
    }

    constructor (validator: bool, nRetriesOnValidationFail: int)
      ensures State() == Start(validator) && this.nRetriesOnValidationFail == nRetriesOnValidationFail
    {
      queue, pending, counter, windowSize := [], map[], 0, 10;
      validating, waiting, finished := map[], map[], [];
      this.validator, this.nRetriesOnValidationFail := validator, nRetriesOnValidationFail;
      expressed, maxWindow := map[], 10;
    }

    method ProcessInterestQueue()
      modifies this
      ensures State() == ProcessQueue(old(State()))
    {
      while queue != [] && |pending| < windowSize
        invariant ProcessQueue(State()) == ProcessQueue(old(State()))
        decreases |queue|
      {
        ghost var before := State();
        var r := queue[0];
        queue := queue[1..];
        pending := pending[r.id := r.(sends := r.sends + 1)];
        assert State() == Sent(before);
      }
    }

    method Requeue(r: Request)
      modifies this
      ensures State() == Enqueue(old(State()), r)
    {
      counter := counter + 1;
      queue := queue + [r.(id := counter)];
      ProcessInterestQueue();
    }

    method ExpressInterest(nRetries: int)
      modifies this
      ensures State() == Step(old(State()), Express(nRetries, nRetriesOnValidationFail))
    {
      counter := counter + 1;
      expressed := expressed[counter := (nRetries, nRetriesOnValidationFail)];
      queue := queue + [Request(counter, counter, nRetries, nRetriesOnValidationFail, 0, Open)];
      ProcessInterestQueue();
    }

    method OnData(id: nat)
      modifies this
      ensures State() == Step(old(State()), Data(id))
    {
      if id in pending {
        var r := pending[id];
        pending := pending - {id};
        ProcessInterestQueue();
        if validator {
          validating := validating[id := r];
        } else {
          finished := finished + [r.(ending := Satisfied)];
        }
      }
    }

    method OnNack(id: nat)
      modifies this
      ensures State() == Step(old(State()), Nack(id))
    {
      if id in pending {
        var r := pending[id];
        pending := pending - {id};
        ProcessInterestQueue();
        finished := finished + [r.(ending := Nacked)];
      }
    }

    method OnTimeout(id: nat)
      modifies this
      ensures State() == Step(old(State()), Timeout(id))
    {
      if id in pending {
        var r := pending[id];
        pending := pending - {id};
        if r.nRetries == 0 {
          ProcessInterestQueue();
          finished := finished + [r.(ending := TimedOut)];
        } else {
          Requeue(r.(nRetries := r.nRetries - 1));
        }
      }
    }

    method OnDataValidated(id: nat)
      modifies this
      ensures State() == Step(old(State()), Validated(id))
    {
      if id in validating {
        finished := finished + [validating[id].(ending := Satisfied)];
        validating := validating - {id};
      }
    }

    method OnValidationFailed(id: nat)
      modifies this
      ensures State() == Step(old(State()), ValidationFailed(id))
    {
      if id in validating {
        var r := validating[id];
        validating := validating - {id};
        if r.nValidationRetries > 0 {
          waiting := waiting[id := r];
        } else {
          finished := finished + [r.(ending := Invalid)];
        }
      }
    }

    method OnRetryTimer(id: nat)
      modifies this
      ensures State() == Step(old(State()), RetryTimer(id))
    {
      if id in waiting {
        var r := waiting[id];
        waiting := waiting - {id};
        Requeue(r.(nValidationRetries := r.nValidationRetries - 1));
      }
    }

    method SetWindowSize(size: nat)
      modifies this
      ensures State() == Step(old(State()), SetWindow(size))
    {
      windowSize := Max(1, size);
      maxWindow := Max(maxWindow, windowSize);
      ProcessInterestQueue();
    }
  }
}
