/**
 * The bounded memories of the receiving side (svspubsub.cpp): the cache of piggybacked packets, probed
 * by the name of a publication, and the list of publications already delivered from it.
 */
module PiggyCache {
  import opened Names
  import opened Runs

  // ---------- first in, first out ----------

  /** A map together with the order in which its keys came. */
  datatype Fifo<K(==), V> = Fifo(order: seq<K>, items: map<K, V>)

  /** A known key keeps its place; only its value is replaced. */
  function Put<K(==), V>(f: Fifo<K, V>, key: K, value: V): Fifo<K, V> {
    Fifo(if key in f.items then f.order else f.order + [key], f.items[key := value])
  }

  function Trim<K(==), V>(f: Fifo<K, V>, limit: nat): Fifo<K, V>
    decreases |f.order|
  {
    if |f.items| > limit && f.order != [] then Trim(Fifo(f.order[1..], f.items - {f.order[0]}), limit) else f
  }

  ghost predicate Distinct<K(!new)>(s: seq<K>) { forall i, j :: 0 <= i < j < |s| ==> s[i] != s[j] }

  /** The order lists every key exactly once. */
  ghost predicate Agrees<K(!new), V>(f: Fifo<K, V>) {
    Distinct(f.order) && forall key :: key in f.order <==> key in f.items
  }

  lemma {:induction false} SizesAgree<K(!new)>(order: seq<K>, keys: set<K>)
    requires Distinct(order) && forall key :: key in order <==> key in keys
    ensures |order| == |keys|
  {
    if order == [] {
      assert keys == {};
    } else {
      var rest, last := order[..|order| - 1], order[|order| - 1];
      forall key ensures key in rest <==> key in keys - {last} {
        if key in rest {
          var i :| 0 <= i < |rest| && rest[i] == key;
          assert order[i] == key && order[i] != last;
        }
        if key in keys && key != last {
          var i :| 0 <= i < |order| && order[i] == key;
          assert rest[i] == key;
        }
      }
      SizesAgree(rest, keys - {last});
    }
  }

  lemma PutAgrees<K(!new), V>(f: Fifo<K, V>, key: K, value: V)
    requires Agrees(f)
    ensures Agrees(Put(f, key, value))
  {
  }

  function Excess(size: nat, limit: nat): nat { if size > limit then size - limit else 0 }

  lemma DropOldest<K(!new), V>(f: Fifo<K, V>)
    requires Agrees(f) && f.order != []
    ensures Agrees(Fifo(f.order[1..], f.items - {f.order[0]})) && |f.items - {f.order[0]}| == |f.items| - 1
        && |f.order| == |f.items|
  {
    var g := Fifo(f.order[1..], f.items - {f.order[0]});
    forall key ensures key in g.order <==> key in g.items {
      if key in g.items {
        assert key in f.order;
        var i :| 0 <= i < |f.order| && f.order[i] == key;
        assert g.order[i - 1] == key;
      }
    }
    SizesAgree(f.order, f.items.Keys);
    SizesAgree(g.order, g.items.Keys);
  }

  /** Trimming removes exactly the oldest keys beyond the limit. */
  lemma {:induction false} TrimDropsOldest<K(!new), V>(f: Fifo<K, V>, limit: nat)
    requires Agrees(f)
    ensures var g, k := Trim(f, limit), Excess(|f.order|, limit);
      && Agrees(g) && |g.items| == |g.order| <= limit
      && g.order == f.order[k..] && (forall key :: key in g.items ==> key in f.items && g.items[key] == f.items[key])
    decreases |f.order|
  {
    hide Agrees, Distinct;
    Sizes(f);
    if |f.items| > limit {
      DropOldest(f);
      var rest := Fifo(f.order[1..], f.items - {f.order[0]});
      TrimDropsOldest(rest, limit);
      assert Trim(f, limit) == Trim(rest, limit);
      assert f.order[1..][Excess(|f.order|, limit) - 1..] == f.order[Excess(|f.order|, limit)..];
      hide Trim;
    }
  }

  lemma Sizes<K(!new), V>(f: Fifo<K, V>)
    requires Agrees(f)
    ensures |f.items| == |f.order|
  {
    SizesAgree(f.order, f.items.Keys);
    assert |f.items| == |f.items.Keys|;
  }

  // ---------- publications already delivered ----------

  ghost function RememberStep<K(!new)>(limit: nat): (Fifo<K, bool>, K) -> Fifo<K, bool> {
    (f: Fifo<K, bool>, key: K) => Trim(Put(f, key, true), limit)
  }

  /** The key is present with at most `after` keys behind it. */
  ghost predicate Recent<K(!new), V>(f: Fifo<K, V>, key: K, after: int) {
    Agrees(f) && exists i :: 0 <= i < |f.order| && f.order[i] == key && |f.order| - 1 - i <= after
  }

  lemma PutKeepsRecent<K(!new), V>(f: Fifo<K, V>, key: K, after: int, k: K, v: V)
    requires Recent(f, key, after)
    ensures Recent(Put(f, k, v), key, after + 1)
  {
    PutAgrees(f, k, v);
    var i :| 0 <= i < |f.order| && f.order[i] == key && |f.order| - 1 - i <= after;
    assert Put(f, k, v).order[i] == key;
  }

  lemma TrimKeepsRecent<K(!new), V>(f: Fifo<K, V>, limit: nat, key: K, after: int)
    requires Recent(f, key, after) && after < limit
    ensures Recent(Trim(f, limit), key, after)
  {
    hide Trim;
    TrimDropsOldest(f, limit);
    var i :| 0 <= i < |f.order| && f.order[i] == key && |f.order| - 1 - i <= after;
    assert Trim(f, limit).order[i - Excess(|f.order|, limit)] == key;
  }

  lemma {:induction false} RecentIsRemembered<K(!new)>(limit: nat, f: Fifo<K, bool>, key: K, after: nat, es: seq<K>)
    requires Recent(f, key, after) && after + |es| < limit
    ensures key in Run(RememberStep(limit), f, es).items && Agrees(Run(RememberStep(limit), f, es))
    decreases |es|
  {
    if es == [] {
      var i :| 0 <= i < |f.order| && f.order[i] == key;
    } else {
      PutKeepsRecent(f, key, after, es[0], true);
      TrimKeepsRecent(Put(f, es[0], true), limit, key, after + 1);
      RecentIsRemembered(limit, RememberStep(limit)(f, es[0]), key, after + 1, es[1..]);
    }
  }

  lemma JustDelivered<K(!new)>(limit: nat, f: Fifo<K, bool>, key: K)
    requires Agrees(f) && key !in f.items && limit > 0
    ensures Recent(RememberStep(limit)(f, key), key, 0)
  {
    PutAgrees(f, key, true);
    assert Put(f, key, true).order[|f.order|] == key;
    TrimKeepsRecent(Put(f, key, true), limit, key, 0);
  }

  /** A newly delivered publication is remembered while fewer than `limit` further ones are delivered. */
  lemma DeliveredIsRemembered<K(!new)>(limit: nat, f: Fifo<K, bool>, key: K, es: seq<K>)
    requires Agrees(f) && key !in f.items && |es| < limit
    ensures key in Run(RememberStep(limit), f, [key] + es).items
  {
    JustDelivered(limit, f, key);
    RecentIsRemembered(limit, RememberStep(limit)(f, key), key, 0, es);
    assert ([key] + es)[1..] == es;
  }

  // ---------- the packet cache ----------

  /** A Data packet; its full name is its name and one more component, the implicit digest. */
  datatype Packet = Packet(name: Name, digest: Component, content: seq<byte>)

  function FullName(p: Packet): Name { p.name + [p.digest] }

  type Cache = Fifo<Name, Packet>

  /** A received packet is filed under its name and its full name. */
  function Insert(c: Cache, p: Packet, limit: nat): Cache {
    Trim(Put(Put(c, p.name, p), FullName(p), p), limit)
  }

  ghost function InsertStep(limit: nat): (Cache, Packet) -> Cache { (c: Cache, p: Packet) => Insert(c, p, limit) }

  function KeysFrom(c: Cache, m: Name): set<Name> { set k | k in c.items && !NameLess(k, m) }

  /** The exact entry if there is one, else what lower_bound points at if it extends the name. */
  function Probe(c: Cache, m: Name): Option<Packet> {
    if m in c.items then Some(c.items[m])
    else if KeysFrom(c, m) == {} then None
    else
      NameOrder();
      var k := Least(NameLess, KeysFrom(c, m));
      if IsPrefixOf(m, k) then Some(c.items[k]) else None
  }

  ghost predicate FirstExtension(c: Cache, m: Name, k: Name) {
    IsPrefixOf(m, k) && forall k' :: k' in c.items && IsPrefixOf(m, k') ==> k' == k || NameLess(k, k')
  }

  /** The probe finds a packet exactly when some cached name extends the mapping name: the first such name. */
  lemma ProbeFindsExtensions(c: Cache, m: Name)
    ensures Probe(c, m).Some? <==> exists k :: k in c.items && IsPrefixOf(m, k)
    ensures Probe(c, m).Some? ==> exists k :: k in c.items && FirstExtension(c, m, k) && Probe(c, m) == Some(c.items[k])
  {
    NameOrder();
    if m in c.items {
      assert m[..|m|] == m && IsPrefixOf(m, m);
      forall k | k in c.items && IsPrefixOf(m, k) ensures k == m || NameLess(m, k) { ExtensionNotLess(m, k); }
    } else {
      forall k | k in c.items && IsPrefixOf(m, k) ensures k in KeysFrom(c, m) { ExtensionNotLess(m, k); }
      if KeysFrom(c, m) != {} {
        var l := Least(NameLess, KeysFrom(c, m));
        forall k | k in c.items && IsPrefixOf(m, k) ensures IsPrefixOf(m, l) && (k == l || NameLess(l, k)) {
          PrefixInterval(m, l, k);
        }
      }
    }
  }

  const NONE: Cache := Fifo([], map[])

  /** Where the packets came from: every entry holds the latest packet received under its key. */
  function Latest(ps: seq<Packet>, key: Name): Option<Packet> {
    if ps == [] then None
    else
      var p := ps[|ps| - 1];
      if key == p.name || key == FullName(p) then Some(p) else Latest(ps[..|ps| - 1], key)
  }

  ghost predicate CacheSound(c: Cache, limit: nat, ps: seq<Packet>) {
    && Agrees(c) && |c.items| == |c.order| <= limit
    && forall key :: key in c.items ==> Latest(ps, key) == Some(c.items[key])
  }

  /** Filing a packet under both its keys, before anything is evicted. */
  lemma FiledTwice(c: Cache, p: Packet)
    requires Agrees(c)
    ensures var b := Put(Put(c, p.name, p), FullName(p), p);
      && Agrees(b)
      && forall key :: key in b.items ==>
           if key == p.name || key == FullName(p) then b.items[key] == p
           else key in c.items && b.items[key] == c.items[key]
  {
    PutAgrees(c, p.name, p);
    PutAgrees(Put(c, p.name, p), FullName(p), p);
    hide Agrees;
  }

  lemma InsertKeeps(c: Cache, limit: nat, ps: seq<Packet>, p: Packet)
    requires CacheSound(c, limit, ps)
    ensures CacheSound(Insert(c, p, limit), limit, ps + [p])
  {
    hide Trim, Agrees, Put, Latest, FullName;
    FiledTwice(c, p);
    TrimDropsOldest(Put(Put(c, p.name, p), FullName(p), p), limit);
    var d := Insert(c, p, limit);
    forall key | key in d.items ensures Latest(ps + [p], key) == Some(d.items[key]) {
      LatestSnoc(ps, p, key);
    }
  }

  lemma LatestSnoc(ps: seq<Packet>, p: Packet, key: Name)
    ensures Latest(ps + [p], key) == if key == p.name || key == FullName(p) then Some(p) else Latest(ps, key)
  {
    assert (ps + [p])[..|ps|] == ps;
  }

  /** The cache after receiving these packets. */
  ghost function After(limit: nat, ps: seq<Packet>): Cache { Run(InsertStep(limit), NONE, ps) }

  lemma AfterOneMore(limit: nat, ps: seq<Packet>)
    requires ps != []
    ensures After(limit, ps) == Insert(After(limit, ps[..|ps| - 1]), ps[|ps| - 1], limit)
  {
    hide Insert;
    Last(InsertStep(limit), NONE, ps);
  }

  lemma AfterNone(limit: nat)
    ensures CacheSound(After(limit, []), limit, [])
  {
  }

  /**
   * After any packets received: the order queue lists exactly the cached names, once each and oldest
   * first, there are at most `limit` of them, and each holds the latest packet received under it.
   */
  lemma {:induction false} CacheAgreesWithHistory(limit: nat, ps: seq<Packet>)
    ensures CacheSound(After(limit, ps), limit, ps)
    decreases |ps|
  {
    hide Insert, CacheSound, After;
    if ps == [] {
      AfterNone(limit);
    } else {
      var front, last := ps[..|ps| - 1], ps[|ps| - 1];
      CacheAgreesWithHistory(limit, front);
      AfterOneMore(limit, ps);
      InsertKeeps(After(limit, front), limit, front, last);
      assert front + [last] == ps;
    }
  }

  lemma InsertKeepsRecent(c: Cache, limit: nat, key: Name, after: int, p: Packet)
    requires Recent(c, key, after) && after + 2 < limit
    ensures Recent(Insert(c, p, limit), key, after + 2)
  {
    var a := Put(c, p.name, p);
    var b := Put(a, FullName(p), p);
    PutKeepsRecent(c, key, after, p.name, p);
    PutKeepsRecent(a, key, after + 1, FullName(p), p);
    TrimKeepsRecent(b, limit, key, after + 2);
  }

  /** Each packet takes at most two places, so a key stays while 2 per later packet are below the limit. */
  lemma {:induction false} KeyStays(limit: nat, c: Cache, key: Name, after: nat, ps: seq<Packet>)
    requires Recent(c, key, after) && after + 2 * |ps| < limit
    ensures key in Run(InsertStep(limit), c, ps).items
    decreases |ps|
  {
    if ps == [] {
      var i :| 0 <= i < |c.order| && c.order[i] == key;
    } else {
      InsertKeepsRecent(c, limit, key, after, ps[0]);
      KeyStays(limit, Insert(c, ps[0], limit), key, after + 2, ps[1..]);
    }
  }

  /** A new packet is found under every prefix of its name while few enough packets follow it. */
  lemma ReceivedIsFound(limit: nat, c: Cache, p: Packet, later: seq<Packet>, m: Name)
    requires Agrees(c) && FullName(p) !in c.items && 2 * |later| < limit && IsPrefixOf(m, p.name)
    ensures Probe(Run(InsertStep(limit), Insert(c, p, limit), later), m).Some?
  {
    var a := Put(c, p.name, p);
    var b := Put(a, FullName(p), p);
    PutAgrees(c, p.name, p);
    PutAgrees(a, FullName(p), p);
    assert FullName(p) != p.name by { assert |FullName(p)| == |p.name| + 1; }
    assert b.order[|a.order|] == FullName(p);
    TrimKeepsRecent(b, limit, FullName(p), 0);
    KeyStays(limit, Insert(c, p, limit), FullName(p), 0, later);
    assert FullName(p)[..|m|] == p.name[..|m|];
    var d := Run(InsertStep(limit), Insert(c, p, limit), later);
    hide Probe, Insert, Trim;
    ProbeFindsExtensions(d, m);
    assert FullName(p) in d.items && IsPrefixOf(m, FullName(p));
  }

  /** The names of the packet under which nothing is filed yet. */
  function Unfiled(c: Cache, p: Packet): seq<Name> {
    (if p.name in c.items then [] else [p.name]) + (if FullName(p) in c.items then [] else [FullName(p)])
  }

  lemma FiledOrder(c: Cache, p: Packet)
    ensures Put(Put(c, p.name, p), FullName(p), p).order == c.order + Unfiled(c, p)
  {
    assert FullName(p) != p.name by { assert |FullName(p)| == |p.name| + 1; }
  }

  ghost predicate Files(c: Cache, p: Packet, d: Cache) {
    && (forall key :: key in d.items <==> key in d.order)
    && (forall key :: key in d.items ==>
         if key == p.name || key == FullName(p) then d.items[key] == p
         else key in c.items && d.items[key] == c.items[key])
  }

  /**
   * A received packet replaces what was filed under its two names, which keep their places if they had one and
   * otherwise come last, the full name after the name; then the oldest names beyond the limit go.
   */
  lemma ReceivedComeLast(c: Cache, p: Packet, limit: nat)
    requires Agrees(c)
    ensures var d, all := Insert(c, p, limit), c.order + Unfiled(c, p);
      d.order == all[Excess(|all|, limit)..] && Files(c, p, d)
  {
    hide Trim, Put, FullName, Unfiled, Agrees;
    FiledTwice(c, p);
    FiledOrder(c, p);
    var b := Put(Put(c, p.name, p), FullName(p), p);
    TrimDropsOldest(b, limit);
    OrderListsAll(Insert(c, p, limit));
  }

  lemma OrderListsAll(c: Cache)
    requires Agrees(c)
    ensures forall key :: key in c.items <==> key in c.order
  {
    hide Distinct;
  }

  /** A delivered publication keeps its place or comes last; then the oldest beyond the limit are forgotten. */
  lemma DeliveredComesLast<K(!new)>(f: Fifo<K, bool>, key: K, limit: nat)
    requires Agrees(f)
    ensures var g := RememberStep(limit)(f, key);
      var all := if key in f.items then f.order else f.order + [key];
      && g.order == all[Excess(|all|, limit)..] && forall k :: k in g.items <==> k in g.order
  {
    PutAgrees(f, key, true);
    TrimDropsOldest(Put(f, key, true), limit);
    hide Trim;
  }

  // ---------- the memories ----------

  class PiggyDataCache {
    const limit: nat
    var cache: map<Name, Packet>
    var order: seq<Name>

    ghost function State(): Cache
      reads this
    {
      Fifo(order, cache)
    }

    constructor (limit: nat)
      ensures State() == NONE && this.limit == limit
    {
      this.limit := limit;
      cache, order := map[], [];
    }

    method Receive(p: Packet)
      modifies this
      ensures State() == Insert(old(State()), p, limit)
    {
      if p.name !in cache { order := order + [p.name]; }
      cache := cache[p.name := p];
      var fullName := FullName(p);
      if fullName !in cache { order := order + [fullName]; }
      cache := cache[fullName := p];
      while |cache| > limit && order != []
        invariant Trim(State(), limit) == Insert(old(State()), p, limit)
        decreases |order|
      {
        cache := cache - {order[0]};
        order := order[1..];
      }
    }
  }

  class DeliveredPublications<K(==, !new)> {
    const limit: nat
    var delivered: map<K, bool>
    var order: seq<K>

    ghost function State(): Fifo<K, bool>
      reads this
    {
      Fifo(order, delivered)
    }

    constructor (limit: nat)
      ensures State() == Fifo([], map[]) && this.limit == limit
    {
      this.limit := limit;
      delivered, order := map[], [];
    }

    method Remember(key: K)
      modifies this
      ensures State() == RememberStep(limit)(old(State()), key)
    {
      if key !in delivered { order := order + [key]; }
      delivered := delivered[key := true];
      while |delivered| > limit && order != []
        invariant Trim(State(), limit) == RememberStep(limit)(old(State()), key)
        decreases |order|
      {
        delivered := delivered - {order[0]};
        order := order[1..];
      }
    }
  }
}
