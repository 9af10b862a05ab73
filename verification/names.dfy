/** NDN names in canonical order, and the sorted key sequences a std::map is iterated in. */
module Names {

  type byte = b: int | 0 <= b < 0x100
  type uint64 = n: int | 0 <= n < 0x1_0000_0000_0000_0000
  type ComponentType = t: int | 1 <= t <= 0xFFFF witness 1

  function Max(a: nat, b: nat): nat { if a < b then b else a }

  datatype Option<+T> = None | Some(value: T)

  datatype Component = Component(typ: ComponentType, value: seq<byte>)
  type Name = seq<Component>

  predicate IsPrefixOf(p: Name, n: Name) {
    |p| <= |n| && n[..|p|] == p
  }

  // ---------- strict total orders ----------

  predicate LexLess(a: seq<int>, b: seq<int>) {
    b != [] && (a == [] || a[0] < b[0] || (a[0] == b[0] && LexLess(a[1..], b[1..])))
  }

  /** Components are compared by type, then length, then bytes. */
  function ComponentKey(c: Component): seq<int> {
    [c.typ, |c.value|] + c.value
  }

  predicate ComponentLess(a: Component, b: Component) {
    LexLess(ComponentKey(a), ComponentKey(b))
  }

  predicate NameLess(a: Name, b: Name) {
    b != [] && (a == [] || ComponentLess(a[0], b[0]) || (a[0] == b[0] && NameLess(a[1..], b[1..])))
  }

  predicate NatLess(a: uint64, b: uint64) { a < b }

  lemma {:induction false} LexTotal(a: seq<int>, b: seq<int>)
    ensures LexLess(a, b) || LexLess(b, a) || a == b
    ensures !(LexLess(a, b) && LexLess(b, a))
    ensures !LexLess(a, a)
  {
    if a != [] && b != [] {
      LexTotal(a[1..], b[1..]);
      LexTotal(a[1..], a[1..]);
      assert a == [a[0]] + a[1..] && b == [b[0]] + b[1..];
    } else if a != [] {
      LexTotal(a[1..], a[1..]);
    }
  }

  lemma {:induction false} LexTransitive(a: seq<int>, b: seq<int>, c: seq<int>)
    requires LexLess(a, b) && LexLess(b, c)
    ensures LexLess(a, c)
  {
    if a != [] && a[0] == b[0] == c[0] {
      LexTransitive(a[1..], b[1..], c[1..]);
    }
  }

  lemma ComponentKeyInjective(a: Component, b: Component)
    requires ComponentKey(a) == ComponentKey(b)
    ensures a == b
  {
    assert a.typ == ComponentKey(a)[0] && b.typ == ComponentKey(b)[0];
    assert a.value == ComponentKey(a)[2..] && b.value == ComponentKey(b)[2..];
  }

  lemma {:induction false} NameTotal(a: Name, b: Name)
    ensures NameLess(a, b) || NameLess(b, a) || a == b
    ensures !(NameLess(a, b) && NameLess(b, a))
    ensures !NameLess(a, a)
  {
    if a != [] {
      LexTotal(ComponentKey(a[0]), ComponentKey(a[0]));
      NameTotal(a[1..], a[1..]);
      if b != [] {
        LexTotal(ComponentKey(a[0]), ComponentKey(b[0]));
        if ComponentKey(a[0]) == ComponentKey(b[0]) { ComponentKeyInjective(a[0], b[0]); }
        NameTotal(a[1..], b[1..]);
        assert a == [a[0]] + a[1..] && b == [b[0]] + b[1..];
      }
    }
  }

  lemma {:induction false} NameTransitive(a: Name, b: Name, c: Name)
    requires NameLess(a, b) && NameLess(b, c)
    ensures NameLess(a, c)
  {
    if a != [] {
      if ComponentLess(a[0], b[0]) && ComponentLess(b[0], c[0]) {
        LexTransitive(ComponentKey(a[0]), ComponentKey(b[0]), ComponentKey(c[0]));
      } else if a[0] == b[0] == c[0] {
        if !ComponentLess(a[0], b[0]) && !ComponentLess(b[0], c[0]) {
          NameTransitive(a[1..], b[1..], c[1..]);
        } else {
          LexTotal(ComponentKey(a[0]), ComponentKey(b[0]));
        }
      }
    }
  }

  // ---------- sorted listing of a key set ----------

  ghost predicate StrictTotal<T(!new)>(less: (T, T) -> bool) {
    && (forall a, b :: less(a, b) || less(b, a) || a == b)
    && (forall a, b :: !(less(a, b) && less(b, a)))
    && (forall a, b, c :: less(a, b) && less(b, c) ==> less(a, c))
  }

  lemma NameOrder()
    ensures StrictTotal(NameLess)
  {
    forall a, b ensures (NameLess(a, b) || NameLess(b, a) || a == b) && !(NameLess(a, b) && NameLess(b, a)) {
      NameTotal(a, b);
    }
    forall a, b, c | NameLess(a, b) && NameLess(b, c) ensures NameLess(a, c) { NameTransitive(a, b, c); }
  }

  lemma NatOrder()
    ensures StrictTotal(NatLess)
  {
  }

  predicate IsLeast<T(!new)>(less: (T, T) -> bool, m: T, s: set<T>) {
    m in s && forall x :: x in s ==> x == m || less(m, x)
  }

  lemma LeastExists<T(!new)>(less: (T, T) -> bool, s: set<T>)
    requires StrictTotal(less) && s != {}
    ensures exists m :: IsLeast(less, m, s)
  {
    var x :| x in s;
    var rest := s - {x};
    assert forall y :: y in s ==> y == x || y in rest;
    if rest == {} {
      assert IsLeast(less, x, s);
    } else {
      LeastExists(less, rest);
      var m :| IsLeast(less, m, rest);
      assert IsLeast(less, if less(m, x) then m else x, s);
    }
  }

  function Least<T(!new)>(less: (T, T) -> bool, s: set<T>): (m: T)
    requires StrictTotal(less) && s != {}
    ensures IsLeast(less, m, s)
  {
    LeastExists(less, s);
    var m :| IsLeast(less, m, s);
    m
  }

  ghost predicate Ascending<T(!new)>(less: (T, T) -> bool, l: seq<T>) {
    forall i, j :: 0 <= i < j < |l| ==> less(l[i], l[j])
  }

  function Sorted<T(!new)>(less: (T, T) -> bool, s: set<T>): (l: seq<T>)
    requires StrictTotal(less)
    ensures forall x :: x in l <==> x in s
  {
    if s == {} then [] else
      var m := Least(less, s);
      [m] + Sorted(less, s - {m})
  }

  lemma {:induction false} SortedAscending<T(!new)>(less: (T, T) -> bool, s: set<T>)
    requires StrictTotal(less)
    ensures Ascending(less, Sorted(less, s))
    ensures forall i, j :: 0 <= i < j < |Sorted(less, s)| ==> Sorted(less, s)[i] != Sorted(less, s)[j]
    ensures |Sorted(less, s)| == |s|
  {
    if s != {} {
      var m := Least(less, s);
      SortedAscending(less, s - {m});
      var l, rest := Sorted(less, s), Sorted(less, s - {m});
      forall i, j | 0 <= i < j < |l| ensures less(l[i], l[j]) && l[i] != l[j] {
        assert l[j] == rest[j - 1] && rest[j - 1] in s - {m};
        if i > 0 { assert l[i] == rest[i - 1]; }
      }
    }
  }

  /** Iteration order of a std::map keyed by Name. */
  function SortedNames(s: set<Name>): (l: seq<Name>)
    ensures forall x :: x in l <==> x in s
  {
    NameOrder();
    Sorted(NameLess, s)
  }

  /** Iteration order of a std::map keyed by an unsigned integer. */
  function SortedNumbers(s: set<uint64>): (l: seq<uint64>)
    ensures forall x :: x in l <==> x in s
  {
    NatOrder();
    Sorted(NatLess, s)
  }

  lemma SortedNumbersAscend(s: set<uint64>)
    ensures forall i, j :: 0 <= i < j < |SortedNumbers(s)| ==> SortedNumbers(s)[i] < SortedNumbers(s)[j]
  {
    NatOrder();
    SortedAscending(NatLess, s);
  }

  lemma SortedSingletons(n: Name, b: uint64)
    ensures SortedNames({n}) == [n] && SortedNumbers({b}) == [b]
  {
    NameOrder();
    SortedAscending(NameLess, {n});
    NatOrder();
    SortedAscending<uint64>(NatLess, {b});
    assert n in SortedNames({n}) && b in SortedNumbers({b});
  }

  // ---------- prefixes are contiguous in canonical order ----------

  lemma PrefixTail(p: Name, n: Name)
    requires p != []
    ensures IsPrefixOf(p, n) <==> n != [] && n[0] == p[0] && IsPrefixOf(p[1..], n[1..])
  {
    if n != [] && |p| <= |n| {
      assert n[..|p|] == [n[0]] + n[1..][..|p| - 1];
      assert p == [p[0]] + p[1..];
    }
  }

  /** Every name that extends p comes at or after p ... */
  lemma {:induction false} ExtensionNotLess(p: Name, n: Name)
    requires IsPrefixOf(p, n)
    ensures !NameLess(n, p)
  {
    if p != [] {
      PrefixTail(p, n);
      ExtensionNotLess(p[1..], n[1..]);
      LexTotal(ComponentKey(n[0]), ComponentKey(p[0]));
    }
  }

  /** ... and anything between p and an extension of p extends p as well. */
  lemma {:induction false} PrefixInterval(p: Name, m: Name, n: Name)
    requires IsPrefixOf(p, n)
    requires !NameLess(m, p)
    requires m == n || NameLess(m, n)
    ensures IsPrefixOf(p, m)
  {
    if p != [] && m != n {
      PrefixTail(p, n);
      LexTotal(ComponentKey(m[0]), ComponentKey(p[0]));
      assert m[0] == p[0];
      PrefixInterval(p[1..], m[1..], n[1..]);
      PrefixTail(p, m);
    }
  }
}
