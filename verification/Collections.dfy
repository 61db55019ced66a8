/** Options, byte-wise string order, totals of maps, and the one fact about library sorts the other modules rely on:
    a sorted permutation of a multiset under a strict total order is unique, so it does not
    depend on the order in which a map was iterated. */
module Collections {

  datatype Option<+T> = None | Some(value: T)

  /** A map lookup. */
  function Find<K, V>(m: map<K, V>, k: K): Option<V> {
    if k in m then Some(m[k]) else None
  }

  /** SQL's COALESCE. */
  function Coalesce<T>(a: Option<T>, b: Option<T>): Option<T> {
    if a.Some? then a else b
  }

  /** Go's `<` on strings. */
  predicate Less(a: string, b: string) {
    b != [] && (a == [] || a[0] < b[0] || (a[0] == b[0] && Less(a[1..], b[1..])))
  }

  /** The first difference decides, and an end comes before anything else. */
  lemma {:induction false} FirstDifference(common: string, a: string, b: string)
    requires a != [] && b != [] ==> a[0] != b[0]
    ensures Less(common + a, common + b) <==> b != [] && (a == [] || a[0] < b[0])
  {
    if common == [] {
      assert common + a == a && common + b == b;
    } else {
      assert (common + a)[1..] == common[1..] + a && (common + b)[1..] == common[1..] + b;
      FirstDifference(common[1..], a, b);
    }
  }

  lemma LessTotal(a: string, b: string)
    ensures a == b || Less(a, b) || Less(b, a)
  {
    if a != [] && b != [] && a[0] == b[0] {
      LessTotal(a[1..], b[1..]);
      assert a == [a[0]] + a[1..] && b == [b[0]] + b[1..];
    }
  }

  lemma {:induction false} LessTransitive(a: string, b: string, c: string)
    requires Less(a, b) && Less(b, c)
    ensures Less(a, c)
  {
    if a != [] && a[0] == b[0] && b[0] == c[0] {
      LessTransitive(a[1..], b[1..], c[1..]);
    }
  }

  lemma {:induction false} LessIrreflexive(a: string)
    ensures !Less(a, a)
  {
    if a != [] {
      LessIrreflexive(a[1..]);
    }
  }

  lemma LessIsStrictOrder()
    ensures StrictOrder(Less)
  {
    forall a, b ensures a == b || Less(a, b) || Less(b, a) { LessTotal(a, b); }
    forall a ensures !Less(a, a) { LessIrreflexive(a); }
    forall a, b, c | Less(a, b) && Less(b, c) ensures Less(a, c) { LessTransitive(a, b, c); }
  }

  ghost predicate StrictOrder<T(!new)>(less: (T, T) -> bool) {
    && (forall a, b :: a == b || less(a, b) || less(b, a))
    && (forall a :: !less(a, a))
    && (forall a, b, c :: less(a, b) && less(b, c) ==> less(a, c))
  }

  /** What sort.Slice asks of its argument: ties are allowed. */
  ghost predicate WeakOrder<T(!new)>(less: (T, T) -> bool) {
    && (forall a, b :: less(a, b) ==> !less(b, a))
    && (forall a, b, c :: less(a, c) ==> less(a, b) || less(b, c))
  }

  lemma StrictIsWeak<T(!new)>(less: (T, T) -> bool)
    requires StrictOrder(less)
    ensures WeakOrder(less)
  {
    forall a, b | less(a, b) ensures !less(b, a) { assert less(b, a) ==> less(a, a); }
    forall a, b, c | less(a, c) ensures less(a, b) || less(b, c) { assert less(b, a) && less(a, c) ==> less(b, c); }
  }

  ghost predicate Sorted<T>(less: (T, T) -> bool, s: seq<T>) {
    forall i, j :: 0 <= i < j < |s| ==> !less(s[j], s[i])
  }

  function Insert<T>(less: (T, T) -> bool, x: T, s: seq<T>): (r: seq<T>)
    ensures multiset(r) == multiset{x} + multiset(s)
  {
    if s == [] then [x]
    else if less(s[0], x) then
      assert s == [s[0]] + s[1..];
      [s[0]] + Insert(less, x, s[1..])
    else [x] + s
  }

  /** sort.Strings and sort.Slice. */
  function Sort<T>(less: (T, T) -> bool, s: seq<T>): (r: seq<T>)
    ensures multiset(r) == multiset(s)
  {
    if s == [] then []
    else
      assert s == [s[0]] + s[1..];
      Insert(less, s[0], Sort(less, s[1..]))
  }

  lemma {:induction false} InsertSorted<T(!new)>(less: (T, T) -> bool, x: T, s: seq<T>)
    requires WeakOrder(less) && Sorted(less, s)
    ensures Sorted(less, Insert(less, x, s))
  {
    var r := Insert(less, x, s);
    if s != [] && less(s[0], x) {
      InsertSorted(less, x, s[1..]);
      forall j | 1 <= j < |r| ensures !less(r[j], s[0]) {
        assert r[j] in multiset(r[1..]);
        assert r[1..] == Insert(less, x, s[1..]);
        assert r[j] == x || r[j] in s[1..];
      }
    }
  }

  lemma {:induction false} SortSorts<T(!new)>(less: (T, T) -> bool, s: seq<T>)
    requires WeakOrder(less)
    ensures Sorted(less, Sort(less, s))
  {
    if s != [] {
      SortSorts(less, s[1..]);
      InsertSorted(less, s[0], Sort(less, s[1..]));
    }
  }

  lemma SortedHeads<T(!new)>(less: (T, T) -> bool, s: seq<T>, t: seq<T>)
    requires StrictOrder(less) && Sorted(less, s) && Sorted(less, t)
    requires s != [] && t != [] && s[0] in t && t[0] in s
    ensures s[0] == t[0]
  {
    var i :| 0 <= i < |t| && t[i] == s[0];
    var j :| 0 <= j < |s| && s[j] == t[0];
    assert i == 0 || !less(t[i], t[0]);
    assert j == 0 || !less(s[j], s[0]);
  }

  lemma TailSorted<T(!new)>(less: (T, T) -> bool, s: seq<T>)
    requires Sorted(less, s) && s != []
    ensures Sorted(less, s[1..]) && multiset(s[1..]) == multiset(s) - multiset{s[0]}
  {
    assert s == [s[0]] + s[1..];
  }

  lemma {:induction false} SortedUnique<T(!new)>(less: (T, T) -> bool, s: seq<T>, t: seq<T>)
    requires StrictOrder(less) && Sorted(less, s) && Sorted(less, t)
    requires multiset(s) == multiset(t)
    ensures s == t
  {
    assert |s| == |multiset(s)| == |multiset(t)| == |t|;
    if s != [] {
      assert s[0] in multiset(t) && t[0] in multiset(s);
      SortedHeads(less, s, t);
      TailSorted(less, s);
      TailSorted(less, t);
      SortedUnique(less, s[1..], t[1..]);
      assert s == [s[0]] + s[1..] && t == [t[0]] + t[1..];
    }
  }

  /** The point of sorting what came out of a Go map: every collection order gives one result. */
  lemma SortIgnoresOrder<T(!new)>(less: (T, T) -> bool, s: seq<T>, t: seq<T>)
    requires StrictOrder(less) && multiset(s) == multiset(t)
    ensures Sort(less, s) == Sort(less, t)
  {
    StrictIsWeak(less);
    SortSorts(less, s);
    SortSorts(less, t);
    SortedUnique(less, Sort(less, s), Sort(less, t));
  }

  /** A listing of a finite set without repetition: what one iteration of a Go map yields. */
  ghost predicate Lists<T(!new)>(s: seq<T>, keys: set<T>) {
    multiset(s) == multiset(keys)
  }

  ghost function ListingOf<T(!new)>(keys: set<T>): (s: seq<T>)
    ensures Lists(s, keys)
  {
    if keys == {} then [] else
      var k :| k in keys;
      assert multiset(keys) == multiset{k} + multiset(keys - {k});
      [k] + ListingOf(keys - {k})
  }

  // ---------------------------------------------------------------- maps of counts

  /** The sum of a map's values. */
  ghost function Total<K(!new)>(m: map<K, int>): int
    decreases m.Keys
  {
    if m == map[] then 0 else
      var k :| k in m;
      m[k] + Total(m - {k})
  }

  lemma {:induction false} TotalRemove<K(!new)>(m: map<K, int>, k: K)
    requires k in m
    ensures Total(m) == m[k] + Total(m - {k})
    decreases m.Keys
  {
    var j :| j in m && Total(m) == m[j] + Total(m - {j});
    if j != k {
      TotalRemove(m - {j}, k);
      TotalRemove(m - {k}, j);
      assert (m - {j}) - {k} == (m - {k}) - {j};
    }
  }

  function Count<K>(m: map<K, int>, k: K): int {
    if k in m then m[k] else 0
  }

  /** counts[k] += n. */
  function Bump<K>(m: map<K, int>, k: K, n: int): map<K, int> {
    m[k := Count(m, k) + n]
  }

  lemma TotalBump<K(!new)>(m: map<K, int>, k: K, n: int)
    ensures Total(Bump(m, k, n)) == Total(m) + n
  {
    var b := Bump(m, k, n);
    TotalRemove(b, k);
    assert b - {k} == m - {k};
    if k in m {
      TotalRemove(m, k);
    } else {
      assert m - {k} == m;
    }
  }

  /** The same total read off any listing of the keys. */
  function SumAlong<K>(m: map<K, int>, ks: seq<K>): int
    requires forall k :: k in ks ==> k in m
  {
    if ks == [] then 0 else m[ks[0]] + SumAlong(m, ks[1..])
  }

  lemma ListingHead<K(!new)>(ks: seq<K>, keys: set<K>)
    requires Lists(ks, keys) && ks != []
    ensures ks[0] in keys && Lists(ks[1..], keys - {ks[0]})
    ensures forall k :: k in ks <==> k in keys
  {
    assert ks == [ks[0]] + ks[1..];
    assert ks[0] in multiset(ks);
    forall k ensures k in ks <==> k in keys { assert k in ks <==> k in multiset(ks); }
    assert multiset(keys) == multiset{ks[0]} + multiset(keys - {ks[0]});
    assert multiset(ks[1..]) == multiset(ks) - multiset{ks[0]};
  }

  lemma ListingMembers<K(!new)>(ks: seq<K>, keys: set<K>)
    requires Lists(ks, keys)
    ensures forall k :: k in ks <==> k in keys
  {
    forall k ensures k in ks <==> k in keys { assert k in ks <==> k in multiset(ks); }
  }

  lemma {:induction false} SumAlongIsTotal<K(!new)>(m: map<K, int>, ks: seq<K>)
    requires Lists(ks, m.Keys) && forall k :: k in ks ==> k in m
    ensures SumAlong(m, ks) == Total(m)
  {
    assert forall k :: k in m ==> k in multiset(m.Keys);
    if ks != [] {
      ListingHead(ks, m.Keys);
      TotalRemove(m, ks[0]);
      var rest := m - {ks[0]};
      assert rest.Keys == m.Keys - {ks[0]};
      ListingMembers(ks[1..], rest.Keys);
      SumAlongIsTotal(rest, ks[1..]);
      SumAlongSame(m, rest, ks[1..]);
    }
  }

  lemma {:induction false} SumAlongSame<K>(m: map<K, int>, n: map<K, int>, ks: seq<K>)
    requires forall k :: k in ks ==> k in m && k in n && m[k] == n[k]
    ensures SumAlong(m, ks) == SumAlong(n, ks)
  {
    if ks != [] {
      SumAlongSame(m, n, ks[1..]);
    }
  }

  // ---------------------------------------------------------------- sums over sequences

  function SumOf<T>(f: T -> int, s: seq<T>): int {
    if s == [] then 0 else SumOf(f, s[..|s| - 1]) + f(s[|s| - 1])
  }

  lemma {:induction false} SumAppend<T>(f: T -> int, s: seq<T>, t: seq<T>)
    ensures SumOf(f, s + t) == SumOf(f, s) + SumOf(f, t)
  {
    if t == [] {
      assert s + t == s;
    } else {
      var n := |t| - 1;
      assert (s + t)[..|s + t| - 1] == s + t[..n];
      SumAppend(f, s, t[..n]);
    }
  }

  lemma SumSnoc<T>(f: T -> int, s: seq<T>, x: T)
    ensures SumOf(f, s + [x]) == SumOf(f, s) + f(x)
  {
    assert (s + [x])[..|s|] == s;
  }

  lemma {:induction false} SumSplit<T>(f: T -> int, t: seq<T>, i: nat)
    requires i < |t|
    ensures SumOf(f, t) == SumOf(f, t[..i] + t[i + 1..]) + f(t[i])
  {
    var n, rest := |t| - 1, t[..i] + t[i + 1..];
    if i == n {
      assert rest == t[..n];
    } else {
      SumSplit(f, t[..n], i);
      assert rest[..n - 1] == t[..n][..i] + t[..n][i + 1..] && rest[n - 1] == t[n];
    }
  }

  lemma DropKeepsRest<T>(t: seq<T>, i: nat)
    requires i < |t|
    ensures multiset(t[..i] + t[i + 1..]) == multiset(t) - multiset{t[i]}
  {
    assert t == t[..i] + [t[i]] + t[i + 1..];
  }

  /** A sum does not depend on the order of the summands. */
  lemma {:induction false} SumPermutation<T(!new)>(f: T -> int, s: seq<T>, t: seq<T>)
    requires multiset(s) == multiset(t)
    ensures SumOf(f, s) == SumOf(f, t)
  {
    assert |s| == |multiset(s)| == |multiset(t)| == |t|;
    if s != [] {
      var n := |s| - 1;
      assert s[n] in multiset(t);
      var i :| 0 <= i < |t| && t[i] == s[n];
      DropKeepsRest(t, i);
      DropKeepsRest(s, n);
      assert s[..n] + s[n + 1..] == s[..n];
      SumPermutation(f, s[..n], t[..i] + t[i + 1..]);
      SumSplit(f, t, i);
    }
  }
}
