/** Byte-wise string order and sorting by a comparator, as sort.Slice does it. */
module Ordering {

  /** Go's `<` on strings. */
  predicate StringLess(a: string, b: string) {
    if b == [] then false
    else if a == [] then true
    else if a[0] != b[0] then a[0] < b[0]
    else StringLess(a[1..], b[1..])
  }

  lemma {:induction false} StringLessTotal(a: string, b: string)
    ensures a != b ==> StringLess(a, b) || StringLess(b, a)
    ensures !(StringLess(a, b) && StringLess(b, a))
    ensures !StringLess(a, a)
  {
    if a == [] {
    } else {
      StringLessTotal(a[1..], a[1..]);
      if b != [] {
        assert a == [a[0]] + a[1..] && b == [b[0]] + b[1..];
        StringLessTotal(a[1..], b[1..]);
      }
    }
  }

  lemma {:induction false} StringLessTransitive(a: string, b: string, c: string)
    requires StringLess(a, b) && StringLess(b, c)
    ensures StringLess(a, c)
  {
    if a != [] && a[0] == b[0] == c[0] {
      StringLessTransitive(a[1..], b[1..], c[1..]);
    }
  }

  /** `less` is a strict order that tells any two different elements of `s` apart. */
  ghost predicate StrictTotalOn<T(!new)>(less: (T, T) -> bool, s: multiset<T>) {
    && (forall x :: !less(x, x))
    && (forall x, y, z :: less(x, y) && less(y, z) ==> less(x, z))
    && (forall x, y | x in s && y in s && x != y :: less(x, y) || less(y, x))
  }

  /** No element is less than one before it. */
  ghost predicate Ordered<T>(less: (T, T) -> bool, s: seq<T>) {
    s == [] || ((forall y | y in s[1..] :: !less(y, s[0])) && Ordered(less, s[1..]))
  }

  function Insert<T>(less: (T, T) -> bool, x: T, s: seq<T>): seq<T> {
    if s == [] || less(x, s[0]) then [x] + s else [s[0]] + Insert(less, x, s[1..])
  }

  /** The outcome of sort.Slice; SortIsTheOrder shows that the algorithm does not matter. */
  function Sort<T>(less: (T, T) -> bool, s: seq<T>): seq<T> {
    if s == [] then [] else Insert(less, s[0], Sort(less, s[1..]))
  }

  lemma {:induction false} InsertKeeps<T>(less: (T, T) -> bool, x: T, s: seq<T>)
    ensures multiset(Insert(less, x, s)) == multiset(s) + multiset{x}
  {
    if s != [] && !less(x, s[0]) {
      InsertKeeps(less, x, s[1..]);
      assert s == [s[0]] + s[1..];
    }
  }

  lemma SameBag<T>(s: seq<T>, t: seq<T>)
    requires multiset(s) == multiset(t)
    ensures |s| == |t| && forall x :: x in s <==> x in t
  {
    assert |s| == |multiset(s)| && |t| == |multiset(t)|;
    assert forall x :: x in s <==> x in multiset(s);
    assert forall x :: x in t <==> x in multiset(t);
  }

  lemma {:induction false} SortKeeps<T>(less: (T, T) -> bool, s: seq<T>)
    ensures multiset(Sort(less, s)) == multiset(s)
    ensures |Sort(less, s)| == |s|
    ensures forall x :: x in Sort(less, s) <==> x in s
  {
    if s != [] {
      SortKeeps(less, s[1..]);
      InsertKeeps(less, s[0], Sort(less, s[1..]));
      assert s == [s[0]] + s[1..];
    }
    SameBag(Sort(less, s), s);
  }

  lemma SmallerStrictTotal<T(!new)>(less: (T, T) -> bool, s: multiset<T>, t: multiset<T>)
    requires StrictTotalOn(less, s) && forall x | x in t :: x in s
    ensures StrictTotalOn(less, t)
  {
  }

  lemma {:induction false} InsertOrders<T(!new)>(less: (T, T) -> bool, x: T, s: seq<T>)
    requires StrictTotalOn(less, multiset(s) + multiset{x}) && Ordered(less, s)
    ensures Ordered(less, Insert(less, x, s))
  {
    var r := Insert(less, x, s);
    if s == [] || less(x, s[0]) {
      assert r[1..] == s;
      forall y | y in s ensures !less(y, x) {
        assert y == s[0] || y in s[1..];
      }
    } else {
      var t := s[1..];
      assert s == [s[0]] + t;
      SmallerStrictTotal(less, multiset(s) + multiset{x}, multiset(t) + multiset{x});
      InsertOrders(less, x, t);
      InsertKeeps(less, x, t);
      assert r[1..] == Insert(less, x, t);
      forall y | y in r[1..] ensures !less(y, s[0]) {
        assert y in multiset(r[1..]);
        assert y == x || y in t;
      }
    }
  }

  lemma {:induction false} SortOrders<T(!new)>(less: (T, T) -> bool, s: seq<T>)
    requires StrictTotalOn(less, multiset(s))
    ensures Ordered(less, Sort(less, s))
  {
    if s == [] {
    } else {
      assert s == [s[0]] + s[1..];
      SmallerStrictTotal(less, multiset(s), multiset(s[1..]));
      SortOrders(less, s[1..]);
      SortKeeps(less, s[1..]);
      assert multiset(Sort(less, s[1..])) + multiset{s[0]} == multiset(s);
      InsertOrders(less, s[0], Sort(less, s[1..]));
    }
  }

  lemma InRest<T>(p: seq<T>, x: T)
    requires p != [] && x in multiset(p) && x != p[0]
    ensures x in p[1..]
  {
    assert p == [p[0]] + p[1..];
  }

  lemma FirstIsLeast<T>(less: (T, T) -> bool, p: seq<T>, x: T)
    requires p != [] && Ordered(less, p) && x in p[1..]
    ensures !less(x, p[0])
  {
  }

  lemma OrderedHead<T(!new)>(less: (T, T) -> bool, p: seq<T>, q: seq<T>)
    requires p != [] && q != [] && multiset(p) == multiset(q)
    requires StrictTotalOn(less, multiset(p)) && Ordered(less, p) && Ordered(less, q)
    ensures p[0] == q[0]
  {
    hide Ordered;
    var a, b := p[0], q[0];
    assert a in multiset(p) && b in multiset(q);
    if a != b {
      InRest(p, b);
      InRest(q, a);
      FirstIsLeast(less, p, b);
      FirstIsLeast(less, q, a);
    }
  }

  /** Two ordered arrangements of the same elements are the same sequence. */
  lemma {:induction false} OrderedUnique<T(!new)>(less: (T, T) -> bool, p: seq<T>, q: seq<T>)
    requires multiset(p) == multiset(q) && StrictTotalOn(less, multiset(p))
    requires Ordered(less, p) && Ordered(less, q)
    ensures p == q
  {
    SameBag(p, q);
    if p == [] {
    } else {
      OrderedHead(less, p, q);
      BagOfRest(p);
      BagOfRest(q);
      SmallerStrictTotal(less, multiset(p), multiset(p[1..]));
      OrderedUnique(less, p[1..], q[1..]);
      assert p == [p[0]] + p[1..] && q == [q[0]] + q[1..];
    }
  }

  lemma BagOfRest<T>(p: seq<T>)
    requires p != []
    ensures multiset(p[1..]) == multiset(p) - multiset{p[0]}
  {
    assert p == [p[0]] + p[1..];
  }

  /** Any ordered permutation of `s`, from any algorithm and any starting arrangement, is Sort. */
  lemma SortIsTheOrder<T(!new)>(less: (T, T) -> bool, s: seq<T>, p: seq<T>)
    requires multiset(p) == multiset(s) && StrictTotalOn(less, multiset(s)) && Ordered(less, p)
    ensures p == Sort(less, s)
  {
    SortKeeps(less, s);
    SortOrders(less, s);
    OrderedUnique(less, p, Sort(less, s));
  }

  lemma SortIgnoresArrangement<T(!new)>(less: (T, T) -> bool, s: seq<T>, t: seq<T>)
    requires multiset(s) == multiset(t) && StrictTotalOn(less, multiset(s))
    ensures Sort(less, s) == Sort(less, t)
  {
    SortKeeps(less, t);
    SortOrders(less, t);
    SortIsTheOrder(less, s, Sort(less, t));
  }

  // ---------------------------------------------------------------- ranging over a map

  /** The values of `t` under the keys `done` that satisfy `keep`. */
  ghost function Kept<R>(t: map<string, R>, keep: R -> bool, done: set<string>): set<R> {
    set id | id in done && id in t && keep(t[id]) :: t[id]
  }

  ghost predicate DistinctValues<R>(t: map<string, R>) {
    forall i, j | i in t && j in t && t[i] == t[j] :: i == j
  }

  lemma KeptGrows<R>(t: map<string, R>, keep: R -> bool, done: set<string>, id: string)
    requires DistinctValues(t) && id in t && id !in done
    ensures t[id] !in Kept(t, keep, done)
    ensures Kept(t, keep, done + {id}) == if keep(t[id]) then Kept(t, keep, done) + {t[id]} else Kept(t, keep, done)
  {
  }

  /** `for _, v := range t { if keep(v) { found = append(found, v) } }`, in whatever order the map yields. */
  method Collect<R>(t: map<string, R>, keep: R -> bool) returns (found: seq<R>)
    requires DistinctValues(t)
    ensures multiset(found) == multiset(Kept(t, keep, t.Keys))
  {
    var todo := t.Keys;
    found := [];
    ghost var done: set<string> := {};
    while todo != {}
      invariant todo <= t.Keys && done == t.Keys - todo
      invariant multiset(found) == multiset(Kept(t, keep, done))
      decreases todo
    {
      var id :| id in todo;
      KeptGrows(t, keep, done, id);
      todo, done := todo - {id}, done + {id};
      if keep(t[id]) {
        found := found + [t[id]];
      }
    }
    assert done == t.Keys;
  }
}
