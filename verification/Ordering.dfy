/** Python's `sorted` and `list.sort`, and the string order they use. */
module Ordering {

  /** Some value or none, for the source's optional fields and `dict.get`. */
  datatype Option<+T> = None | Some(value: T)

  /** A returned value, or the exception the source raises instead. */
  datatype Result<+T, +E> = Ok(value: T) | Err(error: E)

  // ----- Strings compare code point by code point, a proper prefix first -----

  predicate StringLe(a: string, b: string) {
    |a| == 0 || (|b| > 0 && (a[0] < b[0] || (a[0] == b[0] && StringLe(a[1..], b[1..]))))
  }

  predicate StringLess(a: string, b: string) {
    a != b && StringLe(a, b)
  }

  lemma {:induction false} StringLeTotal(a: string, b: string)
    ensures StringLe(a, b) || StringLe(b, a)
  {
    if |a| > 0 && |b| > 0 { StringLeTotal(a[1..], b[1..]); }
  }

  lemma StringLeAntisymmetric(a: string, b: string)
    requires StringLe(a, b) && StringLe(b, a)
    ensures a == b
  {
    if |a| > 0 {
      StringLeAntisymmetric(a[1..], b[1..]);
      assert a == [a[0]] + a[1..] && b == [b[0]] + b[1..];
    }
  }

  lemma {:induction false} StringLeTransitive(a: string, b: string, c: string)
    requires StringLe(a, b) && StringLe(b, c)
    ensures StringLe(a, c)
  {
    if |a| > 0 && a[0] == b[0] == c[0] { StringLeTransitive(a[1..], b[1..], c[1..]); }
  }

  /** The texts first differ at `k`, and there `a` has the smaller code point. */
  predicate SmallerAt(a: string, b: string, k: nat) {
    k < |a| && k < |b| && a[..k] == b[..k] && a[k] < b[k]
  }

  lemma SmallerInTails(a: string, b: string, k: nat)
    requires |a| > 0 && |b| > 0 && a[0] == b[0]
    ensures SmallerAt(a, b, k + 1) <==> SmallerAt(a[1..], b[1..], k)
  {
    if k < |a[1..]| && k < |b[1..]| {
      assert a[..k + 1] == [a[0]] + a[1..][..k] && b[..k + 1] == [b[0]] + b[1..][..k];
      assert a[..k + 1][1..] == a[1..][..k] && b[..k + 1][1..] == b[1..][..k];
    }
  }

  lemma PrefixOfTail(a: string, b: string)
    requires |a| > 0 && |b| > 0 && a[0] == b[0]
    ensures |a| < |b| && a == b[..|a|] <==> |a[1..]| < |b[1..]| && a[1..] == b[1..][..|a[1..]|]
  {
    if |a| < |b| {
      assert b[..|a|] == [b[0]] + b[1..][..|a[1..]|] && a == [a[0]] + a[1..];
      assert b[..|a|][1..] == b[1..][..|a[1..]|];
    }
  }

  /** The first code point in which they differ decides, and without one the shorter comes first. */
  lemma {:induction false} StringOrder(a: string, b: string)
    ensures StringLess(a, b) <==> (|a| < |b| && a == b[..|a|]) || exists k :: SmallerAt(a, b, k)
  {
    if |a| > 0 && |b| > 0 && a[0] == b[0] {
      hide SmallerAt;
      StringOrder(a[1..], b[1..]);
      PrefixOfTail(a, b);
      if k: nat :| SmallerAt(a, b, k) {
        NotAtFirst(a, b, k);
        SmallerInTails(a, b, k - 1);
      }
      if k: nat :| SmallerAt(a[1..], b[1..], k) {
        SmallerInTails(a, b, k);
      }
    } else if |a| > 0 && |b| > 0 {
      assert a[..0] == b[..0];
      assert SmallerAt(a, b, 0) <==> a[0] < b[0];
      assert forall k: nat :: SmallerAt(a, b, k) && k > 0 ==> a[0] == a[..k][0] == b[..k][0] == b[0];
    }
  }

  lemma NotAtFirst(a: string, b: string, k: nat)
    requires SmallerAt(a, b, k) && a[0] == b[0]
    ensures k > 0
  {
  }

  /** A relation that sorting can rely on: reflexive and total, transitive, antisymmetric. */
  ghost predicate TotalOrder<T(!new)>(le: (T, T) -> bool) {
    && (forall a, b :: le(a, b) || le(b, a))
    && (forall a, b :: le(a, b) && le(b, a) ==> a == b)
    && (forall a, b, c :: le(a, b) && le(b, c) ==> le(a, c))
  }

  lemma StringLeIsTotalOrder()
    ensures TotalOrder(StringLe)
  {
    forall a, b ensures StringLe(a, b) || StringLe(b, a) { StringLeTotal(a, b); }
    forall a, b | StringLe(a, b) && StringLe(b, a) ensures a == b { StringLeAntisymmetric(a, b); }
    forall a, b, c | StringLe(a, b) && StringLe(b, c) ensures StringLe(a, c) { StringLeTransitive(a, b, c); }
  }

  // ----- Sorting a list -----

  ghost predicate SortedBy<T>(le: (T, T) -> bool, s: seq<T>) {
    forall i, j :: 0 <= i < j < |s| ==> le(s[i], s[j])
  }

  function Insert<T>(le: (T, T) -> bool, x: T, s: seq<T>): seq<T> {
    if |s| == 0 || le(x, s[0]) then [x] + s else [s[0]] + Insert(le, x, s[1..])
  }

  function Sort<T>(le: (T, T) -> bool, s: seq<T>): seq<T> {
    if |s| == 0 then [] else Insert(le, s[0], Sort(le, s[1..]))
  }

  lemma {:induction false} InsertPermutes<T>(le: (T, T) -> bool, x: T, s: seq<T>)
    ensures multiset(Insert(le, x, s)) == multiset{x} + multiset(s)
  {
    if !(|s| == 0 || le(x, s[0])) {
      InsertPermutes(le, x, s[1..]);
      assert s == [s[0]] + s[1..];
    }
  }

  /** What sorting itself relies on: different elements may be equivalent. */
  ghost predicate TotalPreorder<T(!new)>(le: (T, T) -> bool) {
    && (forall a, b :: le(a, b) || le(b, a))
    && (forall a, b, c :: le(a, b) && le(b, c) ==> le(a, c))
  }

  lemma {:induction false} InsertSorts<T(!new)>(le: (T, T) -> bool, x: T, s: seq<T>)
    requires TotalPreorder(le) && SortedBy(le, s)
    ensures SortedBy(le, Insert(le, x, s))
  {
    if !(|s| == 0 || le(x, s[0])) {
      InsertSorts(le, x, s[1..]);
      InsertPermutes(le, x, s[1..]);
      var t := Insert(le, x, s[1..]);
      forall j | 0 <= j < |t| ensures le(s[0], t[j]) {
        assert t[j] in multiset(t);
        if t[j] != x { assert t[j] in s[1..]; }
      }
    }
  }

  lemma {:induction false} SortPermutes<T>(le: (T, T) -> bool, s: seq<T>)
    ensures multiset(Sort(le, s)) == multiset(s)
  {
    if |s| > 0 {
      SortPermutes(le, s[1..]);
      InsertPermutes(le, s[0], Sort(le, s[1..]));
      assert s == [s[0]] + s[1..];
    }
  }

  lemma {:induction false} SortSorts<T(!new)>(le: (T, T) -> bool, s: seq<T>)
    requires TotalPreorder(le)
    ensures SortedBy(le, Sort(le, s))
  {
    if |s| > 0 {
      SortSorts(le, s[1..]);
      InsertSorts(le, s[0], Sort(le, s[1..]));
    }
  }

  function Filter<T>(p: T -> bool, s: seq<T>): seq<T> {
    if |s| == 0 then [] else (if p(s[0]) then [s[0]] else []) + Filter(p, s[1..])
  }

  lemma {:induction false} FilterSnoc<T>(p: T -> bool, s: seq<T>, x: T)
    ensures Filter(p, s + [x]) == Filter(p, s) + (if p(x) then [x] else [])
  {
    var all := s + [x];
    if |s| == 0 {
      assert all == [x] && all[1..] == [];
    } else {
      FilterSnoc(p, s[1..], x);
      assert all[0] == s[0] && all[1..] == s[1..] + [x];
      var head := if p(s[0]) then [s[0]] else [];
      assert head + (Filter(p, s[1..]) + (if p(x) then [x] else [])) == Filter(p, s) + (if p(x) then [x] else []);
    }
  }

  lemma {:induction false} FilterTwice<T(!new)>(p: T -> bool, q: T -> bool, s: seq<T>)
    requires forall x :: p(x) ==> q(x)
    ensures Filter(p, Filter(q, s)) == Filter(p, s)
  {
    if |s| > 0 {
      FilterTwice(p, q, s[1..]);
      if q(s[0]) {
        assert ([s[0]] + Filter(q, s[1..]))[1..] == Filter(q, s[1..]);
      } else {
        assert Filter(q, s) == Filter(q, s[1..]);
      }
    }
  }

  lemma {:induction false} InsertIsStable<T(!new)>(le: (T, T) -> bool, p: T -> bool, x: T, s: seq<T>)
    requires forall a, b :: p(a) && p(b) ==> le(a, b)
    ensures Filter(p, Insert(le, x, s)) == (if p(x) then [x] else []) + Filter(p, s)
  {
    hide Filter;
    if |s| == 0 || le(x, s[0]) {
      FilterCons(p, x, s);
    } else {
      InsertIsStable(le, p, x, s[1..]);
      FilterCons(p, s[0], Insert(le, x, s[1..]));
      FilterCons(p, s[0], s[1..]);
      assert s == [s[0]] + s[1..];
    }
  }

  lemma FilterCons<T>(p: T -> bool, x: T, s: seq<T>)
    ensures Filter(p, [x] + s) == (if p(x) then [x] else []) + Filter(p, s)
  {
    assert ([x] + s)[1..] == s;
  }

  /** Sorting keeps the order of equivalent elements. */
  lemma {:induction false} SortIsStable<T(!new)>(le: (T, T) -> bool, p: T -> bool, s: seq<T>)
    requires forall a, b :: p(a) && p(b) ==> le(a, b)
    ensures Filter(p, Sort(le, s)) == Filter(p, s)
  {
    if |s| > 0 {
      SortIsStable(le, p, s[1..]);
      InsertIsStable(le, p, s[0], Sort(le, s[1..]));
    }
  }

  /** A sorted list is determined by its elements with their multiplicities. */
  lemma {:induction false} SortedUnique<T(!new)>(le: (T, T) -> bool, a: seq<T>, b: seq<T>)
    requires TotalOrder(le) && SortedBy(le, a) && SortedBy(le, b)
    requires multiset(a) == multiset(b)
    ensures a == b
  {
    if |a| == 0 {
      assert |multiset(b)| == 0;
    } else {
      SameHead(le, a, b);
      hide TotalOrder;
      assert a == [a[0]] + a[1..] && b == [b[0]] + b[1..];
      assert multiset(a[1..]) == multiset(a) - multiset{a[0]};
      assert multiset(b[1..]) == multiset(b) - multiset{b[0]};
      SortedUnique(le, a[1..], b[1..]);
    }
  }

  lemma SameHead<T(!new)>(le: (T, T) -> bool, a: seq<T>, b: seq<T>)
    requires TotalOrder(le) && SortedBy(le, a) && SortedBy(le, b)
    requires multiset(a) == multiset(b) && |a| > 0
    ensures |b| > 0 && a[0] == b[0]
  {
    assert |multiset(a)| == |multiset(b)|;
    assert a[0] in multiset(b) && b[0] in multiset(a);
    assert le(a[0], b[0]) && le(b[0], a[0]);
  }

  /** Sorting forgets the order in which the elements arrived. */
  lemma SortIgnoresInputOrder<T(!new)>(le: (T, T) -> bool, s: seq<T>, t: seq<T>)
    requires TotalOrder(le) && multiset(s) == multiset(t)
    ensures Sort(le, s) == Sort(le, t)
  {
    SortSorts(le, s);
    SortSorts(le, t);
    SortPermutes(le, s);
    SortPermutes(le, t);
    SortedUnique(le, Sort(le, s), Sort(le, t));
  }

  // ----- Sorting a set of strings -----

  ghost predicate IsLeast(x: string, xs: set<string>) {
    x in xs && forall y :: y in xs ==> StringLe(x, y)
  }

  lemma {:induction false} LeastExists(xs: set<string>)
    requires xs != {}
    ensures exists x :: IsLeast(x, xs)
    decreases |xs|
  {
    var x :| x in xs;
    if xs == {x} {
      StringLeTotal(x, x);
      assert IsLeast(x, xs);
    } else {
      LeastExists(xs - {x});
      var y :| IsLeast(y, xs - {x});
      StringLeIsTotalOrder();
      assert IsLeast(if StringLe(x, y) then x else y, xs);
    }
  }

  /** The lexicographically least element. */
  function Least(xs: set<string>): (x: string)
    requires xs != {}
    ensures x in xs && forall y :: y in xs ==> StringLe(x, y)
  {
    LeastExists(xs);
    StringLeIsTotalOrder();
    var x :| x in xs && forall y :: y in xs ==> StringLe(x, y);
    x
  }

  ghost predicate StrictlyIncreasing(s: seq<string>) {
    forall i, j :: 0 <= i < j < |s| ==> StringLess(s[i], s[j])
  }

  function Elements<T>(s: seq<T>): set<T> {
    set x | x in s
  }

  lemma ElementsCons<T>(x: T, s: seq<T>)
    ensures Elements([x] + s) == {x} + Elements(s)
  {
    assert forall y :: y in [x] + s <==> y == x || y in s;
  }

  lemma ElementsConcat<T>(s: seq<T>, t: seq<T>)
    ensures Elements(s + t) == Elements(s) + Elements(t)
  {
    assert forall y :: y in s + t <==> y in s || y in t;
  }

  lemma StrictlyIncreasingCons(x: string, s: seq<string>)
    requires StrictlyIncreasing(s)
    requires forall y :: y in s ==> StringLess(x, y)
    ensures StrictlyIncreasing([x] + s)
  {
    var t := [x] + s;
    forall i, j | 0 <= i < j < |t| ensures StringLess(t[i], t[j]) {
      assert t[j] == s[j - 1];
      if i > 0 { assert t[i] == s[i - 1]; }
    }
  }

  /** `sorted(xs)` of a set: its elements once each, in increasing order. */
  function Sorted(xs: set<string>): (s: seq<string>)
    ensures Elements(s) == xs && StrictlyIncreasing(s) && |s| == |xs|
    decreases |xs|
  {
    if xs == {} then [] else
      var x := Least(xs);
      var rest := Sorted(xs - {x});
      ElementsCons(x, rest);
      assert forall y :: y in rest ==> y in Elements(rest);
      StrictlyIncreasingCons(x, rest);
      [x] + rest
  }

  lemma SortedMember(xs: set<string>, i: nat)
    requires i < |Sorted(xs)|
    ensures Sorted(xs)[i] in xs
  {
    assert Sorted(xs)[i] in Elements(Sorted(xs));
  }

  lemma SortedCovers(xs: set<string>, ys: set<string>)
    requires forall i :: 0 <= i < |Sorted(xs)| ==> Sorted(xs)[i] in ys
    ensures xs <= ys
  {
    forall x | x in xs ensures x in ys {
      assert x in Elements(Sorted(xs));
    }
  }

  ghost predicate NoDuplicates<T>(s: seq<T>) {
    forall i, j :: 0 <= i < j < |s| ==> s[i] != s[j]
  }

  lemma {:induction false} DistinctMultiset<T>(s: seq<T>)
    requires NoDuplicates(s)
    ensures multiset(s) == multiset(Elements(s))
  {
    if |s| > 0 {
      DistinctMultiset(s[1..]);
      assert s == [s[0]] + s[1..];
      assert Elements(s) == {s[0]} + Elements(s[1..]);
      assert s[0] !in Elements(s[1..]);
    }
  }

  /** Sorting a duplicate-free list is sorting the set of its elements. */
  lemma SortOfDistinct(s: seq<string>)
    requires NoDuplicates(s)
    ensures Sort(StringLe, s) == Sorted(Elements(s))
  {
    StringLeIsTotalOrder();
    SortSorts(StringLe, s);
    SortPermutes(StringLe, s);
    DistinctMultiset(s);
    var t := Sorted(Elements(s));
    DistinctMultiset(t);
    SortedUnique(StringLe, Sort(StringLe, s), t);
  }
}
