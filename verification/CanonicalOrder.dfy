/**
 Canonical sorting: one result for every order of the same elements.
 */
module CanonicalOrder {
  import opened Basics

  ghost predicate Ordering<T(!new)>(le: (T, T) -> bool) {
    && (forall a, b :: le(a, b) || le(b, a))
    && (forall a, b, c :: le(a, b) && le(b, c) ==> le(a, c))
  }

  /** Distinct elements of `s` are never tied. */
  ghost predicate NoTies<T(!new)>(s: seq<T>, le: (T, T) -> bool) {
    forall a, b :: a in s && b in s && le(a, b) && le(b, a) ==> a == b
  }

  ghost predicate Sorted<T>(s: seq<T>, le: (T, T) -> bool) {
    forall i, j :: 0 <= i < j < |s| ==> le(s[i], s[j])
  }

  function Insert<T>(x: T, s: seq<T>, le: (T, T) -> bool): seq<T> {
    if s == [] then [x]
    else if le(x, s[0]) then [x] + s
    else [s[0]] + Insert(x, s[1..], le)
  }

  function Sort<T>(s: seq<T>, le: (T, T) -> bool): seq<T> {
    if s == [] then [] else Insert(s[0], Sort(s[1..], le), le)
  }

  lemma {:induction false} InsertPermutes<T>(x: T, s: seq<T>, le: (T, T) -> bool)
    ensures multiset(Insert(x, s, le)) == multiset(s) + multiset{x}
  {
    if s != [] && !le(x, s[0]) {
      InsertPermutes(x, s[1..], le);
      assert s == [s[0]] + s[1..];
    }
  }

  lemma {:induction false} InsertSorted<T(!new)>(x: T, s: seq<T>, le: (T, T) -> bool)
    requires Ordering(le) && Sorted(s, le)
    ensures Sorted(Insert(x, s, le), le)
  {
    if s != [] {
      if le(x, s[0]) {
        assert forall j :: 0 <= j < |s| ==> le(x, s[j]);
      } else {
        InsertSorted(x, s[1..], le);
        InsertPermutes(x, s[1..], le);
        var rest := Insert(x, s[1..], le);
        forall j | 0 <= j < |rest| ensures le(s[0], rest[j]) {
          assert rest[j] in multiset(rest);
          assert rest[j] == x || rest[j] in s[1..];
        }
      }
    }
  }

  lemma {:induction false} SortPermutes<T>(s: seq<T>, le: (T, T) -> bool)
    ensures multiset(Sort(s, le)) == multiset(s)
  {
    if s != [] {
      SortPermutes(s[1..], le);
      InsertPermutes(s[0], Sort(s[1..], le), le);
      assert s == [s[0]] + s[1..];
    }
  }

  lemma {:induction false} SortSorts<T(!new)>(s: seq<T>, le: (T, T) -> bool)
    requires Ordering(le)
    ensures Sorted(Sort(s, le), le)
  {
    if s != [] {
      SortSorts(s[1..], le);
      InsertSorted(s[0], Sort(s[1..], le), le);
    }
  }

  lemma RemoveOne<T>(s: seq<T>, k: nat)
    requires k < |s|
    ensures multiset(s[..k] + s[k + 1..]) == multiset(s) - multiset{s[k]}
  {
    assert s == s[..k] + [s[k]] + s[k + 1..];
    assert multiset(s) == multiset(s[..k]) + multiset{s[k]} + multiset(s[k + 1..]);
  }

  lemma RemoveHead<T>(s: seq<T>)
    requires s != []
    ensures multiset(s[1..]) == multiset(s) - multiset{s[0]}
  {
    RemoveOne(s, 0);
    assert s[..0] + s[1..] == s[1..];
  }

  /** Two sorted arrangements of the same untied elements are the same arrangement. */
  lemma {:induction false} SortedUnique<T(!new)>(a: seq<T>, b: seq<T>, le: (T, T) -> bool)
    requires Ordering(le) && NoTies(a, le) && Sorted(a, le) && Sorted(b, le) && multiset(a) == multiset(b)
    ensures a == b
  {
    if a == [] {
      assert |multiset(b)| == 0;
    } else {
      assert |multiset(a)| == |a| && |multiset(b)| == |b|;
      assert a[0] in multiset(b) && b[0] in multiset(a);
      assert le(a[0], b[0]) by { LeastFirst(a, b[0], le); }
      assert le(b[0], a[0]) by { LeastFirst(b, a[0], le); }
      RemoveHead(a);
      RemoveHead(b);
      SortedUnique(a[1..], b[1..], le);
    }
  }

  lemma LeastFirst<T(!new)>(s: seq<T>, x: T, le: (T, T) -> bool)
    requires Ordering(le) && Sorted(s, le) && x in s
    ensures le(s[0], x)
  {
  }

  lemma SameElements<T>(a: seq<T>, b: seq<T>)
    requires multiset(a) == multiset(b)
    ensures forall x :: x in a <==> x in b
    ensures |a| == |b|
  {
    assert forall x :: x in a <==> x in multiset(a);
    assert forall x :: x in b <==> x in multiset(b);
    assert |multiset(a)| == |a| && |multiset(b)| == |b|;
  }

  /** Sorting forgets the order it was given. */
  lemma SortCanonical<T(!new)>(a: seq<T>, b: seq<T>, le: (T, T) -> bool)
    requires Ordering(le) && NoTies(a, le) && multiset(a) == multiset(b)
    ensures Sort(a, le) == Sort(b, le)
  {
    SortPermutes(a, le);
    SortPermutes(b, le);
    SortSorts(a, le);
    SortSorts(b, le);
    SameElements(a, Sort(a, le));
    SortedUnique(Sort(a, le), Sort(b, le), le);
  }

  /** Sorting a sorted sequence changes nothing. */
  lemma SortFixed<T(!new)>(s: seq<T>, le: (T, T) -> bool)
    requires Ordering(le) && NoTies(s, le) && Sorted(s, le)
    ensures Sort(s, le) == s
  {
    SortPermutes(s, le);
    SortSorts(s, le);
    SortedUnique(s, Sort(s, le), le);
  }

  // ---------------------------------------------------------------- text

  /** `compareCanonicalText`: code unit by code unit. */
  predicate TextLe(a: string, b: string) {
    if a == "" then true
    else if b == "" then false
    else if a[0] == b[0] then TextLe(a[1..], b[1..])
    else a[0] < b[0]
  }

  lemma {:induction false} TextTotal(a: string, b: string)
    ensures TextLe(a, b) || TextLe(b, a)
  {
    if a != "" && b != "" && a[0] == b[0] { TextTotal(a[1..], b[1..]); }
  }

  lemma {:induction false} TextAntisymmetric(a: string, b: string)
    requires TextLe(a, b) && TextLe(b, a)
    ensures a == b
  {
    if a != "" && b != "" {
      TextAntisymmetric(a[1..], b[1..]);
      assert a == [a[0]] + a[1..] && b == [b[0]] + b[1..];
    }
  }

  lemma {:induction false} TextTransitive(a: string, b: string, c: string)
    requires TextLe(a, b) && TextLe(b, c)
    ensures TextLe(a, c)
  {
    if a != "" && b != "" && c != "" && a[0] == b[0] == c[0] { TextTransitive(a[1..], b[1..], c[1..]); }
  }

  lemma TextOrdering()
    ensures Ordering(TextLe)
  {
    forall a, b ensures TextLe(a, b) || TextLe(b, a) { TextTotal(a, b); }
    forall a, b, c | TextLe(a, b) && TextLe(b, c) ensures TextLe(a, c) { TextTransitive(a, b, c); }
  }

  lemma TextNoTies(s: seq<string>)
    ensures NoTies(s, TextLe)
  {
    forall a, b | a in s && b in s && TextLe(a, b) && TextLe(b, a) ensures a == b { TextAntisymmetric(a, b); }
  }

  lemma TextSortCanonical(a: seq<string>, b: seq<string>)
    requires multiset(a) == multiset(b)
    ensures Sort(a, TextLe) == Sort(b, TextLe)
  {
    TextOrdering();
    TextNoTies(a);
    SortCanonical(a, b, TextLe);
  }

  lemma TextSortFixed(s: seq<string>)
    requires Sorted(s, TextLe)
    ensures Sort(s, TextLe) == s
  {
    TextOrdering();
    TextNoTies(s);
    SortFixed(s, TextLe);
  }

  // ---------------------------------------------------------------- mapping over any order

  /** Every element mapped, or nothing. */
  function MapAll<A, B>(f: A -> Option<B>, s: seq<A>): Option<seq<B>> {
    if s == [] then Some([])
    else
      var head, tail := f(s[0]), MapAll(f, s[1..]);
      if head.Some? && tail.Some? then Some([head.value] + tail.value) else None
  }

  lemma {:induction false} MapAllMeans<A, B>(f: A -> Option<B>, s: seq<A>)
    ensures MapAll(f, s).Some? <==> forall k :: 0 <= k < |s| ==> f(s[k]).Some?
    ensures MapAll(f, s).Some? ==>
      && |MapAll(f, s).value| == |s|
      && forall k :: 0 <= k < |s| ==> f(s[k]) == Some(MapAll(f, s).value[k])
  {
    if s != [] {
      MapAllMeans(f, s[1..]);
      assert forall k :: 1 <= k < |s| ==> s[k] == s[1..][k - 1];
    }
  }

  /** Mapping commutes with moving one element to the front. */
  lemma {:induction false} MapAllRemove<A, B>(f: A -> Option<B>, s: seq<A>, k: nat)
    requires k < |s|
    ensures
      var rest := s[..k] + s[k + 1..];
      && (MapAll(f, s).Some? <==> f(s[k]).Some? && MapAll(f, rest).Some?)
      && (MapAll(f, s).Some? ==> multiset(MapAll(f, s).value) == multiset(MapAll(f, rest).value) + multiset{f(s[k]).value})
  {
    if k == 0 {
      assert s[..0] + s[1..] == s[1..];
    } else {
      var rest := s[..k] + s[k + 1..];
      MapAllRemove(f, s[1..], k - 1);
      assert rest[0] == s[0] && rest[1..] == s[1..][..k - 1] + s[1..][k..];
      assert s[1..][k - 1] == s[k];
    }
  }

  lemma {:induction false} MapAllPermutes<A, B>(f: A -> Option<B>, a: seq<A>, b: seq<A>)
    requires multiset(a) == multiset(b)
    ensures MapAll(f, a).Some? <==> MapAll(f, b).Some?
    ensures MapAll(f, a).Some? ==> multiset(MapAll(f, a).value) == multiset(MapAll(f, b).value)
  {
    SameElements(a, b);
    if a != [] {
      assert a[0] in b;
      var k :| 0 <= k < |b| && b[k] == a[0];
      var rest := b[..k] + b[k + 1..];
      RemoveHead(a);
      RemoveOne(b, k);
      MapAllRemove(f, b, k);
      MapAllPermutes(f, a[1..], rest);
    }
  }

  // ---------------------------------------------------------------- no trading places

  ghost function Weight<T(!new)>(s: seq<T>, w: T -> nat): nat {
    if s == [] then 0 else w(s[0]) + Weight(s[1..], w)
  }

  lemma {:induction false} WeightRemove<T(!new)>(s: seq<T>, w: T -> nat, k: nat)
    requires k < |s|
    ensures Weight(s, w) == w(s[k]) + Weight(s[..k] + s[k + 1..], w)
  {
    if k == 0 {
      assert s[..0] + s[1..] == s[1..];
    } else {
      var rest := s[..k] + s[k + 1..];
      WeightRemove(s[1..], w, k - 1);
      assert rest[0] == s[0] && rest[1..] == s[1..][..k - 1] + s[1..][k..];
      assert s[1..][k - 1] == s[k];
    }
  }

  lemma {:induction false} WeightPermutes<T(!new)>(a: seq<T>, b: seq<T>, w: T -> nat)
    requires multiset(a) == multiset(b)
    ensures Weight(a, w) == Weight(b, w)
  {
    SameElements(a, b);
    if a != [] {
      assert a[0] in b;
      var k :| 0 <= k < |b| && b[k] == a[0];
      RemoveHead(a);
      RemoveOne(b, k);
      WeightRemove(b, w, k);
      WeightPermutes(a[1..], b[..k] + b[k + 1..], w);
    }
  }

  /** `f` leaves an element alone or makes it lighter. */
  ghost predicate Lightens<T(!new)>(f: T -> Option<T>, w: T -> nat, x: T) {
    f(x).Some? ==> f(x).value == x || w(f(x).value) < w(x)
  }

  lemma {:induction false} MappedWeight<T(!new)>(f: T -> Option<T>, s: seq<T>, w: T -> nat)
    requires MapAll(f, s).Some? && forall k :: 0 <= k < |s| ==> Lightens(f, w, s[k])
    ensures Weight(MapAll(f, s).value, w) <= Weight(s, w)
    ensures Weight(MapAll(f, s).value, w) == Weight(s, w) ==> MapAll(f, s).value == s
  {
    if s != [] {
      assert Lightens(f, w, s[0]);
      forall k | 0 <= k < |s[1..]| ensures Lightens(f, w, s[1..][k]) { assert s[1..][k] == s[k + 1]; }
      MappedWeight(f, s[1..], w);
      var mapped := MapAll(f, s).value;
      assert mapped[1..] == MapAll(f, s[1..]).value && mapped[0] == f(s[0]).value;
      assert s == [s[0]] + s[1..];
    }
  }

  /** A map that can only lighten, and gives back the same elements in some order, moved none of them. */
  lemma NoTradingPlaces<T(!new)>(f: T -> Option<T>, s: seq<T>, w: T -> nat)
    requires MapAll(f, s).Some? && multiset(MapAll(f, s).value) == multiset(s)
    requires forall k :: 0 <= k < |s| ==> Lightens(f, w, s[k])
    ensures MapAll(f, s) == Some(s)
  {
    WeightPermutes(MapAll(f, s).value, s, w);
    MappedWeight(f, s, w);
  }

  // ---------------------------------------------------------------- filtering in any order

  function Filter<T(!new)>(s: seq<T>, f: T -> bool): (r: seq<T>)
    ensures forall x :: x in r <==> x in s && f(x)
  {
    if s == [] then [] else (if f(s[0]) then [s[0]] else []) + Filter(s[1..], f)
  }

  ghost function Chosen<T>(x: T, f: T -> bool): multiset<T> {
    if f(x) then multiset{x} else multiset{}
  }

  lemma FilterHead<T(!new)>(s: seq<T>, f: T -> bool)
    requires s != []
    ensures multiset(Filter(s, f)) == Chosen(s[0], f) + multiset(Filter(s[1..], f))
  {
  }

  lemma {:induction false} FilterRemove<T(!new)>(s: seq<T>, f: T -> bool, k: nat)
    requires k < |s|
    ensures multiset(Filter(s, f)) == multiset(Filter(s[..k] + s[k + 1..], f)) + Chosen(s[k], f)
  {
    hide Filter, Chosen;
    FilterHead(s, f);
    if k == 0 {
      assert s[..0] + s[1..] == s[1..];
    } else {
      var rest := s[..k] + s[k + 1..];
      assert rest[0] == s[0] && rest[1..] == s[1..][..k - 1] + s[1..][k..];
      assert s[1..][k - 1] == s[k];
      FilterRemove(s[1..], f, k - 1);
      FilterHead(rest, f);
    }
  }

  lemma {:induction false} FilterPermutes<T(!new)>(a: seq<T>, b: seq<T>, f: T -> bool)
    requires multiset(a) == multiset(b)
    ensures multiset(Filter(a, f)) == multiset(Filter(b, f))
  {
    SameElements(a, b);
    if a != [] {
      assert a[0] in b;
      var k :| 0 <= k < |b| && b[k] == a[0];
      RemoveHead(a);
      RemoveOne(b, k);
      FilterHead(a, f);
      FilterRemove(b, f, k);
      FilterPermutes(a[1..], b[..k] + b[k + 1..], f);
    }
  }
}
