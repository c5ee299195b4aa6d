/** Python's ordering of `str` values (code point by code point, a proper
    prefix first) and `sorted()` over a directory listing. */
module Ordering {

  /** `a < b` on Python strings. */
  predicate Less(a: string, b: string)
    decreases |a|
  {
    if |a| == 0 then |b| > 0
    else if |b| == 0 then false
    else a[0] < b[0] || (a[0] == b[0] && Less(a[1..], b[1..]))
  }

  lemma {:induction false} LessIrreflexive(a: string)
    ensures !Less(a, a)
  {
    if |a| > 0 {
      LessIrreflexive(a[1..]);
    }
  }

  lemma {:induction false} LessTransitive(a: string, b: string, c: string)
    requires Less(a, b) && Less(b, c)
    ensures Less(a, c)
  {
    if |a| > 0 && a[0] == b[0] && b[0] == c[0] {
      LessTransitive(a[1..], b[1..], c[1..]);
    }
  }

  lemma LessAsymmetric(a: string, b: string)
    requires Less(a, b)
    ensures !Less(b, a)
  {
    if Less(b, a) {
      LessTransitive(a, b, a);
      LessIrreflexive(a);
    }
  }

  lemma {:induction false} LessTotal(a: string, b: string)
    requires a != b
    ensures Less(a, b) || Less(b, a)
  {
    if |a| > 0 && |b| > 0 && a[0] == b[0] {
      assert a == [a[0]] + a[1..] && b == [b[0]] + b[1..];
      LessTotal(a[1..], b[1..]);
    }
  }

  /** "Not less" is transitive as well: `c <= b <= a` gives `c <= a`. */
  lemma NotLessTransitive(a: string, b: string, c: string)
    requires !Less(a, b) && !Less(b, c)
    ensures !Less(a, c)
  {
    if Less(a, c) {
      if b != c {
        LessTotal(b, c);
        LessTransitive(a, c, b);
      }
    }
  }

  predicate Distinct(s: seq<string>) {
    forall i, j :: 0 <= i < j < |s| ==> s[i] != s[j]
  }

  /** Ascending, duplicates allowed. */
  predicate Sorted(s: seq<string>) {
    forall i, j :: 0 <= i < j < |s| ==> !Less(s[j], s[i])
  }

  /** Ascending without duplicates. */
  predicate StrictlySorted(s: seq<string>) {
    forall i, j :: 0 <= i < j < |s| ==> Less(s[i], s[j])
  }

  /** Placing `x` between a prefix below it and a suffix not below it keeps `ys` sorted. */
  lemma InsertKeepsSorted(ys: seq<string>, j: nat, x: string)
    requires Sorted(ys) && j <= |ys|
    requires forall k :: 0 <= k < j ==> Less(ys[k], x)
    requires j < |ys| ==> !Less(ys[j], x)
    ensures Sorted(ys[..j] + [x] + ys[j..])
  {
    var zs := ys[..j] + [x] + ys[j..];
    forall p, q | 0 <= p < q < |zs|
      ensures !Less(zs[q], zs[p])
    {
      if p < j && q == j {
        LessAsymmetric(ys[p], x);
      } else if p == j && q > j + 1 {
        NotLessTransitive(ys[q - 1], ys[j], x);
      }
    }
  }

  /** The same, strictly, when `x` is new and the suffix lies above it. */
  lemma InsertKeepsStrictlySorted(ys: seq<string>, j: nat, x: string)
    requires StrictlySorted(ys) && j <= |ys|
    requires forall k :: 0 <= k < j ==> Less(ys[k], x)
    requires j < |ys| ==> Less(x, ys[j])
    ensures StrictlySorted(ys[..j] + [x] + ys[j..])
  {
    var zs := ys[..j] + [x] + ys[j..];
    forall p, q | 0 <= p < q < |zs|
      ensures Less(zs[p], zs[q])
    {
      if p == j && q > j + 1 {
        LessTransitive(x, ys[j], ys[q - 1]);
      }
    }
  }

  /** One step of insertion sort: `x` goes before the first element not below it. */
  method Insert(ys: seq<string>, x: string) returns (zs: seq<string>)
    requires Sorted(ys)
    ensures Sorted(zs)
    ensures multiset(zs) == multiset(ys) + multiset{x}
    ensures StrictlySorted(ys) && x !in ys ==> StrictlySorted(zs)
  {
    var j := 0;
    while j < |ys| && Less(ys[j], x)
      invariant j <= |ys|
      invariant forall k :: 0 <= k < j ==> Less(ys[k], x)
    {
      j := j + 1;
    }
    InsertKeepsSorted(ys, j, x);
    if StrictlySorted(ys) && x !in ys && j < |ys| {
      LessTotal(x, ys[j]);
      InsertKeepsStrictlySorted(ys, j, x);
    }
    assert ys == ys[..j] + ys[j..];
    zs := ys[..j] + [x] + ys[j..];
  }

  /** `sorted(xs)`: insertion sort. A listing without repeated names comes out strictly ascending. */
  method Sort(xs: seq<string>) returns (ys: seq<string>)
    ensures Sorted(ys)
    ensures multiset(ys) == multiset(xs)
    ensures Distinct(xs) ==> StrictlySorted(ys)
  {
    ys := [];
    for i := 0 to |xs|
      invariant Sorted(ys)
      invariant multiset(ys) == multiset(xs[..i])
      invariant Distinct(xs) ==> StrictlySorted(ys)
    {
      assert xs[..i + 1] == xs[..i] + [xs[i]];
      if Distinct(xs) {
        assert xs[i] !in multiset(xs[..i]);
        assert xs[i] !in ys;
      }
      ys := Insert(ys, xs[i]);
    }
    assert xs[..|xs|] == xs;
  }

  /** `m` is below every other name of `s`. */
  predicate IsLeast(m: string, s: set<string>) {
    m in s && forall y :: y in s && y != m ==> Less(m, y)
  }

  lemma KeepLeast(m: string, x: string, s: set<string>)
    requires IsLeast(m, s - {x}) && x in s && Less(m, x)
    ensures IsLeast(m, s)
  {
    forall y | y in s && y != m
      ensures Less(m, y)
    {
      if y != x {
        assert y in s - {x};
      }
    }
  }

  lemma NewLeast(m: string, x: string, s: set<string>)
    requires IsLeast(m, s - {x}) && x in s && Less(x, m)
    ensures IsLeast(x, s)
  {
    forall y | y in s && y != x
      ensures Less(x, y)
    {
      if y != m {
        assert y in s - {x};
        LessTransitive(x, m, y);
      }
    }
  }

  /** A non-empty finite set of names has a least element. */
  lemma {:induction false} LeastExists(s: set<string>)
    requires s != {}
    ensures exists m :: IsLeast(m, s)
    decreases s
  {
    var x :| x in s;
    if s == {x} {
      assert IsLeast(x, s);
    } else {
      LeastExists(s - {x});
      var m :| IsLeast(m, s - {x});
      if Less(m, x) {
        KeepLeast(m, x, s);
      } else {
        LessTotal(m, x);
        NewLeast(m, x, s);
      }
    }
  }

  /** The names of a set in ascending order: the one order both `sorted()` and the plan use. */
  ghost function SortedSeq(s: set<string>): (r: seq<string>)
    ensures StrictlySorted(r)
    ensures forall x :: x in r <==> x in s
    ensures |r| == |s|
    decreases s
  {
    if s == {} then []
    else
      LeastExists(s);
      var m :| IsLeast(m, s);
      var rest := SortedSeq(s - {m});
      assert forall k :: 0 <= k < |rest| ==> rest[k] in s - {m};
      [m] + rest
  }

  /** Two strictly ascending sequences with the same elements are the same sequence. */
  lemma {:induction false} StrictlySortedUnique(a: seq<string>, b: seq<string>)
    requires StrictlySorted(a) && StrictlySorted(b)
    requires forall x :: x in a <==> x in b
    ensures a == b
    decreases |a|
  {
    assert |a| > 0 ==> a[0] in a;
    assert |b| > 0 ==> b[0] in b;
    if |a| > 0 && |b| > 0 {
      if a[0] != b[0] {
        assert b[0] in a;
        assert a[0] in b;
        var i :| 0 <= i < |a| && a[i] == b[0];
        var j :| 0 <= j < |b| && b[j] == a[0];
        assert Less(a[0], b[0]);
        assert Less(b[0], a[0]);
        LessAsymmetric(a[0], b[0]);
      }
      forall x
        ensures x in a[1..] <==> x in b[1..]
      {
        if x in a[1..] {
          var i :| 0 <= i < |a| - 1 && a[1..][i] == x;
          assert Less(a[0], a[i + 1]);
          LessIrreflexive(x);
          assert x in b && x != b[0];
          var j :| 0 <= j < |b| && b[j] == x;
          assert b[1..][j - 1] == x;
        }
        if x in b[1..] {
          var j :| 0 <= j < |b| - 1 && b[1..][j] == x;
          assert Less(b[0], b[j + 1]);
          LessIrreflexive(x);
          assert x in a && x != a[0];
          var i :| 0 <= i < |a| && a[i] == x;
          assert a[1..][i - 1] == x;
        }
      }
      StrictlySortedUnique(a[1..], b[1..]);
      assert a == [a[0]] + a[1..] && b == [b[0]] + b[1..];
    }
  }

  /** `os.listdir`: the names of a directory, each once, in no particular order. */
  method ListDir(listing: map<string, bool>) returns (names: seq<string>)
    ensures Distinct(names)
    ensures forall x :: x in names <==> x in listing
  {
    names := [];
    var rest := listing.Keys;
    while rest != {}
      invariant rest <= listing.Keys
      invariant forall x :: x in names <==> x in listing && x !in rest
      invariant Distinct(names)
      decreases rest
    {
      var x :| x in rest;
      names := names + [x];
      rest := rest - {x};
    }
  }

  /** `sorted(os.listdir(...))`: whatever order the listing came in, the sorted listing is `SortedSeq` of its names. */
  method SortedListing(listing: map<string, bool>) returns (names: seq<string>)
    ensures names == SortedSeq(listing.Keys)
  {
    var listed := ListDir(listing);
    names := Sort(listed);
    forall x
      ensures x in names <==> x in SortedSeq(listing.Keys)
    {
      assert x in names <==> x in multiset(names);
      assert x in listed <==> x in multiset(listed);
    }
    StrictlySortedUnique(names, SortedSeq(listing.Keys));
  }
}
