/** Result types shared by every model. */
module Results {
  datatype Option<+T> = None | Some(value: T)

  datatype Result<+T, +E> = Ok(value: T) | Err(error: E)
}

/** Strict total orders, and the ascending sequence of a finite set: what iterating
    a sorted map or a sorted set of the source yields. */
module Orders {
  ghost predicate StrictTotal<T(!new)>(lt: (T, T) -> bool) {
    && (forall a :: !lt(a, a))
    && (forall a, b, c :: lt(a, b) && lt(b, c) ==> lt(a, c))
    && (forall a, b :: a == b || lt(a, b) || lt(b, a))
  }

  ghost predicate Ascending<T>(s: seq<T>, lt: (T, T) -> bool) {
    forall i, j :: 0 <= i < j < |s| ==> lt(s[i], s[j])
  }

  function Elements<T(==)>(s: seq<T>): set<T> {
    set x | x in s
  }

  lemma {:induction false} LeastExists<T(!new)>(s: set<T>, lt: (T, T) -> bool)
    requires StrictTotal(lt) && s != {}
    ensures exists m :: IsLeast(m, s, lt)
    decreases s
  {
    var e :| e in s;
    if s == {e} {
      assert IsLeast(e, s, lt);
    } else {
      var rest := s - {e};
      LeastExists(rest, lt);
      var m :| IsLeast(m, rest, lt);
      if lt(m, e) { assert IsLeast(m, s, lt); } else { LeastTakesOver(s, rest, m, e, lt); }
    }
  }

  ghost predicate IsLeast<T>(m: T, s: set<T>, lt: (T, T) -> bool) {
    m in s && forall x :: x in s ==> x == m || lt(m, x)
  }

  lemma {:induction false} LeastTakesOver<T(!new)>(s: set<T>, rest: set<T>, m: T, e: T, lt: (T, T) -> bool)
    requires StrictTotal(lt) && IsLeast(m, rest, lt) && s == rest + {e} && !lt(m, e)
    ensures IsLeast(e, s, lt)
  {
    forall x | x in s ensures x == e || lt(e, x) {
      assert e == m || lt(e, m);
    }
  }

  ghost function Least<T(!new)>(s: set<T>, lt: (T, T) -> bool): (m: T)
    requires StrictTotal(lt) && s != {}
    ensures m in s && forall x :: x in s ==> x == m || lt(m, x)
  {
    LeastExists(s, lt);
    var m :| IsLeast(m, s, lt);
    m
  }

  /** The elements of a finite set in ascending order. */
  ghost function Ascend<T(!new)>(s: set<T>, lt: (T, T) -> bool): (r: seq<T>)
    requires StrictTotal(lt)
    ensures Ascending(r, lt) && Elements(r) == s && |r| == |s|
    decreases s
  {
    if s == {} then [] else
    var m := Least(s, lt);
    var rest := Ascend(s - {m}, lt);
    assert forall x :: x in rest <==> x in Elements(rest);
    var r := [m] + rest;
    assert forall x :: x in Elements(r) <==> x == m || x in rest;
    r
  }

  /** There is only one ascending sequence with given elements. */
  lemma {:induction false} AscendingUnique<T(!new)>(a: seq<T>, b: seq<T>, lt: (T, T) -> bool)
    requires StrictTotal(lt) && Ascending(a, lt) && Ascending(b, lt)
    requires Elements(a) == Elements(b)
    ensures a == b
    decreases |a|
  {
    assert forall x :: x in Elements(a) <==> x in a;
    assert forall x :: x in Elements(b) <==> x in b;
    assert a != [] ==> a[0] in b;
    assert b != [] ==> b[0] in a;
    if a != [] && b != [] {
      var i :| 0 <= i < |b| && b[i] == a[0];
      var j :| 0 <= j < |a| && a[j] == b[0];
      assert a[0] == b[0];
      assert forall x :: x in a[1..] <==> x in a && x != a[0];
      assert forall x :: x in b[1..] <==> x in b && x != b[0];
      AscendingUnique(a[1..], b[1..], lt);
    }
  }

  /** An ascending page drawn from a set that is full, or misses nothing, and lies below
      everything it misses, is the page of the sorted set. */
  lemma {:induction false} PageOfAscend<T(!new)>(all: set<T>, page: seq<T>, limit: nat, lt: (T, T) -> bool)
    requires StrictTotal(lt) && Ascending(page, lt) && |page| <= limit
    requires forall x :: x in page ==> x in all
    requires forall i, x :: 0 <= i < |page| && x in all && x !in page ==> lt(page[i], x)
    requires |page| == limit || forall x :: x in all ==> x in page
    ensures var sorted := Ascend(all, lt);
      page == if |sorted| <= limit then sorted else sorted[..limit]
  {
    hide StrictTotal, Ascend;
    var missed := all - Elements(page);
    var rest := Ascend(missed, lt);
    var sorted := Ascend(all, lt);
    var whole := page + rest;
    assert forall x :: x in Elements(page) <==> x in page;
    assert forall x :: x in rest <==> x in Elements(rest);
    assert forall x :: x in whole <==> x in all;
    forall i, j | 0 <= i < j < |whole| ensures lt(whole[i], whole[j]) {
      if i < |page| && j >= |page| { assert rest[j - |page|] in missed; }
    }
    assert forall x :: x in sorted <==> x in Elements(sorted);
    assert Elements(whole) == Elements(sorted);
    AscendingUnique(whole, sorted, lt);
    if |page| < limit {
      assert missed == {};
    }
  }

  /** Lexicographic order of strings. */
  predicate StringLess(a: string, b: string) {
    if b == "" then false
    else if a == "" then true
    else a[0] < b[0] || (a[0] == b[0] && StringLess(a[1..], b[1..]))
  }

  lemma {:induction false} StringLessIrreflexive(a: string)
    ensures !StringLess(a, a)
  {
    if a != "" { StringLessIrreflexive(a[1..]); }
  }

  lemma {:induction false} StringLessTransitive(a: string, b: string, c: string)
    requires StringLess(a, b) && StringLess(b, c)
    ensures StringLess(a, c)
  {
    if a != "" && a[0] == b[0] && b[0] == c[0] {
      StringLessTransitive(a[1..], b[1..], c[1..]);
    }
  }

  lemma {:induction false} StringLessTotal(a: string, b: string)
    ensures a == b || StringLess(a, b) || StringLess(b, a)
  {
    if a != "" && b != "" && a[0] == b[0] {
      StringLessTotal(a[1..], b[1..]);
      assert a == [a[0]] + a[1..] && b == [b[0]] + b[1..];
    }
  }

  lemma {:induction false} StringOrder()
    ensures StrictTotal(StringLess)
  {
    forall a ensures !StringLess(a, a) { StringLessIrreflexive(a); }
    forall a, b, c | StringLess(a, b) && StringLess(b, c) ensures StringLess(a, c) {
      StringLessTransitive(a, b, c);
    }
    forall a, b ensures a == b || StringLess(a, b) || StringLess(b, a) { StringLessTotal(a, b); }
  }
}

/** Sorting a list by a strict total order, as the source's in-place sorts do. */
module Sorting {
  import opened Orders

  function Insert<T>(x: T, s: seq<T>, lt: (T, T) -> bool): seq<T>
    decreases |s|
  {
    if s == [] || !lt(s[0], x) then [x] + s else [s[0]] + Insert(x, s[1..], lt)
  }

  function Sort<T>(s: seq<T>, lt: (T, T) -> bool): seq<T>
    decreases |s|
  {
    if s == [] then [] else Insert(s[0], Sort(s[1..], lt), lt)
  }

  ghost predicate Sorted<T>(s: seq<T>, lt: (T, T) -> bool) {
    forall i, j :: 0 <= i < j < |s| ==> !lt(s[j], s[i])
  }

  /** An order in which different elements may tie, as when sorting by a key. */
  ghost predicate StrictWeak<T(!new)>(lt: (T, T) -> bool) {
    && (forall a :: !lt(a, a))
    && (forall a, b :: lt(a, b) ==> !lt(b, a))
    && (forall a, b, c :: !lt(a, b) && !lt(b, c) ==> !lt(a, c))
  }

  lemma {:induction false} TotalIsWeak<T(!new)>(lt: (T, T) -> bool)
    requires StrictTotal(lt)
    ensures StrictWeak(lt)
  {
    forall a, b, c | !lt(a, b) && !lt(b, c) ensures !lt(a, c) {
      assert a == b || lt(b, a);
      assert b == c || lt(c, b);
    }
  }

  lemma {:induction false} InsertSorts<T(!new)>(x: T, s: seq<T>, lt: (T, T) -> bool)
    requires StrictWeak(lt) && Sorted(s, lt)
    ensures Sorted(Insert(x, s, lt), lt)
    ensures multiset(Insert(x, s, lt)) == multiset(s) + multiset{x}
    decreases |s|
  {
    if s != [] && lt(s[0], x) {
      var rest := Insert(x, s[1..], lt);
      InsertSorts(x, s[1..], lt);
      assert s == [s[0]] + s[1..];
      forall y | y in rest ensures !lt(y, s[0]) {
        assert y in multiset(rest);
        if y != x { assert y in s[1..]; }
      }
      ConsSorted(s[0], rest, lt);
    } else if s != [] {
      forall y | y in s ensures !lt(y, x) {
        var i :| 0 <= i < |s| && s[i] == y;
        assert i > 0 ==> !lt(s[i], s[0]);
      }
      ConsSorted(x, s, lt);
    }
  }

  lemma {:induction false} ConsSorted<T>(x: T, s: seq<T>, lt: (T, T) -> bool)
    requires Sorted(s, lt) && forall y :: y in s ==> !lt(y, x)
    ensures Sorted([x] + s, lt)
  {
  }

  lemma {:induction false} SortSorts<T(!new)>(s: seq<T>, lt: (T, T) -> bool)
    requires StrictWeak(lt)
    ensures Sorted(Sort(s, lt), lt)
    ensures multiset(Sort(s, lt)) == multiset(s)
    ensures |Sort(s, lt)| == |s|
    decreases |s|
  {
    if s != [] {
      SortSorts(s[1..], lt);
      InsertSorts(s[0], Sort(s[1..], lt), lt);
      assert s == [s[0]] + s[1..];
    }
    assert |multiset(Sort(s, lt))| == |Sort(s, lt)| && |multiset(s)| == |s|;
  }

  /** No two different elements of the list tie. */
  ghost predicate NoTies<T>(s: seq<T>, lt: (T, T) -> bool) {
    forall x, y :: x in s && y in s && !lt(x, y) && !lt(y, x) ==> x == y
  }

  lemma {:induction false} TotalHasNoTies<T(!new)>(s: seq<T>, lt: (T, T) -> bool)
    requires StrictTotal(lt)
    ensures NoTies(s, lt)
  {
  }

  lemma {:induction false} SameHead<T(!new)>(a: seq<T>, b: seq<T>, lt: (T, T) -> bool)
    requires StrictWeak(lt) && NoTies(a, lt) && Sorted(a, lt) && Sorted(b, lt) && multiset(a) == multiset(b) && a != []
    ensures |a| == |b| && a[0] == b[0]
  {
    SameMembers(a, b);
    assert a[0] in b && b[0] in a;
    var i :| 0 <= i < |b| && b[i] == a[0];
    var j :| 0 <= j < |a| && a[j] == b[0];
    assert i == 0 || !lt(b[i], b[0]);
    assert j == 0 || !lt(a[j], a[0]);
  }

  lemma {:induction false} TailMultiset<T>(s: seq<T>)
    requires s != []
    ensures multiset(s[1..]) == multiset(s) - multiset{s[0]}
  {
    assert s == [s[0]] + s[1..];
  }

  /** Sorting forgets the input order. */
  lemma {:induction false} SortedUnique<T(!new)>(a: seq<T>, b: seq<T>, lt: (T, T) -> bool)
    requires StrictWeak(lt) && NoTies(a, lt) && Sorted(a, lt) && Sorted(b, lt) && multiset(a) == multiset(b)
    ensures a == b
    decreases |a|
  {
    hide StrictWeak;
    SameMembers(a, b);
    if a != [] {
      SameHead(a, b, lt);
      TailMultiset(a);
      TailMultiset(b);
      assert a == [a[0]] + a[1..] && b == [b[0]] + b[1..];
      SortedUnique(a[1..], b[1..], lt);
    }
  }

  lemma {:induction false} SortOfSorted<T(!new)>(s: seq<T>, lt: (T, T) -> bool)
    requires StrictWeak(lt) && NoTies(s, lt) && Sorted(s, lt)
    ensures Sort(s, lt) == s
  {
    SortSorts(s, lt);
    SameMembers(Sort(s, lt), s);
    SortedUnique(s, Sort(s, lt), lt);
  }

  lemma {:induction false} SameMembers<T>(a: seq<T>, b: seq<T>)
    requires multiset(a) == multiset(b)
    ensures |a| == |b| && forall x :: x in a <==> x in b
  {
    assert |multiset(a)| == |a| && |multiset(b)| == |b|;
    forall x ensures x in a <==> x in b {
      assert x in multiset(a) <==> x in multiset(b);
    }
  }
}

/** Powers of two and the address masks built from them. */
module Bits {
  function Pow2(n: nat): (r: nat)
    ensures r >= 1
  {
    if n == 0 then 1 else 2 * Pow2(n - 1)
  }

  lemma {:induction false} Pow2Monotone(a: nat, b: nat)
    requires a <= b
    ensures Pow2(a) <= Pow2(b)
  {
    if a < b { Pow2Monotone(a, b - 1); }
  }
}
