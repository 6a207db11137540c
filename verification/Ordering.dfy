/** The orders behind Python's `sorted`: code-point order on strings, a stable
    sort under any total preorder, and the sorted listing of a set of strings. */
module Ordering {

  datatype Option<+T> = None | Some(value: T)

  // ----- code-point order on strings -----

  predicate StrLe(a: string, b: string) {
    if a == [] then true
    else if b == [] then false
    else a[0] < b[0] || (a[0] == b[0] && StrLe(a[1..], b[1..]))
  }

  lemma StrLeTotal(a: string, b: string)
    ensures StrLe(a, b) || StrLe(b, a)
    ensures StrLe(a, a)
  {
  }

  lemma StrLeAntisymmetric(a: string, b: string)
    requires StrLe(a, b) && StrLe(b, a)
    ensures a == b
  {
    if a != [] {
      StrLeAntisymmetric(a[1..], b[1..]);
      assert a == [a[0]] + a[1..] && b == [b[0]] + b[1..];
    }
  }

  lemma StrLeTransitive(a: string, b: string, c: string)
    requires StrLe(a, b) && StrLe(b, c)
    ensures StrLe(a, c)
  {
    if a != [] && a[0] == b[0] == c[0] {
      StrLeTransitive(a[1..], b[1..], c[1..]);
    }
  }

  // ----- stable sort -----

  ghost predicate TotalPreorder<T(!new)>(le: (T, T) -> bool) {
    && (forall a, b :: le(a, b) || le(b, a))
    && (forall a, b, c :: le(a, b) && le(b, c) ==> le(a, c))
  }

  ghost predicate IsSorted<T>(s: seq<T>, le: (T, T) -> bool) {
    forall i, j :: 0 <= i < j < |s| ==> le(s[i], s[j])
  }

  /** Insert `x` before the first element it may precede; with SortBy this keeps
      the input order of equal keys. */
  function Insert<T>(x: T, s: seq<T>, le: (T, T) -> bool): seq<T> {
    if s == [] || le(x, s[0]) then [x] + s else [s[0]] + Insert(x, s[1..], le)
  }

  function SortBy<T>(s: seq<T>, le: (T, T) -> bool): seq<T> {
    if s == [] then [] else Insert(s[0], SortBy(s[1..], le), le)
  }

  lemma {:induction false} InsertPermutes<T>(x: T, s: seq<T>, le: (T, T) -> bool)
    ensures multiset(Insert(x, s, le)) == multiset{x} + multiset(s)
    ensures forall y :: y in Insert(x, s, le) <==> y == x || y in s
  {
    if s != [] && !le(x, s[0]) {
      InsertPermutes(x, s[1..], le);
      assert s == [s[0]] + s[1..];
    }
  }

  lemma {:induction false} InsertSorts<T(!new)>(x: T, s: seq<T>, le: (T, T) -> bool)
    requires TotalPreorder(le) && IsSorted(s, le)
    ensures IsSorted(Insert(x, s, le), le)
  {
    if s != [] {
      if le(x, s[0]) {
        forall i | 0 <= i < |s| ensures le(x, s[i]) {
          assert i == 0 || le(s[0], s[i]);
        }
      } else {
        var rest := Insert(x, s[1..], le);
        InsertSorts(x, s[1..], le);
        InsertPermutes(x, s[1..], le);
        forall i | 0 <= i < |rest| ensures le(s[0], rest[i]) {
          assert rest[i] in rest;
        }
      }
    }
  }

  lemma {:induction false} SortKeeps<T(!new)>(s: seq<T>, le: (T, T) -> bool)
    ensures multiset(SortBy(s, le)) == multiset(s)
    ensures |SortBy(s, le)| == |s|
    ensures TotalPreorder(le) ==> IsSorted(SortBy(s, le), le)
  {
    if s == [] {
    } else {
      SortKeeps(s[1..], le);
      InsertPermutes(s[0], SortBy(s[1..], le), le);
      if TotalPreorder(le) {
        InsertSorts(s[0], SortBy(s[1..], le), le);
      }
      assert s == [s[0]] + s[1..];
    }
    assert |multiset(SortBy(s, le))| == |multiset(s)|;
  }

  lemma InMultiset<T>(s: seq<T>, t: seq<T>)
    requires multiset(s) == multiset(t)
    ensures |s| == |t|
    ensures forall x :: x in s <==> x in t
  {
    assert |multiset(s)| == |multiset(t)|;
    forall x ensures x in s <==> x in t {
      assert x in s <==> x in multiset(s);
      assert x in t <==> x in multiset(t);
    }
  }

  /** Two listings of a multiset: the head of one found in, and taken out of, the other. */
  lemma PickOut<T>(s: seq<T>, t: seq<T>) returns (i: nat)
    requires s != [] && multiset(s) == multiset(t)
    ensures i < |t| && t[i] == s[0]
    ensures t == t[..i] + [s[0]] + t[i + 1..]
    ensures multiset(s[1..]) == multiset(t[..i] + t[i + 1..])
  {
    InMultiset(s, t);
    assert s[0] in t;
    i :| 0 <= i < |t| && t[i] == s[0];
    var l, r := t[..i], t[i + 1..];
    assert t == (l + [s[0]]) + r;
    assert multiset((l + [s[0]]) + r) == multiset(l) + multiset{s[0]} + multiset(r);
    assert multiset(l + r) == multiset(l) + multiset(r);
    assert multiset([s[0]] + s[1..]) == multiset{s[0]} + multiset(s[1..]);
    assert s == [s[0]] + s[1..];
    SumCancels(s[0], multiset(s[1..]), multiset(l + r));
  }

  lemma {:induction false} DistinctCount<T>(s: seq<T>, x: T)
    requires forall i, j :: 0 <= i < j < |s| ==> s[i] != s[j]
    ensures multiset(s)[x] == if x in s then 1 else 0
  {
    if s != [] {
      DistinctCount(s[1..], x);
      assert s == [s[0]] + s[1..];
      assert multiset([s[0]] + s[1..]) == multiset{s[0]} + multiset(s[1..]);
    }
  }

  lemma SumCancels<T>(x: T, a: multiset<T>, b: multiset<T>)
    requires multiset{x} + a == multiset{x} + b
    ensures a == b
  {
    assert a == multiset{x} + a - multiset{x};
    assert b == multiset{x} + b - multiset{x};
  }

  lemma HeadsAgree<T(!new)>(a: seq<T>, b: seq<T>, le: (T, T) -> bool)
    requires a != [] && b != [] && a[0] in b && b[0] in a
    requires IsSorted(a, le) && IsSorted(b, le)
    requires forall x, y :: x in a && y in a && le(x, y) && le(y, x) ==> x == y
    ensures a[0] == b[0]
  {
    var i :| 0 <= i < |b| && b[i] == a[0];
    var j :| 0 <= j < |a| && a[j] == b[0];
    if i != 0 && j != 0 {
      assert le(a[0], a[j]) && le(b[0], b[i]);
    }
  }

  lemma TailsAgree<T>(a: seq<T>, b: seq<T>)
    requires a != [] && b != [] && a[0] == b[0] && multiset(a) == multiset(b)
    ensures multiset(a[1..]) == multiset(b[1..])
  {
    assert a == [a[0]] + a[1..] && b == [b[0]] + b[1..];
    assert multiset(a[1..]) == multiset(a) - multiset{a[0]};
    assert multiset(b[1..]) == multiset(b) - multiset{b[0]};
  }

  /** Where equal keys mean equal elements, a multiset has one sorted listing. */
  lemma {:induction false} SortedUnique<T(!new)>(a: seq<T>, b: seq<T>, le: (T, T) -> bool)
    requires multiset(a) == multiset(b)
    requires IsSorted(a, le) && IsSorted(b, le)
    requires forall x, y :: x in a && y in a && le(x, y) && le(y, x) ==> x == y
    ensures a == b
  {
    InMultiset(a, b);
    if a != [] {
      assert a[0] in b && b[0] in a;
      HeadsAgree(a, b, le);
      TailsAgree(a, b);
      assert forall x :: x in a[1..] ==> x in a;
      SortedUnique(a[1..], b[1..], le);
      assert a == [a[0]] + a[1..] && b == [b[0]] + b[1..];
    }
  }

  lemma SortUnique<T(!new)>(s: seq<T>, t: seq<T>, le: (T, T) -> bool)
    requires TotalPreorder(le) && multiset(s) == multiset(t)
    requires forall x, y :: x in s && y in s && le(x, y) && le(y, x) ==> x == y
    ensures SortBy(s, le) == SortBy(t, le)
  {
    SortKeeps(s, le);
    SortKeeps(t, le);
    InMultiset(SortBy(s, le), s);
    SortedUnique(SortBy(s, le), SortBy(t, le), le);
  }

  // ----- sorted(set) -----

  ghost predicate StrictlySorted(s: seq<string>) {
    forall i, j :: 0 <= i < j < |s| ==> StrLe(s[i], s[j]) && s[i] != s[j]
  }

  lemma {:induction false} LeastExists(s: set<string>) returns (m: string)
    requires s != {}
    ensures m in s && forall y :: y in s ==> StrLe(m, y)
  {
    var x :| x in s;
    StrLeTotal(x, x);
    m := x;
    if s - {x} != {} {
      var least := LeastExists(s - {x});
      StrLeTotal(least, x);
      m := if StrLe(least, x) then least else x;
      forall y | y in s ensures StrLe(m, y) {
        if y != x { StrLeTransitive(m, least, y); }
      }
    } else {
      assert s == {x};
    }
  }

  lemma LeastUnique(s: set<string>, a: string, b: string)
    requires a in s && forall y :: y in s ==> StrLe(a, y)
    requires b in s && forall y :: y in s ==> StrLe(b, y)
    ensures a == b
  {
    StrLeAntisymmetric(a, b);
  }

  lemma LeastDetermined(s: set<string>)
    requires s != {}
    ensures exists m :: m in s && forall y :: y in s ==> StrLe(m, y)
    ensures forall a, b ::
              a in s && b in s && (forall y :: y in s ==> StrLe(a, y)) && (forall y :: y in s ==> StrLe(b, y)) ==>
              a == b
  {
    var m := LeastExists(s);
    forall a, b | a in s && b in s && (forall y :: y in s ==> StrLe(a, y)) && (forall y :: y in s ==> StrLe(b, y))
      ensures a == b
    {
      LeastUnique(s, a, b);
    }
  }

  function LeastOf(s: set<string>): (m: string)
    requires s != {}
    ensures m in s && forall y :: y in s ==> StrLe(m, y)
  {
    LeastDetermined(s);
    hide StrLe;
    var m :| m in s && forall y :: y in s ==> StrLe(m, y);
    m
  }

  /** The strictly increasing listing of a set of strings. */
  function SortedSet(s: set<string>): (r: seq<string>)
    ensures StrictlySorted(r)
    ensures forall x :: x in r <==> x in s
    ensures |r| == |s|
  {
    if s == {} then []
    else
      var m := LeastOf(s);
      [m] + SortedSet(s - {m})
  }

  lemma LeastHeadsAgree(a: seq<string>, b: seq<string>)
    requires a != [] && b != [] && a[0] in b && b[0] in a
    requires StrictlySorted(a) && StrictlySorted(b)
    ensures a[0] == b[0]
  {
    StrLeTotal(a[0], a[0]);
    StrLeTotal(b[0], b[0]);
    StrLeAntisymmetric(a[0], b[0]);
  }

  lemma {:induction false} StrictlySortedUnique(a: seq<string>, b: seq<string>)
    requires StrictlySorted(a) && StrictlySorted(b)
    requires forall x :: x in a <==> x in b
    ensures a == b
  {
    assert a != [] ==> a[0] in b;
    assert b != [] ==> b[0] in a;
    if a != [] {
      assert a[0] in b && b[0] in a;
      LeastHeadsAgree(a, b);
      forall x ensures x in a[1..] <==> x in b[1..] {
        assert x in a <==> x == a[0] || x in a[1..];
        assert x in b <==> x == b[0] || x in b[1..];
      }
      StrictlySortedUnique(a[1..], b[1..]);
    }
  }

  // ----- counting -----

  /** How many elements satisfy `p`. */
  function CountIf<T>(s: seq<T>, p: T -> bool): nat {
    if s == [] then 0 else (if p(s[0]) then 1 else 0) + CountIf(s[1..], p)
  }
}
