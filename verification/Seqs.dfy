/** Facts about finite sequences used by every other module. */
module Seqs {

  datatype Option<+T> = None | Some(value: T) {
    predicate IsFailure() { None? }
    function PropagateFailure<U>(): Option<U>
      requires None?
    {
      None
    }
    function Extract(): T
      requires Some?
    {
      value
    }
  }

  ghost predicate NoDup<T>(s: seq<T>) {
    forall i, j :: 0 <= i < j < |s| ==> s[i] != s[j]
  }

  function Last<T>(s: seq<T>): T
    requires |s| > 0
  {
    s[|s| - 1]
  }

  function Init<T>(s: seq<T>): seq<T>
    requires |s| > 0
  {
    s[..|s| - 1]
  }

  lemma InitLast<T(!new)>(s: seq<T>)
    requires |s| > 0
    ensures s == Init(s) + [Last(s)]
    ensures multiset(s) == multiset(Init(s)) + multiset{Last(s)}
  {
    assert s == Init(s) + [Last(s)];
  }

  /** The elements of `s` that do not occur in `gone`, in order: the source's copy-if-not-found loops. */
  function Without(s: seq<int>, gone: seq<int>): (r: seq<int>)
    ensures forall x :: x in r <==> x in s && x !in gone
  {
    if |s| == 0 then []
    else
      var x, rest := s[|s| - 1], Without(s[..|s| - 1], gone);
      if x in gone then rest else rest + [x]
  }

  lemma FrontAndLast(s: seq<int>)
    requires |s| > 0
    ensures s == s[..|s| - 1] + [s[|s| - 1]] && s[|s| - 1] in s
    ensures multiset(s) == multiset(s[..|s| - 1]) + multiset{s[|s| - 1]}
  {
    assert s == s[..|s| - 1] + [s[|s| - 1]];
  }

  lemma {:induction false} WithoutAppend(s: seq<int>, x: int, gone: seq<int>)
    ensures Without(s + [x], gone) == Without(s, gone) + (if x in gone then [] else [x])
  {
    assert (s + [x])[..|s|] == s;
  }

  lemma {:induction false} WithoutCount(s: seq<int>, gone: seq<int>)
    ensures forall x :: multiset(Without(s, gone))[x] == if x in gone then 0 else multiset(s)[x]
  {
    if |s| > 0 {
      FrontAndLast(s);
      WithoutCount(s[..|s| - 1], gone);
    }
  }

  lemma {:induction false} WithoutTwice(s: seq<int>, a: seq<int>, b: seq<int>)
    ensures Without(Without(s, a), b) == Without(s, a + b)
  {
    if |s| > 0 {
      FrontAndLast(s);
      WithoutTwice(s[..|s| - 1], a, b);
      if s[|s| - 1] !in a {
        WithoutAppend(Without(s[..|s| - 1], a), s[|s| - 1], b);
      }
    }
  }

  /** Only membership of the removed elements matters. */
  lemma {:induction false} WithoutSame(s: seq<int>, a: seq<int>, b: seq<int>)
    requires forall x :: x in s ==> (x in a <==> x in b)
    ensures Without(s, a) == Without(s, b)
  {
    if |s| > 0 {
      FrontAndLast(s);
      WithoutSame(s[..|s| - 1], a, b);
    }
  }

  lemma {:induction false} WithoutNone(s: seq<int>, gone: seq<int>)
    requires forall x :: x in s ==> x !in gone
    ensures Without(s, gone) == s
  {
    if |s| > 0 {
      FrontAndLast(s);
      WithoutNone(s[..|s| - 1], gone);
    }
  }

  lemma {:induction false} WithoutAll(s: seq<int>, gone: seq<int>)
    requires forall x :: x in s ==> x in gone
    ensures Without(s, gone) == []
  {
    if |s| > 0 {
      FrontAndLast(s);
      WithoutAll(s[..|s| - 1], gone);
    }
  }

  /** A sequence whose elements all have multiplicity one has no duplicates, and conversely. */
  lemma NoDupCount<T(!new)>(s: seq<T>)
    ensures NoDup(s) <==> forall x :: x in s ==> multiset(s)[x] == 1
  {
    if |s| > 0 {
      var p, z := Init(s), Last(s);
      NoDupCount(p);
      InitLast(s);
      if NoDup(s) {
        forall x | x in s ensures multiset(s)[x] == 1 {
          if x == z { assert x !in p; } else { assert x in p; }
        }
      } else {
        var i, j :| 0 <= i < j < |s| && s[i] == s[j];
        if j == |s| - 1 {
          assert z in p;
          assert multiset(s)[z] >= 2;
        } else {
          assert p[i] == p[j];
          assert !NoDup(p);
          var x :| x in p && multiset(p)[x] != 1;
          assert multiset(p)[x] > 1;
          assert multiset(s)[x] > 1;
        }
      }
    }
  }

  /** Removing a duplicate-free part of a duplicate-free sequence subtracts exactly that part. */
  lemma WithoutBag(s: seq<int>, gone: seq<int>)
    requires NoDup(s) && NoDup(gone)
    requires forall x :: x in gone ==> x in s
    ensures multiset(Without(s, gone)) + multiset(gone) == multiset(s)
    ensures |Without(s, gone)| + |gone| == |s|
    ensures NoDup(Without(s, gone))
  {
    WithoutCount(s, gone);
    NoDupCount(s);
    NoDupCount(gone);
    assert multiset(Without(s, gone)) + multiset(gone) == multiset(s);
    assert |multiset(Without(s, gone)) + multiset(gone)| == |multiset(s)|;
    NoDupCount(Without(s, gone));
  }

  lemma NoDupAppend<T(!new)>(s: seq<T>, t: seq<T>)
    ensures NoDup(s + t) <==> NoDup(s) && NoDup(t) && forall x :: x in s ==> x !in t
  {
    var u := s + t;
    assert forall i :: 0 <= i < |s| ==> u[i] == s[i];
    assert forall j :: 0 <= j < |t| ==> u[|s| + j] == t[j];
    if NoDup(u) {
      forall i, j | 0 <= i < j < |t| ensures t[i] != t[j] {
        assert u[|s| + i] != u[|s| + j];
      }
      forall i, j | 0 <= i < |s| && 0 <= j < |t| ensures s[i] != t[j] {
        assert u[i] != u[|s| + j];
      }
      forall i, j | 0 <= i < j < |s| ensures s[i] != s[j] {
        assert u[i] != u[j];
      }
    }
    if NoDup(s) && NoDup(t) && forall x :: x in s ==> x !in t {
      forall i, j | 0 <= i < j < |u| ensures u[i] != u[j] {
        if i < |s| {
          assert s[i] in s;
          if j >= |s| { assert t[j - |s|] in t; }
        }
      }
    }
  }

  /** Sequences that are permutations of each other agree on duplicates and length. */
  lemma PermNoDup<T(!new)>(s: seq<T>, t: seq<T>)
    requires multiset(s) == multiset(t)
    ensures |s| == |t|
    ensures NoDup(s) <==> NoDup(t)
    ensures forall x :: x in s <==> x in t
  {
    NoDupCount(s);
    NoDupCount(t);
    assert |multiset(s)| == |s| && |multiset(t)| == |t|;
    forall x ensures x in s <==> x in t {
      assert x in multiset(s) <==> x in multiset(t);
    }
  }
}
