/** Finite sums of real-valued functions, independent of the order of the summands. */
module Sums {

  /** The sum of f over S. */
  ghost function Sum<T(!new)>(S: set<T>, f: T -> real): real
    decreases |S|
  {
    if S == {} then 0.0
    else
      var x :| x in S;
      f(x) + Sum(S - {x}, f)
  }

  /** Any element may be split off. */
  lemma {:induction false} SumRemove<T(!new)>(S: set<T>, f: T -> real, y: T)
    requires y in S
    ensures Sum(S, f) == f(y) + Sum(S - {y}, f)
    decreases |S|
  {
    var x :| x in S && Sum(S, f) == f(x) + Sum(S - {x}, f);
    if x != y {
      SumRemove(S - {x}, f, y);
      SumRemove(S - {y}, f, x);
      assert S - {x} - {y} == S - {y} - {x};
    }
  }

  lemma SumAdd<T(!new)>(S: set<T>, f: T -> real, y: T)
    requires y !in S
    ensures Sum(S + {y}, f) == Sum(S, f) + f(y)
  {
    SumRemove(S + {y}, f, y);
    assert S + {y} - {y} == S;
  }

  lemma {:induction false} SumSame<T(!new)>(S: set<T>, f: T -> real, g: T -> real)
    requires forall x :: x in S ==> f(x) == g(x)
    ensures Sum(S, f) == Sum(S, g)
    decreases |S|
  {
    if S != {} {
      var x :| x in S;
      SumSame(S - {x}, f, g);
      SumRemove(S, f, x);
      SumRemove(S, g, x);
    }
  }

  lemma {:induction false} SumPlus<T(!new)>(S: set<T>, f: T -> real, g: T -> real, h: T -> real)
    requires forall x :: x in S ==> h(x) == f(x) + g(x)
    ensures Sum(S, h) == Sum(S, f) + Sum(S, g)
    decreases |S|
  {
    if S != {} {
      var x :| x in S;
      SumPlus(S - {x}, f, g, h);
      SumRemove(S, f, x);
      SumRemove(S, g, x);
      SumRemove(S, h, x);
    }
  }

  ghost function Repeat(n: nat, k: real): real {
    if n == 0 then 0.0 else Repeat(n - 1, k) + k
  }

  lemma {:induction false} RepeatIsProduct(n: nat, k: real)
    ensures Repeat(n, k) == n as real * k
  {
    if n > 0 {
      RepeatIsProduct(n - 1, k);
      Distribute((n - 1) as real, 1.0, k);
      assert (n - 1) as real + 1.0 == n as real;
    }
  }

  lemma Distribute(a: real, b: real, k: real)
    ensures (a + b) * k == a * k + b * k
  {
  }

  /** A summand that is a constant on part P of S and zero elsewhere. */
  lemma {:induction false} SumConst<T(!new)>(S: set<T>, P: set<T>, f: T -> real, k: real)
    requires P <= S
    requires forall x :: x in S ==> f(x) == if x in P then k else 0.0
    ensures Sum(S, f) == Repeat(|P|, k)
    decreases |S|
  {
    if S != {} {
      var x :| x in S;
      SumRemove(S, f, x);
      SumConst(S - {x}, P - {x}, f, k);
      if x in P {
        assert |P| == |P - {x}| + 1;
      } else {
        assert P - {x} == P;
      }
    } else {
      assert P == {};
    }
  }

  /** A function that vanishes outside P has the same sum over P. */
  lemma {:induction false} SumRestrict<T(!new)>(S: set<T>, P: set<T>, f: T -> real)
    requires P <= S
    requires forall x :: x in S && x !in P ==> f(x) == 0.0
    ensures Sum(S, f) == Sum(P, f)
    decreases |S|
  {
    if S - P != {} {
      var x :| x in S - P;
      SumRemove(S, f, x);
      SumRestrict(S - {x}, P, f);
    } else {
      assert S == P;
    }
  }

  lemma {:induction false} SumSplit<T(!new)>(S: set<T>, P: set<T>, f: T -> real)
    requires P <= S
    ensures Sum(S, f) == Sum(P, f) + Sum(S - P, f)
    decreases |P|
  {
    if P != {} {
      var x :| x in P;
      SumRemove(S, f, x);
      SumRemove(P, f, x);
      SumSplit(S - {x}, P - {x}, f);
      assert S - {x} - (P - {x}) == S - P;
    } else {
      assert S - P == S;
    }
  }

  /** Summing rows first or columns first gives the same total. */
  lemma {:induction false} SumSwap<T(!new)>(S: set<T>, R: set<T>, a: T -> (T -> real), b: T -> (T -> real), rows: T -> real, cols: T -> real)
    requires forall i :: i in S ==> rows(i) == Sum(R, a(i))
    requires forall j :: j in R ==> cols(j) == Sum(S, b(j))
    requires forall i, j :: i in S && j in R ==> a(i)(j) == b(j)(i)
    ensures Sum(S, rows) == Sum(R, cols)
    decreases |S|
  {
    if S == {} {
      SumRestrict(R, {}, cols);
    } else {
      var x :| x in S;
      var S' := S - {x};
      var cols' := j => Sum(S', b(j));
      SumSwap(S', R, a, b, rows, cols');
      SumRemove(S, rows, x);
      forall j | j in R ensures cols(j) == a(x)(j) + cols'(j) {
        SumRemove(S, b(j), x);
      }
      SumPlus(R, a(x), cols', cols);
    }
  }

  ghost predicate Additive(h: real -> real) {
    h(0.0) == 0.0 && forall a: real, b: real :: h(a + b) == h(a) + h(b)
  }

  lemma {:induction false} SumMap<T(!new)>(S: set<T>, f: T -> real, h: real -> real, g: T -> real)
    requires Additive(h)
    requires forall x :: x in S ==> g(x) == h(f(x))
    ensures Sum(S, g) == h(Sum(S, f))
    decreases |S|
  {
    if S != {} {
      var x :| x in S;
      SumMap(S - {x}, f, h, g);
      SumRemove(S, f, x);
      SumRemove(S, g, x);
    }
  }

  lemma SumDivide<T(!new)>(S: set<T>, f: T -> real, n: real, g: T -> real)
    requires n != 0.0
    requires forall x :: x in S ==> g(x) == f(x) / n
    ensures Sum(S, g) == Sum(S, f) / n
  {
    var h := (a: real) => a / n;
    forall a: real, b: real ensures h(a + b) == h(a) + h(b) {
      DivideSum(a, b, n);
    }
    SumMap(S, f, h, g);
  }

  lemma DivideSum(a: real, b: real, n: real)
    requires n != 0.0
    ensures (a + b) / n == a / n + b / n
  {
  }

  lemma {:induction false} SumNonNegative<T(!new)>(S: set<T>, f: T -> real)
    requires forall x :: x in S ==> f(x) >= 0.0
    ensures Sum(S, f) >= 0.0
    decreases |S|
  {
    if S != {} {
      var x :| x in S;
      SumNonNegative(S - {x}, f);
      SumRemove(S, f, x);
    }
  }
}
