/** Small facts about sequences and the multisets of their elements. */
module Sequences {

  datatype Option<+T> = None | Some(value: T)

  function Last<T>(q: seq<T>): T
    requires q != []
  {
    q[|q| - 1]
  }

  function DropLast<T>(q: seq<T>): seq<T>
    requires q != []
  {
    q[..|q| - 1]
  }

  /** q with position i taken out, everything else in order. */
  function Without<T>(q: seq<T>, i: nat): seq<T>
    requires i < |q|
  {
    q[..i] + q[i + 1..]
  }

  lemma WithoutMiddle<T>(a: seq<T>, e: T, b: seq<T>)
    ensures var q := a + [e] + b;
            && q[|a|] == e
            && (forall j | 0 <= j < |a| :: q[j] == a[j])
            && Without(q, |a|) == a + b
  {
  }

  lemma WithoutInRight<T>(a: seq<T>, b: seq<T>, i: nat)
    requires i < |b|
    ensures (a + b)[|a| + i] == b[i]
    ensures Without(a + b, |a| + i) == a + Without(b, i)
  {
    assert (a + b)[..|a| + i] == a + b[..i];
    assert (a + b)[|a| + i + 1..] == b[i + 1..];
  }

  lemma WithoutMembers<T>(q: seq<T>, i: nat)
    requires i < |q|
    ensures forall e | e in Without(q, i) :: e in q
  {
  }

  /** array_remove of clh/array.h: the last element moves into position i. */
  function SwapRemove<T>(q: seq<T>, i: nat): seq<T>
    requires i < |q|
  {
    q[i := Last(q)][..|q| - 1]
  }

  lemma SwapRemoveMembers<T>(q: seq<T>, i: nat)
    requires i < |q|
    ensures forall e | e in SwapRemove(q, i) :: e in q
    ensures forall e | e in q :: e in SwapRemove(q, i) || e == q[i]
  {
    forall e | e in SwapRemove(q, i)
      ensures e in q
    {
      var j :| 0 <= j < |q| - 1 && SwapRemove(q, i)[j] == e;
      assert e == if j == i then Last(q) else q[j];
    }
    forall e | e in q
      ensures e in SwapRemove(q, i) || e == q[i]
    {
      var j :| 0 <= j < |q| && q[j] == e;
      if j != i {
        assert SwapRemove(q, i)[if j == |q| - 1 then i else j] == e;
      }
    }
  }

  /** The multiset union of f(e) over the elements e of q. */
  ghost function Sum<T, U>(q: seq<T>, f: T -> multiset<U>): multiset<U> {
    if q == [] then multiset{} else f(q[0]) + Sum(q[1..], f)
  }

  lemma {:induction false} SumConcat<T, U>(a: seq<T>, b: seq<T>, f: T -> multiset<U>)
    ensures Sum(a + b, f) == Sum(a, f) + Sum(b, f)
  {
    if a == [] {
      assert a + b == b;
    } else {
      assert (a + b)[1..] == a[1..] + b;
      calc {
        Sum(a + b, f);
        f(a[0]) + Sum(a[1..] + b, f);
        { SumConcat(a[1..], b, f); }
        f(a[0]) + (Sum(a[1..], f) + Sum(b, f));
        (f(a[0]) + Sum(a[1..], f)) + Sum(b, f);
        Sum(a, f) + Sum(b, f);
      }
    }
  }

  lemma SumAppend<T, U>(q: seq<T>, e: T, f: T -> multiset<U>)
    ensures Sum(q + [e], f) == Sum(q, f) + f(e)
  {
    assert [e][1..] == [];
    SumConcat(q, [e], f);
  }

  lemma SumWithout<T, U>(q: seq<T>, i: nat, f: T -> multiset<U>)
    requires i < |q|
    ensures Sum(q, f) == Sum(Without(q, i), f) + f(q[i])
  {
    assert q == (q[..i] + [q[i]]) + q[i + 1..];
    SumConcat(q[..i] + [q[i]], q[i + 1..], f);
    SumAppend(q[..i], q[i], f);
    SumConcat(q[..i], q[i + 1..], f);
  }

  lemma SumTail<T, U>(q: seq<T>, f: T -> multiset<U>)
    requires q != []
    ensures Sum(q, f) == Sum(q[1..], f) + f(q[0])
  {
  }

  lemma SumDropLast<T, U>(q: seq<T>, f: T -> multiset<U>)
    requires q != []
    ensures Sum(q, f) == Sum(DropLast(q), f) + f(Last(q))
  {
    assert q == DropLast(q) + [Last(q)];
    SumAppend(DropLast(q), Last(q), f);
  }

  lemma SumUpdate<T, U>(q: seq<T>, i: nat, e: T, f: T -> multiset<U>)
    requires i < |q|
    ensures Sum(q[i := e], f) + f(q[i]) == Sum(q, f) + f(e)
    ensures forall u :: Sum(q[i := e], f)[u] + f(q[i])[u] == Sum(q, f)[u] + f(e)[u]
  {
    SumWithout(q, i, f);
    SumWithout(q[i := e], i, f);
    assert Without(q[i := e], i) == Without(q, i);
  }

  lemma SumSwapRemove<T, U>(q: seq<T>, i: nat, f: T -> multiset<U>)
    requires i < |q|
    ensures Sum(q, f) == Sum(SwapRemove(q, i), f) + f(q[i])
  {
    SumDropLast(q, f);
    if i < |q| - 1 {
      assert SwapRemove(q, i) == DropLast(q)[i := Last(q)];
      SumUpdate(DropLast(q), i, Last(q), f);
    } else {
      assert SwapRemove(q, i) == DropLast(q);
    }
  }

  lemma SumHas<T, U>(q: seq<T>, i: nat, f: T -> multiset<U>)
    requires i < |q|
    ensures f(q[i]) <= Sum(q, f)
  {
    SumWithout(q, i, f);
  }

  lemma {:induction false} SumWitness<T, U>(q: seq<T>, f: T -> multiset<U>, u: U) returns (i: nat)
    requires u in Sum(q, f)
    ensures i < |q| && u in f(q[i])
  {
    if u in f(q[0]) {
      i := 0;
    } else {
      i := SumWitness(q[1..], f, u);
      i := i + 1;
    }
  }
}
