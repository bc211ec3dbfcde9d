/** Facts about sequences and sets shared by the components. */
module Seqs {

  predicate NoDup<T(==)>(xs: seq<T>) {
    forall i, j | 0 <= i < j < |xs| :: xs[i] != xs[j]
  }

  /** xs lists the members, each once. */
  predicate Enumerates<T(==)>(xs: seq<T>, members: set<T>) {
    NoDup(xs) && (forall x | x in xs :: x in members) && (forall x | x in members :: x in xs)
  }

  lemma EnumeratesSnoc<T>(xs: seq<T>, members: set<T>, x: T)
    requires Enumerates(xs, members) && x !in members
    ensures Enumerates(xs + [x], members + {x})
  {
  }

  lemma NoDupConcat<T>(a: seq<T>, b: seq<T>)
    ensures NoDup(a + b) <==> NoDup(a) && NoDup(b) && forall x | x in a :: x !in b
  {
    var ab := a + b;
    assert forall i | 0 <= i < |a| :: ab[i] == a[i];
    assert forall i | 0 <= i < |b| :: ab[|a| + i] == b[i];
    if NoDup(ab) {
      forall i, j | 0 <= i < |a| && 0 <= j < |b| ensures a[i] != b[j] {
        assert ab[i] != ab[|a| + j];
      }
      forall i, j | 0 <= i < j < |b| ensures b[i] != b[j] {
        assert ab[|a| + i] != ab[|a| + j];
      }
    }
    if NoDup(a) && NoDup(b) && forall x | x in a :: x !in b {
      forall i, j | 0 <= i < j < |ab| ensures ab[i] != ab[j] {
        if i < |a| <= j {
          assert a[i] in a && ab[j] == b[j - |a|];
        }
      }
    }
  }

  lemma {:induction false} CardinalityOfSeq<T>(xs: seq<T>)
    ensures |set x | x in xs| <= |xs|
    ensures NoDup(xs) ==> |set x | x in xs| == |xs|
  {
    if xs != [] {
      var k := |xs| - 1;
      CardinalityOfSeq(xs[..k]);
      assert (set x | x in xs) == (set x | x in xs[..k]) + {xs[k]};
    }
  }

  lemma SubsetIsSmaller<T>(a: set<T>, b: set<T>)
    requires a <= b
    ensures |a| <= |b|
  {
    assert |b - a| == |b| - |a|;
  }

  function Sum<T>(xs: seq<T>, weight: T -> nat): nat {
    if xs == [] then 0 else weight(xs[0]) + Sum(xs[1..], weight)
  }

  lemma {:induction false} SumConcat<T>(xs: seq<T>, ys: seq<T>, weight: T -> nat)
    ensures Sum(xs + ys, weight) == Sum(xs, weight) + Sum(ys, weight)
  {
    if xs == [] {
      assert xs + ys == ys;
    } else {
      assert (xs + ys)[1..] == xs[1..] + ys;
      SumConcat(xs[1..], ys, weight);
    }
  }

  lemma SumSnoc<T>(xs: seq<T>, x: T, weight: T -> nat)
    ensures Sum(xs + [x], weight) == Sum(xs, weight) + weight(x)
  {
    SumConcat(xs, [x], weight);
    assert Sum([x], weight) == weight(x) + Sum([x][1..], weight);
  }

  lemma {:induction false} SumUpdate<T>(xs: seq<T>, i: nat, x: T, weight: T -> nat)
    requires i < |xs|
    ensures Sum(xs[i := x], weight) + weight(xs[i]) == Sum(xs, weight) + weight(x)
  {
    if i == 0 {
      assert xs[0 := x][1..] == xs[1..];
    } else {
      assert xs[i := x][1..] == xs[1..][i - 1 := x];
      SumUpdate(xs[1..], i - 1, x, weight);
    }
  }

  lemma SumWithout<T>(xs: seq<T>, k: nat, weight: T -> nat)
    requires k < |xs|
    ensures Sum(xs[..k] + xs[k + 1..], weight) + weight(xs[k]) == Sum(xs, weight)
  {
    assert xs == xs[..k] + ([xs[k]] + xs[k + 1..]);
    SumConcat(xs[..k], [xs[k]] + xs[k + 1..], weight);
    SumConcat([xs[k]], xs[k + 1..], weight);
    SumConcat(xs[..k], xs[k + 1..], weight);
    assert [xs[k]][1..] == [];
  }
}
