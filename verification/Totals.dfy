/** Totals over a sequence of threads or tasks, with the laws that say how a total changes when
    one element changes; and subsequences. */
module Totals {

  /** The sum of `f` over all elements of `ws`. */
  ghost function Sum<P>(ws: seq<P>, f: P -> nat): nat {
    if ws == [] then 0 else Sum(ws[..|ws| - 1], f) + f(ws[|ws| - 1])
  }

  lemma {:induction false} SumUpdate<P>(ws: seq<P>, i: nat, w: P, f: P -> nat)
    requires i < |ws|
    ensures Sum(ws[i := w], f) + f(ws[i]) == Sum(ws, f) + f(w)
    ensures f(ws[i]) <= Sum(ws, f)
  {
    var n := |ws| - 1;
    var us := ws[i := w];
    if i == n {
      assert us[..n] == ws[..n];
    } else {
      assert us[..n] == ws[..n][i := w];
      SumUpdate(ws[..n], i, w, f);
    }
  }

  lemma {:induction false} SumConcat<P>(xs: seq<P>, ys: seq<P>, f: P -> nat)
    ensures Sum(xs + ys, f) == Sum(xs, f) + Sum(ys, f)
  {
    if ys == [] {
      assert xs + ys == xs;
    } else {
      var n := |ys| - 1;
      assert (xs + ys)[..|xs| + n] == xs + ys[..n];
      SumConcat(xs, ys[..n], f);
    }
  }

  lemma SumOne<P>(x: P, f: P -> nat)
    ensures Sum([x], f) == f(x)
  {
    assert [x][..0] == [];
  }

  lemma SumHead<P>(xs: seq<P>, f: P -> nat)
    requires xs != []
    ensures Sum(xs, f) == f(xs[0]) + Sum(xs[1..], f)
  {
    assert xs == [xs[0]] + xs[1..];
    SumConcat([xs[0]], xs[1..], f);
    SumOne(xs[0], f);
  }

  /** A positive sum has a positive contributor. */
  lemma {:induction false} SumPositive<P>(ws: seq<P>, f: P -> nat) returns (i: nat)
    requires Sum(ws, f) > 0
    ensures i < |ws| && f(ws[i]) > 0
  {
    var n := |ws| - 1;
    if f(ws[n]) > 0 {
      i := n;
    } else {
      i := SumPositive(ws[..n], f);
    }
  }

  lemma {:induction false} SumZero<P>(ws: seq<P>, f: P -> nat)
    requires forall i :: 0 <= i < |ws| ==> f(ws[i]) == 0
    ensures Sum(ws, f) == 0
  {
    if ws == [] {
    } else {
      SumZero(ws[..|ws| - 1], f);
    }
  }

  lemma {:induction false} SumBelow<P>(ws: seq<P>, f: P -> nat, g: P -> nat, h: P -> nat)
    requires forall i :: 0 <= i < |ws| ==> f(ws[i]) + g(ws[i]) <= h(ws[i])
    ensures Sum(ws, f) + Sum(ws, g) <= Sum(ws, h)
  {
    if ws == [] {
    } else {
      SumBelow(ws[..|ws| - 1], f, g, h);
    }
  }

  lemma {:induction false} SumSame<P>(ws: seq<P>, f: P -> nat, g: P -> nat)
    requires forall i :: 0 <= i < |ws| ==> f(ws[i]) == g(ws[i])
    ensures Sum(ws, f) == Sum(ws, g)
  {
    if ws == [] {
    } else {
      SumSame(ws[..|ws| - 1], f, g);
    }
  }

  /** Two elements contribute at most the sum together. */
  lemma {:induction false} SumOfTwo<P>(ws: seq<P>, i: nat, j: nat, f: P -> nat)
    requires i < j < |ws|
    ensures f(ws[i]) + f(ws[j]) <= Sum(ws, f)
  {
    var n := |ws| - 1;
    if j == n {
      SumUpdate(ws[..n], i, ws[i], f);
    } else {
      SumOfTwo(ws[..n], i, j, f);
    }
  }

  /** `xs` is obtained from `ys` by deleting elements. */
  ghost predicate Subsequence<T>(xs: seq<T>, ys: seq<T>) {
    if xs == [] then true
    else if ys == [] then false
    else if xs[|xs| - 1] == ys[|ys| - 1] && Subsequence(xs[..|xs| - 1], ys[..|ys| - 1]) then true
    else Subsequence(xs, ys[..|ys| - 1])
  }

  /** Appending the same tail to both sides keeps the relation. */
  lemma {:induction false} SubsequenceAppend<T>(xs: seq<T>, ys: seq<T>, zs: seq<T>)
    requires Subsequence(xs, ys)
    ensures Subsequence(xs + zs, ys + zs)
  {
    if zs == [] {
      assert xs + zs == xs && ys + zs == ys;
    } else {
      var n := |zs| - 1;
      SubsequenceAppend(xs, ys, zs[..n]);
      assert (xs + zs)[..|xs| + n] == xs + zs[..n];
      assert (ys + zs)[..|ys| + n] == ys + zs[..n];
    }
  }

  /** Deleting one element keeps the relation. */
  lemma {:induction false} SubsequenceDelete<T>(xs: seq<T>, k: nat, ys: seq<T>)
    requires k < |xs| && Subsequence(xs, ys)
    ensures Subsequence(xs[..k] + xs[k + 1..], ys)
    decreases |ys|
  {
    var n := |xs| - 1;
    var m := |ys| - 1;
    var us := xs[..k] + xs[k + 1..];
    if xs[n] == ys[m] && Subsequence(xs[..n], ys[..m]) {
      if k == n {
        assert us == xs[..n];
        SubsequenceDrop(xs[..n], ys[..m], ys[m]);
        assert ys[..m] + [ys[m]] == ys;
      } else {
        SubsequenceDelete(xs[..n], k, ys[..m]);
        assert us[..n - 1] == xs[..n][..k] + xs[..n][k + 1..];
      }
    } else {
      SubsequenceDelete(xs, k, ys[..m]);
      SubsequenceDrop(us, ys[..m], ys[m]);
      assert ys[..m] + [ys[m]] == ys;
    }
  }

  lemma SubsequenceDrop<T>(xs: seq<T>, ys: seq<T>, y: T)
    requires Subsequence(xs, ys)
    ensures Subsequence(xs, ys + [y])
  {
    assert (ys + [y])[..|ys|] == ys;
  }

  /** The relation is transitive. */
  lemma {:induction false} SubsequenceTrans<T>(xs: seq<T>, ys: seq<T>, zs: seq<T>)
    requires Subsequence(xs, ys) && Subsequence(ys, zs)
    ensures Subsequence(xs, zs)
    decreases |zs|
  {
    if xs == [] {
    } else {
      var n, m, k := |xs| - 1, |ys| - 1, |zs| - 1;
      if ys[m] == zs[k] && Subsequence(ys[..m], zs[..k]) {
        if xs[n] == ys[m] && Subsequence(xs[..n], ys[..m]) {
          SubsequenceTrans(xs[..n], ys[..m], zs[..k]);
        } else {
          SubsequenceTrans(xs, ys[..m], zs[..k]);
        }
      } else {
        SubsequenceTrans(xs, ys, zs[..k]);
      }
    }
  }

  /** A longer right side keeps the relation; a shorter left side does too. */
  lemma {:induction false} SubsequenceGrow<T>(xs: seq<T>, ys: seq<T>, zs: seq<T>)
    requires Subsequence(xs, ys)
    ensures Subsequence(xs, ys + zs)
  {
    if zs == [] {
      assert ys + zs == ys;
    } else {
      var n := |zs| - 1;
      SubsequenceGrow(xs, ys, zs[..n]);
      SubsequenceDrop(xs, ys + zs[..n], zs[n]);
      assert ys + zs == (ys + zs[..n]) + [zs[n]];
    }
  }

  lemma {:induction false} SubsequencePrefix<T>(xs: seq<T>, zs: seq<T>, ys: seq<T>)
    requires Subsequence(xs + zs, ys)
    ensures Subsequence(xs, ys)
  {
    if zs == [] {
      assert xs + zs == xs;
    } else {
      var n := |zs| - 1;
      SubsequenceDelete(xs + zs, |xs| + n, ys);
      assert (xs + zs)[..|xs| + n] + (xs + zs)[|xs| + n + 1..] == xs + zs[..n];
      SubsequencePrefix(xs, zs[..n], ys);
    }
  }
}
