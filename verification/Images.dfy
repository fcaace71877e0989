/** Images of sequences under a projection, and what their size says. */
module Images {

  /** The set of values a projection takes on a sequence. */
  function Image<S, T(==)>(f: S -> T, xs: seq<S>): set<T> {
    set k | 0 <= k < |xs| :: f(xs[k])
  }

  lemma ImageAppend<S, T>(f: S -> T, xs: seq<S>, x: S)
    ensures Image(f, xs + [x]) == Image(f, xs) + {f(x)}
  {
    var ys := xs + [x];
    forall v | v in Image(f, xs) + {f(x)}
      ensures v in Image(f, ys)
    {
      if v in Image(f, xs) {
        var k :| 0 <= k < |xs| && f(xs[k]) == v;
        assert f(ys[k]) == v;
      } else {
        assert f(ys[|xs|]) == v;
      }
    }
  }

  lemma InImage<S, T>(f: S -> T, xs: seq<S>, k: nat)
    requires k < |xs|
    ensures f(xs[k]) in Image(f, xs)
  {
  }

  lemma {:induction false} ImageSize<S, T>(f: S -> T, xs: seq<S>)
    ensures |Image(f, xs)| <= |xs|
  {
    if xs != [] {
      var n := |xs| - 1;
      ImageSize(f, xs[..n]);
      assert xs == xs[..n] + [xs[n]];
      ImageAppend(f, xs[..n], xs[n]);
    }
  }

  /** As many values as positions: no value is taken twice. */
  lemma {:induction false} FullImage<S, T>(f: S -> T, xs: seq<S>, i: nat, j: nat)
    requires |Image(f, xs)| == |xs| && i < j < |xs|
    ensures f(xs[i]) != f(xs[j])
  {
    var n := |xs| - 1;
    assert xs == xs[..n] + [xs[n]];
    ImageAppend(f, xs[..n], xs[n]);
    ImageSize(f, xs[..n]);
    if j < n {
      assert |Image(f, xs[..n])| == n;
      FullImage(f, xs[..n], i, j);
    } else {
      InImage(f, xs[..n], i);
      assert f(xs[n]) !in Image(f, xs[..n]);
    }
  }

  /** No value taken twice: as many values as positions. */
  lemma {:induction false} InjectiveImage<S, T>(f: S -> T, xs: seq<S>)
    requires forall i, j :: 0 <= i < j < |xs| ==> f(xs[i]) != f(xs[j])
    ensures |Image(f, xs)| == |xs|
  {
    if xs != [] {
      var n := |xs| - 1;
      InjectiveImage(f, xs[..n]);
      assert xs == xs[..n] + [xs[n]];
      ImageAppend(f, xs[..n], xs[n]);
      assert f(xs[n]) !in Image(f, xs[..n]);
    }
  }

  /** One value everywhere. */
  lemma ConstantImage<S, T>(f: S -> T, xs: seq<S>, v: T)
    requires xs != [] && forall k :: 0 <= k < |xs| ==> f(xs[k]) == v
    ensures Image(f, xs) == {v}
  {
    InImage(f, xs, 0);
  }

  lemma SingletonImage<S, T>(f: S -> T, xs: seq<S>, i: nat, j: nat)
    requires |Image(f, xs)| == 1 && i < |xs| && j < |xs|
    ensures f(xs[i]) == f(xs[j])
  {
    InImage(f, xs, i);
    InImage(f, xs, j);
    var v := f(xs[i]);
    assert |Image(f, xs) - {v}| == 0;
    assert Image(f, xs) == {v};
  }
}
