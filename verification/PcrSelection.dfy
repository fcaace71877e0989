/** Decoding of the bitmap in a TPMS_PCR_SELECTION. */
module PcrSelection {
  import opened Symbols
  import opened Octets

  /** selected & (1 << k), for an octet read as an integer. */
  predicate Bit(selected: Octet, k: nat) {
    (selected as int / PowerAt(k)) % 2 == 1
  }

  function PowerAt(k: nat): (p: nat)
    ensures p >= 1
  {
    if k == 0 then 1 else 2 * PowerAt(k - 1)
  }

  /** PCR i is selected by the bitmap. */
  predicate Selected(bitmap: seq<Octet>, i: int) {
    0 <= i < 8 * |bitmap| && Bit(bitmap[i / 8], i % 8)
  }

  ghost predicate Increasing(s: seq<int>) {
    forall i, j :: 0 <= i < j < |s| ==> s[i] < s[j]
  }

  /** A list holds exactly the selected PCRs below a bound, in increasing order. */
  ghost predicate Lists(indices: seq<int>, bitmap: seq<Octet>, bound: int) {
    && Increasing(indices)
    && (forall x :: x in indices <==> x < bound && Selected(bitmap, x))
  }

  lemma ListsNext(indices: seq<int>, bitmap: seq<Octet>, bound: int)
    requires Lists(indices, bitmap, bound)
    ensures Lists(if Selected(bitmap, bound) then indices + [bound] else indices, bitmap, bound + 1)
  {
    hide Selected;
    var longer := indices + [bound];
    forall k | 0 <= k < |indices|
      ensures indices[k] < bound
    {
      assert indices[k] in indices;
    }
    forall x
      ensures x in longer <==> x in indices || x == bound
    {
    }
  }

  lemma ListsNothing(bitmap: seq<Octet>)
    ensures Lists([], bitmap, 0)
  {
  }

  /** Bit k of octet j is PCR 8j + k. */
  lemma SelectedAt(bitmap: seq<Octet>, j: nat, k: nat)
    requires j < |bitmap| && k < 8
    ensures Selected(bitmap, 8 * j + k) <==> Bit(bitmap[j], k)
  {
    hide Bit;
    assert (8 * j + k) / 8 == j && (8 * j + k) % 8 == k;
  }

  /** One more bit of octet j. */
  lemma ListsBit(indices: seq<int>, octets: seq<Octet>, size: nat, j: nat, k: nat)
    requires j < size <= |octets| && k < 8 && Lists(indices, octets[..size], 8 * j + k)
    ensures Lists(if Bit(octets[j], k) then indices + [j * 8 + k] else indices, octets[..size], 8 * j + k + 1)
  {
    hide Lists, Selected, Bit;
    SelectedAt(octets[..size], j, k);
    ListsNext(indices, octets[..size], 8 * j + k);
  }

  /** The nested loops over octets and bits. A size beyond the octets present is an error. */
  method Decode(octets: seq<Octet>, sizeofSelect: nat) returns (indices: Option<seq<int>>)
    ensures indices.Some? <==> sizeofSelect <= |octets|
    ensures indices.Some? ==> Lists(indices.value, octets[..sizeofSelect], 8 * sizeofSelect)
  {
    hide Lists, Selected, Bit;
    var found: seq<int> := [];
    ghost var fits := sizeofSelect <= |octets|;
    if fits { ListsNothing(octets[..sizeofSelect]); }
    for byteIndex := 0 to sizeofSelect
      invariant byteIndex <= |octets|
      invariant fits ==> Lists(found, octets[..sizeofSelect], 8 * byteIndex)
    {
      if byteIndex >= |octets| { return None; }
      var selected := octets[byteIndex];
      for bitIndex := 0 to 8
        invariant fits ==> Lists(found, octets[..sizeofSelect], 8 * byteIndex + bitIndex)
      {
        if fits { ListsBit(found, octets, sizeofSelect, byteIndex, bitIndex); }
        if Bit(selected, bitIndex) {
          found := found + [byteIndex * 8 + bitIndex];
        }
      }
    }
    indices := Some(found);
  }

  /** One TPMS_PCR_SELECTION: the bank's hash algorithm, the octets, and how many of them count. */
  datatype Selection = Selection(hash: string, octets: seq<Octet>, sizeofSelect: nat)

  /** Every selection of the list, in order; one that is too long spoils the whole reading. */
  method ReadSelections(selections: seq<Selection>) returns (result: Option<seq<(string, seq<int>)>>)
    ensures result.Some? <==> forall k :: 0 <= k < |selections| ==> selections[k].sizeofSelect <= |selections[k].octets|
    ensures result.Some? ==>
      && |result.value| == |selections|
      && forall k :: 0 <= k < |selections| ==>
           var q := selections[k];
           result.value[k].0 == q.hash && Lists(result.value[k].1, q.octets[..q.sizeofSelect], 8 * q.sizeofSelect)
  {
    hide Lists;
    var out: seq<(string, seq<int>)> := [];
    for i := 0 to |selections|
      invariant |out| == i
      invariant forall k :: 0 <= k < i ==> selections[k].sizeofSelect <= |selections[k].octets|
      invariant forall k :: 0 <= k < i ==>
        var q := selections[k];
        out[k].0 == q.hash && Lists(out[k].1, q.octets[..q.sizeofSelect], 8 * q.sizeofSelect)
    {
      var indices := Decode(selections[i].octets, selections[i].sizeofSelect);
      if indices.None? { return None; }
      out := out + [(selections[i].hash, indices.value)];
    }
    result := Some(out);
  }

  // ---- Encoding back ----

  /** The weight of the bits below k that a set of PCRs puts into octet j. */
  function Weight(indices: seq<int>, j: int, k: nat): (w: nat)
    ensures w < PowerAt(k)
  {
    if k == 0 then 0
    else Weight(indices, j, k - 1) + (if 8 * j + (k - 1) in indices then PowerAt(k - 1) else 0)
  }

  lemma PowerEight()
    ensures PowerAt(8) == 256
  {
    assert PowerAt(4) == 16;
  }

  function Encode(indices: seq<int>, size: nat): seq<Octet> {
    PowerEight();
    seq(size, j requires 0 <= j < size => Weight(indices, j, 8) as Octet)
  }

  lemma Halving(v: int, p: nat)
    requires v >= 0 && p >= 1
    ensures v % (2 * p) == v % p + (if (v / p) % 2 == 1 then p else 0)
  {
    var q, r := v / p, v % p;
    assert v == q * p + r;
    var h := q / 2;
    if q % 2 == 1 {
      assert v == h * (2 * p) + (p + r) by { assert q == 2 * h + 1; }
      Remainder(v, 2 * p, h, p + r);
    } else {
      assert v == h * (2 * p) + r by { assert q == 2 * h; }
      Remainder(v, 2 * p, h, r);
    }
  }

  lemma Remainder(v: int, d: int, q: int, r: int)
    requires d > 0 && 0 <= r < d && v == q * d + r
    ensures v % d == r
  {
    var a, b := v / d, v % d;
    assert v == a * d + b;
    assert (a - q) * d == a * d - q * d && (q - a) * d == q * d - a * d;
    if a > q {
      Multiple(a - q, d);
    } else if a < q {
      Multiple(q - a, d);
    }
  }

  lemma Multiple(x: int, d: int)
    requires x >= 1 && d >= 1
    ensures x * d >= d
  {
  }

  /** Weighing the listed bits of an octet recovers its low bits. */
  lemma {:induction false} WeightRecovers(indices: seq<int>, bitmap: seq<Octet>, j: nat, k: nat)
    requires Lists(indices, bitmap, 8 * |bitmap|) && j < |bitmap| && k <= 8
    ensures Weight(indices, j, k) == bitmap[j] as int % PowerAt(k)
  {
    hide Lists, Bit;
    if k > 0 {
      WeightRecovers(indices, bitmap, j, k - 1);
      ListedBit(indices, bitmap, j, k - 1);
      BitWeight(bitmap[j], k - 1);
    }
  }

  lemma ListedBit(indices: seq<int>, bitmap: seq<Octet>, j: nat, k: nat)
    requires Lists(indices, bitmap, 8 * |bitmap|) && j < |bitmap| && k < 8
    ensures 8 * j + k in indices <==> Bit(bitmap[j], k)
  {
    hide Selected, Bit;
    SelectedAt(bitmap, j, k);
    assert 8 * j + k < 8 * |bitmap|;
  }

  /** One more low bit of an octet. */
  lemma BitWeight(selected: Octet, k: nat)
    ensures selected as int % PowerAt(k + 1) == selected as int % PowerAt(k) + (if Bit(selected, k) then PowerAt(k) else 0)
  {
    Halving(selected as int, PowerAt(k));
  }

  /** Encoding the decoded list gives back the bitmap. */
  lemma EncodeDecoded(indices: seq<int>, bitmap: seq<Octet>)
    requires Lists(indices, bitmap, 8 * |bitmap|)
    ensures Encode(indices, |bitmap|) == bitmap
  {
    forall j | 0 <= j < |bitmap|
      ensures Encode(indices, |bitmap|)[j] == bitmap[j]
    {
      WeightRecovers(indices, bitmap, j, 8);
      PowerEight();
    }
  }

  /** So equal lists of equal size come from equal bitmaps only. */
  lemma DecodedEqual(a: seq<Octet>, b: seq<Octet>, indices: seq<int>)
    requires |a| == |b| && Lists(indices, a, 8 * |a|) && Lists(indices, b, 8 * |b|)
    ensures a == b
  {
    EncodeDecoded(indices, a);
    EncodeDecoded(indices, b);
  }

  /** Bitmaps of any two sizes list the same PCRs exactly when they agree up to trailing zeros. */
  predicate SamePrefix(a: seq<Octet>, b: seq<Octet>) {
    && |a| <= |b| && a == b[..|a|]
    && forall j :: |a| <= j < |b| ==> b[j] == 0
  }

  lemma ZeroOctet(selected: Octet)
    ensures selected == 0 <==> forall k :: 0 <= k < 8 ==> !Bit(selected, k)
  {
    if forall k :: 0 <= k < 8 ==> !Bit(selected, k) {
      NoBits(selected, 8);
      PowerEight();
    } else if selected == 0 {
      forall k | 0 <= k < 8 ensures !Bit(selected, k) {
        assert 0 / PowerAt(k) == 0 by { Remainder(0, PowerAt(k), 0, 0); }
      }
    }
  }

  lemma {:induction false} NoBits(selected: Octet, n: nat)
    requires forall k :: 0 <= k < n ==> !Bit(selected, k)
    ensures selected as int % PowerAt(n) == 0
  {
    if n == 0 {
      assert PowerAt(0) == 1;
    } else {
      assert !Bit(selected, n - 1);
      NoBits(selected, n - 1);
      Halving(selected as int, PowerAt(n - 1));
    }
  }

  lemma {:induction false} SameElements(a: seq<int>, b: seq<int>)
    requires Increasing(a) && Increasing(b) && forall x :: x in a <==> x in b
    ensures a == b
  {
    assert b == [] || b[0] in b;
    if a != [] {
      var x := a[|a| - 1];
      assert x in a && x in b;
      assert b[|b| - 1] in b;
      assert b[|b| - 1] == x;
      var c, d := a[..|a| - 1], b[..|b| - 1];
      forall y
        ensures y in c <==> y in a && y != x
        ensures y in d <==> y in b && y != x
      {
      }
      SameElements(c, d);
    }
  }

  /** Decoded lists agree exactly when the bitmaps agree up to trailing zero octets. */
  lemma ListsUpToZeros(a: seq<Octet>, b: seq<Octet>, xs: seq<int>, ys: seq<int>)
    requires |a| <= |b| && Lists(xs, a, 8 * |a|) && Lists(ys, b, 8 * |b|)
    ensures xs == ys <==> SamePrefix(a, b)
  {
    hide Lists, SamePrefix;
    if SamePrefix(a, b) {
      PrefixLists(a, b, xs, ys);
    }
    if xs == ys {
      ListsPrefix(a, b, xs);
    }
  }

  lemma PrefixLists(a: seq<Octet>, b: seq<Octet>, xs: seq<int>, ys: seq<int>)
    requires Lists(xs, a, 8 * |a|) && Lists(ys, b, 8 * |b|) && SamePrefix(a, b)
    ensures xs == ys
  {
    hide Bit;
    forall x
      ensures x in xs <==> x in ys
    {
      if x in ys && x >= 8 * |a| {
        ZeroOctet(b[x / 8]);
      }
    }
    SameElements(xs, ys);
  }

  lemma ListsPrefix(a: seq<Octet>, b: seq<Octet>, xs: seq<int>)
    requires |a| <= |b| && Lists(xs, a, 8 * |a|) && Lists(xs, b, 8 * |b|)
    ensures SamePrefix(a, b)
  {
    hide Lists, Bit;
    PowerEight();
    forall j | 0 <= j < |a|
      ensures a[j] == b[j]
    {
      WeightRecovers(xs, a, j, 8);
      WeightRecovers(xs, b, j, 8);
    }
    forall j | |a| <= j < |b|
      ensures b[j] == 0
    {
      BeyondIsZero(a, b, xs, j);
    }
  }

  lemma BeyondIsZero(a: seq<Octet>, b: seq<Octet>, xs: seq<int>, j: nat)
    requires |a| <= j < |b| && Lists(xs, a, 8 * |a|) && Lists(xs, b, 8 * |b|)
    ensures b[j] == 0
  {
    hide Bit;
    forall k | 0 <= k < 8
      ensures !Bit(b[j], k)
    {
      SelectedAt(b, j, k);
      assert 8 * j + k !in xs;
    }
    ZeroOctet(b[j]);
  }
}
