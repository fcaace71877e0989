/** The length-prefixed framing under the worker source digest. */
module SourceDigest {
  import opened Symbols
  import opened Octets

  datatype SourceFile = SourceFile(name: seq<Octet>, contents: seq<Octet>)

  function Range(width: nat): (n: nat)
    ensures n >= 1
  {
    if width == 0 then 1 else 256 * Range(width - 1)
  }

  /** n.to_bytes(width, "big"). */
  function BigEndian(n: nat, width: nat): (r: seq<Octet>)
    ensures |r| == width
  {
    if width == 0 then [] else BigEndian(n / 256, width - 1) + [(n % 256) as Octet]
  }

  function FromBigEndian(r: seq<Octet>): nat {
    if r == [] then 0 else 256 * FromBigEndian(r[..|r| - 1]) + r[|r| - 1] as nat
  }

  lemma {:induction false} BigEndianRoundTrip(n: nat, width: nat)
    requires n < Range(width)
    ensures FromBigEndian(BigEndian(n, width)) == n
  {
    if width > 0 {
      BigEndianRoundTrip(n / 256, width - 1);
      var r := BigEndian(n, width);
      assert r[..|r| - 1] == BigEndian(n / 256, width - 1);
    }
  }

  /** The lengths fit their prefixes; to_bytes raises otherwise. */
  predicate Fits(f: SourceFile) {
    |f.name| < Range(4) && |f.contents| < Range(8)
  }

  function Frame(f: SourceFile): seq<Octet> {
    BigEndian(|f.name|, 4) + f.name + BigEndian(|f.contents|, 8) + f.contents
  }

  /** What is hashed after the fixed header. */
  function Framing(files: seq<SourceFile>): seq<Octet> {
    if files == [] then [] else Framing(files[..|files| - 1]) + Frame(files[|files| - 1])
  }

  lemma NothingFramed(files: seq<SourceFile>, header: seq<Octet>)
    ensures header + Framing(files[..0]) == header
  {
  }

  lemma FrameParts(fed: seq<Octet>, f: SourceFile)
    ensures fed + BigEndian(|f.name|, 4) + f.name + BigEndian(|f.contents|, 8) + f.contents == fed + Frame(f)
  {
    hide BigEndian;
  }

  lemma FramingMore(header: seq<Octet>, files: seq<SourceFile>, i: nat)
    requires i < |files|
    ensures header + Framing(files[..i]) + Frame(files[i]) == header + Framing(files[..i + 1])
  {
    hide Frame;
    assert files[..i + 1][..i] == files[..i];
  }

  /** The loop that feeds the digest. */
  method WorkerSourceStream(header: seq<Octet>, files: seq<SourceFile>) returns (stream: Option<seq<Octet>>)
    ensures stream.Some? <==> forall i :: 0 <= i < |files| ==> Fits(files[i])
    ensures stream.Some? ==> stream.value == header + Framing(files)
  {
    hide Frame, Framing, BigEndian, Range;
    var fed := header;
    NothingFramed(files, header);
    for i := 0 to |files|
      invariant forall k :: 0 <= k < i ==> Fits(files[k])
      invariant fed == header + Framing(files[..i])
    {
      var f := files[i];
      if |f.name| >= Range(4) { return None; }
      ghost var before := fed;
      fed := fed + BigEndian(|f.name|, 4);
      fed := fed + f.name;
      if |f.contents| >= Range(8) { return None; }
      fed := fed + BigEndian(|f.contents|, 8);
      fed := fed + f.contents;
      FrameParts(before, f);
      FramingMore(header, files, i);
    }
    assert files[..|files|] == files;
    stream := Some(fed);
  }

  /** The layout of one frame: four octets of name length, most significant first, the name, eight
      octets of content length, most significant first, the content. */
  lemma FrameLayout(f: SourceFile)
    requires Fits(f)
    ensures var s, n, m := Frame(f), |f.name|, |f.contents|;
            && |s| == 12 + n + m && n < 4294967296 && m < 18446744073709551616
            && s[0] as int == n / 16777216 && s[1] as int == n / 65536 % 256
            && s[2] as int == n / 256 % 256 && s[3] as int == n % 256
            && s[4..4 + n] == f.name && s[12 + n..] == f.contents
            && s[4 + n] as int == m / 72057594037927936 && s[11 + n] as int == m % 256
  {
    RangeAt();
    FourOctets(|f.name|);
    EightOctets(|f.contents|);
    hide BigEndian, Range;
    var s, n := Frame(f), |f.name|;
    assert s[..4] == BigEndian(n, 4);
    assert s[4 + n..12 + n] == BigEndian(|f.contents|, 8);
    assert s[0] == s[..4][0] && s[1] == s[..4][1] && s[2] == s[..4][2] && s[3] == s[..4][3];
    assert s[4 + n] == s[4 + n..12 + n][0] && s[11 + n] == s[4 + n..12 + n][7];
  }

  lemma RangeAt()
    ensures Range(4) == 4294967296 && Range(8) == 18446744073709551616
  {
    assert Range(2) == 65536;
    assert Range(3) == 16777216;
    assert Range(4) == 4294967296;
    assert Range(5) == 1099511627776;
    assert Range(6) == 281474976710656;
    assert Range(7) == 72057594037927936;
  }

  /** The last octet of a number, and what stands before it. */
  lemma LastOctet(n: nat, width: nat)
    requires width > 0
    ensures var r := BigEndian(n, width); r[width - 1] as int == n % 256 && r[..width - 1] == BigEndian(n / 256, width - 1)
  {
  }

  lemma FourOctets(n: nat)
    requires n < 4294967296
    ensures var r := BigEndian(n, 4);
            r[0] as int == n / 16777216 && r[1] as int == n / 65536 % 256 && r[2] as int == n / 256 % 256 && r[3] as int == n % 256
  {
    LastOctet(n, 4);
    LastOctet(n / 256, 3);
    LastOctet(n / 256 / 256, 2);
    LastOctet(n / 256 / 256 / 256, 1);
    hide BigEndian;
    var r := BigEndian(n, 4);
    assert r[2] == r[..3][2] && r[1] == r[..3][..2][1] && r[0] == r[..3][..2][..1][0];
  }

  lemma EightOctets(m: nat)
    requires m < 18446744073709551616
    ensures var r := BigEndian(m, 8); r[0] as int == m / 72057594037927936 && r[7] as int == m % 256
  {
    LastOctet(m, 8);
    TopOctet(m, 8);
    RangeAt();
  }

  /** The first octet is what is left above the others. */
  lemma {:induction false} TopOctet(m: nat, width: nat)
    requires width > 0 && m < Range(width)
    ensures BigEndian(m, width)[0] as int == m / Range(width - 1)
  {
    LastOctet(m, width);
    if width > 1 {
      TopOctet(m / 256, width - 1);
      assert BigEndian(m, width)[0] == BigEndian(m, width)[..width - 1][0];
      DivTwice(m, Range(width - 2));
    }
  }

  lemma DivTwice(m: nat, d: nat)
    requires d >= 1
    ensures m / 256 / d == m / (256 * d)
  {
    var q := m / (256 * d);
    var r := m % (256 * d);
    assert m == 256 * (q * d) + r by { assert m == (256 * d) * q + r; }
    assert m / 256 == q * d + r / 256;
    assert r / 256 < d;
    Quotient(m / 256, d, q, r / 256);
  }

  lemma Quotient(v: int, d: int, q: int, r: int)
    requires d > 0 && 0 <= r < d && v == q * d + r
    ensures v / d == q
  {
    var a, b := v / d, v % d;
    assert v == a * d + b;
    assert (a - q) * d == a * d - q * d && (q - a) * d == q * d - a * d;
    if a > q {
      AtLeast(a - q, d);
    } else if a < q {
      AtLeast(q - a, d);
    }
  }

  lemma AtLeast(x: int, d: int)
    requires x >= 1 && d >= 1
    ensures x * d >= d
  {
  }

  // ---- Reading a stream back ----

  /** Read frames until the stream is used up. */
  function Parse(stream: seq<Octet>): Option<seq<SourceFile>>
    decreases |stream|
  {
    if stream == [] then Some([])
    else if |stream| < 4 then None
    else
      var n := FromBigEndian(stream[..4]);
      if |stream| < 4 + n + 8 then None
      else
        var m := FromBigEndian(stream[4 + n..4 + n + 8]);
        if |stream| < 4 + n + 8 + m then None
        else
          match Parse(stream[4 + n + 8 + m..])
          case None => None
          case Some(rest) => Some([SourceFile(stream[4..4 + n], stream[4 + n + 8..4 + n + 8 + m])] + rest)
  }

  lemma {:induction false} FramingFirst(files: seq<SourceFile>)
    requires files != []
    ensures Framing(files) == Frame(files[0]) + Framing(files[1..])
  {
    hide Frame;
    var m := |files| - 1;
    if m == 0 {
      assert files[..0] == [] && files[1..] == [];
    } else {
      FramingFirst(files[..m]);
      assert files[..m][1..] == files[1..][..m - 1];
      assert Framing(files[1..]) == Framing(files[1..][..m - 1]) + Frame(files[m]);
    }
  }

  lemma ParseFrame(f: SourceFile, rest: seq<Octet>)
    requires Fits(f)
    ensures Parse(Frame(f) + rest) ==
            match Parse(rest) case None => None case Some(more) => Some([f] + more)
  {
    var s, n, m := Frame(f) + rest, |f.name|, |f.contents|;
    BigEndianRoundTrip(n, 4);
    BigEndianRoundTrip(m, 8);
    assert s[..4] == BigEndian(n, 4);
    assert s[4..4 + n] == f.name;
    assert s[4 + n..4 + n + 8] == BigEndian(m, 8);
    assert s[4 + n + 8..4 + n + 8 + m] == f.contents;
    assert s[4 + n + 8 + m..] == rest;
  }

  /** Parsing recovers every framed list. */
  lemma {:induction false} ParseFraming(files: seq<SourceFile>)
    requires forall i :: 0 <= i < |files| ==> Fits(files[i])
    ensures Parse(Framing(files)) == Some(files)
  {
    hide Frame;
    if files != [] {
      assert [files[0]] + files[1..] == files;
      FramingFirst(files);
      ParseFraming(files[1..]);
      ParseFrame(files[0], Framing(files[1..]));
    }
  }

  /** The hashed stream determines the names and contents, in order. */
  lemma FramingInjective(a: seq<SourceFile>, b: seq<SourceFile>, header: seq<Octet>)
    requires forall i :: 0 <= i < |a| ==> Fits(a[i])
    requires forall i :: 0 <= i < |b| ==> Fits(b[i])
    requires header + Framing(a) == header + Framing(b)
    ensures a == b
  {
    assert (header + Framing(a))[|header|..] == Framing(a);
    assert (header + Framing(b))[|header|..] == Framing(b);
    ParseFraming(a);
    ParseFraming(b);
  }
}
