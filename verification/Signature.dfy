/** ES256 signatures (scripts/apple_api.py, `raw_signature`): the DER sequence of two INTEGERs
    (section 2.2.3 of RFC 3279) becomes the two fixed-width big-endian values JWS wants (section 3.4 of
    RFC 7518). */
module Signature {
  import opened Octets
  import opened Results

  datatype Problem = BadSequence | BadInteger | BadWidth | BadLength

  const WIDTH := 32

  /******* Big-endian values *******/

  function Power(n: nat): nat {
    if n == 0 then 1 else 256 * Power(n - 1)
  }

  function Value(bs: Bytes): nat {
    if bs == [] then 0 else 256 * Value(bs[..|bs| - 1]) + bs[|bs| - 1]
  }

  /** `lstrip(b"\0")`. */
  function Stripped(bs: Bytes): Bytes {
    if bs != [] && bs[0] == 0 then Stripped(bs[1..]) else bs
  }

  lemma {:induction false} StrippedValue(bs: Bytes)
    ensures Value(Stripped(bs)) == Value(bs)
    ensures Stripped(bs) != [] ==> Stripped(bs)[0] != 0
  {
    if bs != [] && bs[0] == 0 {
      ZeroAhead(bs[1..]);
      assert [0] + bs[1..] == bs;
      StrippedValue(bs[1..]);
    }
  }

  function Zeros(n: nat): (r: Bytes)
    ensures |r| == n
  {
    if n == 0 then [] else [0] + Zeros(n - 1)
  }

  /** `rjust(32, b"\0")`. */
  function Justified(bs: Bytes): Bytes {
    Zeros(if |bs| < WIDTH then WIDTH - |bs| else 0) + bs
  }

  lemma {:induction false} ZeroAhead(bs: Bytes)
    ensures Value([0] + bs) == Value(bs)
  {
    if bs == [] {
      assert ([0] + bs)[..0] == [];
    } else {
      ZeroAhead(bs[..|bs| - 1]);
      assert ([0] + bs)[..|bs|] == [0] + bs[..|bs| - 1];
    }
  }

  lemma {:induction false} ZerosAhead(n: nat, bs: Bytes)
    ensures Value(Zeros(n) + bs) == Value(bs)
  {
    if n == 0 {
      assert Zeros(0) + bs == bs;
    } else {
      ZerosAhead(n - 1, bs);
      ZeroAhead(Zeros(n - 1) + bs);
      assert Zeros(n) + bs == [0] + (Zeros(n - 1) + bs);
    }
  }

  lemma {:induction false} ValueBounds(bs: Bytes)
    ensures Value(bs) < Power(|bs|)
    ensures bs != [] && bs[0] != 0 ==> Value(bs) >= Power(|bs| - 1)
  {
    if bs != [] {
      ValueBounds(bs[..|bs| - 1]);
    }
  }

  lemma {:induction false} PowerGrows(m: nat, n: nat)
    requires m <= n
    ensures Power(m) <= Power(n)
  {
    if m < n {
      PowerGrows(m, n - 1);
    }
  }

  /** The width check is a bound on the value. */
  lemma WidthIsBound(bs: Bytes)
    ensures |Stripped(bs)| <= WIDTH <==> Value(bs) < Power(WIDTH)
  {
    var v := Stripped(bs);
    StrippedValue(bs);
    ValueBounds(v);
    if |v| <= WIDTH {
      PowerGrows(|v|, WIDTH);
    } else {
      PowerGrows(WIDTH, |v| - 1);
    }
  }

  lemma LastDigit(p: nat, x: Byte, q: nat, y: Byte)
    requires 256 * p + x == 256 * q + y
    ensures p == q && x == y
  {
  }

  /** The bytes of a value in a given width are unique. */
  lemma {:induction false} ValueInjective(a: Bytes, b: Bytes)
    requires |a| == |b| && Value(a) == Value(b)
    ensures a == b
  {
    if a != [] {
      var n := |a| - 1;
      LastDigit(Value(a[..n]), a[n], Value(b[..n]), b[n]);
      ValueInjective(a[..n], b[..n]);
      assert a == a[..n] + [a[n]] && b == b[..n] + [b[n]];
    }
  }

  /******* The decoder *******/

  /** The content bytes of the INTEGER at an offset. */
  function Integer(der: Bytes, offset: nat): (r: Option<Bytes>)
    ensures r.Some? ==> r.value != [] && r.value[0] < 0x80 && offset + 2 + |r.value| <= |der| && |r.value| < 256
  {
    if offset + 2 > |der| || der[offset] != 2 then None
    else
      var size := der[offset + 1];
      if offset + 2 + size > |der| || size == 0 || der[offset + 2] >= 0x80 then None
      else Some(der[offset + 2..offset + 2 + size])
  }

  datatype Walk = Walk(offset: nat, raw: Bytes)

  /** The offset and the joined values behind the first n INTEGERs. */
  function Walked(der: Bytes, n: nat): Result<Walk, Problem> {
    if n == 0 then Ok(Walk(2, []))
    else match Walked(der, n - 1)
      case Err(e) => Err(e)
      case Ok(w) => Advance(der, w)
  }

  function Advance(der: Bytes, w: Walk): Result<Walk, Problem> {
    match Integer(der, w.offset)
    case None => Err(BadInteger)
    case Some(a) =>
      if |Stripped(a)| > WIDTH then Err(BadWidth)
      else Ok(Walk(w.offset + 2 + |a|, w.raw + Justified(Stripped(a))))
  }

  function Joined(values: seq<Bytes>): Bytes {
    if values == [] then [] else Joined(values[..|values| - 1]) + values[|values| - 1]
  }

  function Raw(der: Bytes): Result<Bytes, Problem> {
    if |der| < 8 || der[0] != 0x30 || der[1] != |der| - 2 then Err(BadSequence)
    else match Walked(der, 2)
      case Err(e) => Err(e)
      case Ok(w) => if w.offset != |der| then Err(BadLength) else Ok(w.raw)
  }

  method ReadInteger(der: Bytes, offset: nat) returns (value: Result<Bytes, Problem>)
    ensures value == match Integer(der, offset)
      case None => Err(BadInteger)
      case Some(a) => if |Stripped(a)| > WIDTH then Err(BadWidth) else Ok(Justified(Stripped(a)))
  {
    if offset + 2 > |der| || der[offset] != 2 { return Err(BadInteger); }
    var size := der[offset + 1];
    var integer := der[offset + 2..if offset + 2 + size < |der| then offset + 2 + size else |der|];
    if |integer| != size || integer == [] || integer[0] >= 0x80 { return Err(BadInteger); }
    if |Stripped(integer)| > WIDTH { return Err(BadWidth); }
    return Ok(Justified(Stripped(integer)));
  }

  method RawSignature(der: Bytes) returns (r: Result<Bytes, Problem>)
    ensures r == Raw(der)
  {
    if |der| < 8 || der[0] != 0x30 || der[1] != |der| - 2 { return Err(BadSequence); }
    var offset: nat, values: seq<Bytes> := 2, [];
    for n := 0 to 2
      invariant Walked(der, n) == Ok(Walk(offset, Joined(values)))
    {
      WalkStep(der, n, Walk(offset, Joined(values)));
      var value := ReadInteger(der, offset);
      if value.Err? { return Err(value.error); }
      assert (values + [value.value])[..|values|] == values;
      values := values + [value.value];
      offset := offset + 2 + der[offset + 1];
    }
    if offset != |der| { return Err(BadLength); }
    return Ok(Joined(values));
  }

  /******* What it accepts and what it returns *******/

  /** The sequence around two INTEGER contents, in the short length form. */
  function Framed(a: Bytes, b: Bytes): Bytes
    requires |a| + |b| + 4 < 256
  {
    [0x30, |a| + |b| + 4] + ([2, |a|] + a) + ([2, |b|] + b)
  }

  /** A nonnegative INTEGER below 2^256; leading zero bytes are allowed. */
  predicate Fits(a: Bytes) {
    a != [] && a[0] < 0x80 && Value(a) < Power(WIDTH)
  }

  lemma FramedParses(a: Bytes, b: Bytes)
    requires |a| + |b| + 4 < 256 && a != [] && b != [] && a[0] < 0x80 && b[0] < 0x80
    ensures var der := Framed(a, b);
      |der| == 6 + |a| + |b| && Integer(der, 2) == Some(a) && Integer(der, 4 + |a|) == Some(b)
  {
    var der := Framed(a, b);
    assert der[4..4 + |a|] == a;
    assert der[6 + |a|..6 + |a| + |b|] == b;
  }

  /** The decoder accepts a frame exactly when both integers are below 2^256, and then answers their two
      values, 32 bytes each. */
  lemma FrameDecoded(a: Bytes, b: Bytes)
    requires |a| + |b| + 4 < 256 && a != [] && b != [] && a[0] < 0x80 && b[0] < 0x80
    ensures Raw(Framed(a, b)).Ok? <==> Fits(a) && Fits(b)
    ensures Raw(Framed(a, b)).Ok? ==> var raw := Raw(Framed(a, b)).value;
      |raw| == 2 * WIDTH && Value(raw[..WIDTH]) == Value(a) && Value(raw[WIDTH..]) == Value(b)
  {
    FrameRaw(a, b);
    WidthIsBound(a);
    WidthIsBound(b);
    if Fits(a) && Fits(b) {
      JustifiedValue(a);
      JustifiedValue(b);
      var x, y := Justified(Stripped(a)), Justified(Stripped(b));
      assert (x + y)[..WIDTH] == x && (x + y)[WIDTH..] == y;
    }
  }

  predicate Narrow(a: Bytes) {
    |Stripped(a)| <= WIDTH
  }

  lemma FrameRaw(a: Bytes, b: Bytes)
    requires |a| + |b| + 4 < 256 && a != [] && b != [] && a[0] < 0x80 && b[0] < 0x80
    ensures Raw(Framed(a, b)) ==
      if Narrow(a) && Narrow(b) then Ok(Justified(Stripped(a)) + Justified(Stripped(b))) else Err(BadWidth)
  {
    var der := Framed(a, b);
    FramedParses(a, b);
    if Narrow(a) && Narrow(b) {
      BothNarrow(der, a, b);
    } else {
      OneWide(der, a, b);
    }
  }

  lemma BothNarrow(der: Bytes, a: Bytes, b: Bytes)
    requires Integer(der, 2) == Some(a) && Integer(der, 4 + |a|) == Some(b) && Narrow(a) && Narrow(b)
    ensures Walked(der, 2) == Ok(Walk(6 + |a| + |b|, Justified(Stripped(a)) + Justified(Stripped(b))))
  {
    var x := Justified(Stripped(a));
    WalkStep(der, 0, Walk(2, []));
    assert [] + x == x;
    WalkStep(der, 1, Walk(4 + |a|, x));
  }

  lemma OneWide(der: Bytes, a: Bytes, b: Bytes)
    requires Integer(der, 2) == Some(a) && Integer(der, 4 + |a|) == Some(b) && !(Narrow(a) && Narrow(b))
    ensures Walked(der, 2) == Err(BadWidth)
  {
    var x := Justified(Stripped(a));
    WalkStep(der, 0, Walk(2, []));
    assert [] + x == x;
    if Narrow(a) {
      WalkStep(der, 1, Walk(4 + |a|, x));
    }
  }

  lemma WalkStep(der: Bytes, n: nat, w: Walk)
    requires Walked(der, n) == Ok(w)
    ensures Walked(der, n + 1) == Advance(der, w)
    ensures n == 0 && Walked(der, n + 1).Err? ==> Walked(der, 2) == Walked(der, n + 1)
  {
  }

  lemma JustifiedValue(a: Bytes)
    requires |Stripped(a)| <= WIDTH
    ensures |Justified(Stripped(a))| == WIDTH && Value(Justified(Stripped(a))) == Value(a)
  {
    StrippedValue(a);
    ZerosAhead(WIDTH - |Stripped(a)|, Stripped(a));
  }

  lemma IntegerBytes(der: Bytes, offset: nat)
    requires Integer(der, offset).Some?
    ensures var a := Integer(der, offset).value; der[offset..offset + 2 + |a|] == [2, |a|] + a
  {
  }

  /** Nothing else is accepted: every accepted input is such a frame. */
  lemma AcceptedIsFrame(der: Bytes)
    ensures Raw(der).Ok? <==> exists a, b :: |a| + |b| + 4 < 256 && der == Framed(a, b) && Fits(a) && Fits(b)
  {
    if Raw(der).Ok? {
      assert Walked(der, 0) == Ok(Walk(2, []));
      assert Walked(der, 1) == Advance(der, Walk(2, []));
      var a := Integer(der, 2).value;
      var b := Integer(der, 4 + |a|).value;
      IntegerBytes(der, 2);
      IntegerBytes(der, 4 + |a|);
      assert der[..2] == [0x30, |a| + |b| + 4];
      assert der == der[..2] + der[2..4 + |a|] + der[4 + |a|..6 + |a| + |b|];
      assert der == Framed(a, b);
      FrameDecoded(a, b);
    }
    if exists a, b :: |a| + |b| + 4 < 256 && der == Framed(a, b) && Fits(a) && Fits(b) {
      var a, b :| |a| + |b| + 4 < 256 && der == Framed(a, b) && Fits(a) && Fits(b);
      FrameDecoded(a, b);
    }
  }

  /******* Minimal DER *******/

  /** The bytes of v in n places. */
  function Fixed(v: nat, n: nat): (bs: Bytes)
    ensures |bs| == n
    ensures v < Power(n) ==> Value(bs) == v
  {
    if n == 0 then [] else
      var bs := Fixed(v / 256, n - 1) + [v % 256];
      assert bs[..n - 1] == Fixed(v / 256, n - 1);
      bs
  }

  /** The fewest content octets of a nonnegative INTEGER (section 8.3 of X.690): no leading zero unless
      the next octet has its top bit set. */
  predicate Minimal(a: Bytes) {
    a != [] && a[0] < 0x80 && (|a| > 1 && a[0] == 0 ==> a[1] >= 0x80)
  }

  lemma MinimalShort(a: Bytes)
    requires Minimal(a) && Value(a) < Power(WIDTH)
    ensures |a| <= WIDTH + 1
  {
    WidthIsBound(a);
    assert |a| > 1 && a[0] == 0 ==> Stripped(a) == a[1..];
    assert |a| == 1 && a[0] == 0 ==> Stripped(a) == Stripped(a[1..]) == [];
  }

  /** For all r and s below 2^256 the minimal DER of the pair decodes to r and s side by side. */
  lemma MinimalDecoded(r: nat, s: nat, a: Bytes, b: Bytes)
    requires r < Power(WIDTH) && s < Power(WIDTH)
    requires Minimal(a) && Minimal(b) && Value(a) == r && Value(b) == s
    ensures |a| + |b| + 4 < 128
    ensures Raw(Framed(a, b)) == Ok(Fixed(r, WIDTH) + Fixed(s, WIDTH))
  {
    MinimalShort(a);
    MinimalShort(b);
    FrameDecoded(a, b);
    var raw := Raw(Framed(a, b)).value;
    ValueInjective(raw[..WIDTH], Fixed(r, WIDTH));
    ValueInjective(raw[WIDTH..], Fixed(s, WIDTH));
    assert raw == raw[..WIDTH] + raw[WIDTH..];
  }

  /** The minimal content octets of v. */
  function MinimalOf(v: nat): (a: Bytes)
    ensures Value(a) == v && Minimal(a)
  {
    if v < 0x80 then assert [v][..0] == []; [v]
    else if v < 256 then assert [0, v][..1] == [0] && [0][..0] == []; [0, v]
    else
      var a := MinimalOf(v / 256) + [v % 256];
      assert a[..|a| - 1] == MinimalOf(v / 256);
      a
  }
}
