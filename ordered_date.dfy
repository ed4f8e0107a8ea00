/**
 * The order-preserving serialiser for points in time (a Java `Date`, i.e. a
 * signed 64-bit count of milliseconds since the epoch).
 *
 * A time t is stored as a marker byte followed by the eight big-endian bytes
 * of t with its sign bit flipped. Flipping the sign bit of a two's-complement
 * long is the same as adding 2^63 modulo 2^64, and for every long that sum
 * already lies in [0, 2^64), so the payload is simply the big-endian form of
 * t + 2^63. Unsigned byte-wise comparison of two encodings then agrees with
 * the numeric order of the times.
 */
module OrderedDate {
  import opened Wrappers

  /** An unsigned byte, as the backing store compares them. */
  type Byte = b: int | 0 <= b < 256

  /** Java's `long`. */
  predicate IsLong(t: int) {
    -0x8000_0000_0000_0000 <= t < 0x8000_0000_0000_0000
  }

  /** The value of the sign bit of a 64-bit long, read as unsigned. */
  const SignBit: nat := 0x8000_0000_0000_0000

  /** The marker byte that opens a full-length (eight-byte payload) encoding. */
  const FullLengthMarker: Byte := 8

  /**
   * The encoder drops leading 0xFF bytes of the flipped value (and uses a
   * different marker for them); the first non-negative time for which that
   * happens is 0x7F00_0000_0000_0000. Below it every non-negative time has
   * the fixed nine-byte layout this model describes.
   */
  const FixedLayoutLimit: nat := 0x7F00_0000_0000_0000

  predicate InFixedLayout(t: int) {
    0 <= t < FixedLayoutLimit
  }

  datatype DecodeError = WrongLength(length: nat) | UnknownMarker(marker: Byte)

  function Pow256(n: nat): (p: nat)
    ensures p >= 1
  {
    if n == 0 then 1 else 256 * Pow256(n - 1)
  }

  lemma {:induction false} Pow256Eight()
    ensures Pow256(8) == 0x1_0000_0000_0000_0000
  {
  }

  lemma {:induction false} MulMonotone(x: nat, y: nat, p: nat)
    requires x <= y
    ensures x * p <= y * p
  {
  }

  /** With digits below the base p, a smaller leading digit decides the order. */
  lemma {:induction false} LeadingDigitDecides(x0: nat, rx: nat, y0: nat, ry: nat, p: nat)
    requires x0 < y0 && rx < p
    ensures x0 * p + rx < y0 * p + ry
  {
    MulMonotone(x0 + 1, y0, p);
    assert (x0 + 1) * p == x0 * p + p;
  }

  /** a * p + b splits uniquely into quotient a and remainder b. */
  lemma {:induction false} DivModOfSplit(a: nat, b: nat, p: nat)
    requires 0 < p && b < p
    ensures (a * p + b) / p == a && (a * p + b) % p == b
  {
    var x := a * p + b;
    var q, r := x / p, x % p;
    assert x == q * p + r;
    if q < a {
      LeadingDigitDecides(q, r, a, b, p);
    } else if q > a {
      LeadingDigitDecides(a, b, q, r, p);
    }
  }

  lemma {:induction false} QuotientBound(x: nat, p: nat, k: nat)
    requires 0 < p && x < k * p
    ensures 0 <= x / p < k
  {
    var q, r := x / p, x % p;
    assert x == q * p + r;
    if q >= k {
      MulMonotone(k, q, p);
    }
  }

  /** Quotient and remainder put back together give the number. */
  lemma {:induction false} Recompose(x: nat, p: nat, d: int, r: int)
    requires 0 < p && d == x / p && r == x % p
    ensures d * p + r == x
  {
  }

  lemma {:induction false} DivMonotone(x: nat, y: nat, p: nat)
    requires x <= y && 0 < p
    ensures x / p <= y / p
  {
    var qx, rx, qy, ry := x / p, x % p, y / p, y % p;
    assert x == qx * p + rx && y == qy * p + ry;
    if qx > qy {
      LeadingDigitDecides(qy, ry, qx, rx, p);
    }
  }

  /** The n-byte big-endian representation of x, most significant byte first. */
  function BigEndian(n: nat, x: nat): (s: seq<Byte>)
    requires x < Pow256(n)
    ensures |s| == n
  {
    if n == 0 then []
    else
      var p := Pow256(n - 1);
      QuotientBound(x, p, 256);
      var digit: Byte := x / p;
      [digit] + BigEndian(n - 1, x % p)
  }

  /** The unsigned number whose big-endian bytes are s. */
  function Value(s: seq<Byte>): (v: nat)
    ensures v < Pow256(|s|)
  {
    if s == [] then 0
    else
      var p := Pow256(|s| - 1);
      var rest := Value(s[1..]);
      LeadingDigitDecides(s[0], rest, 256, 0, p);
      s[0] * p + rest
  }

  lemma {:induction false} ValueOfBigEndian(n: nat, x: nat)
    requires x < Pow256(n)
    ensures Value(BigEndian(n, x)) == x
  {
    if n > 0 {
      var p := Pow256(n - 1);
      var s := BigEndian(n, x);
      assert s[1..] == BigEndian(n - 1, x % p);
      ValueOfBigEndian(n - 1, x % p);
      Recompose(x, p, s[0], Value(s[1..]));
    }
  }

  lemma {:induction false} BigEndianOfValue(s: seq<Byte>)
    ensures BigEndian(|s|, Value(s)) == s
  {
    if s != [] {
      var p := Pow256(|s| - 1);
      DivModOfSplit(s[0], Value(s[1..]), p);
      BigEndianOfValue(s[1..]);
    }
  }

  function Sign(x: int): int {
    if x < 0 then -1 else if x == 0 then 0 else 1
  }

  /**
   * Unsigned lexicographic comparison of byte arrays, the order in which the
   * backing store keeps its keys: negative, zero or positive.
   */
  function Compare(a: seq<Byte>, b: seq<Byte>): (c: int)
    ensures -1 <= c <= 1
    ensures c == 0 <==> a == b
    decreases |a|
  {
    if a == [] && b == [] then 0
    else if a == [] then -1
    else if b == [] then 1
    else if a[0] < b[0] then -1
    else if a[0] > b[0] then 1
    else
      assert a == [a[0]] + a[1..] && b == [b[0]] + b[1..];
      Compare(a[1..], b[1..])
  }

  /** On byte arrays of one length, lexicographic order is numeric order. */
  lemma {:induction false} CompareIsNumericOrder(a: seq<Byte>, b: seq<Byte>)
    requires |a| == |b|
    ensures Compare(a, b) == Sign(Value(a) - Value(b))
  {
    if a != [] {
      var p := Pow256(|a| - 1);
      var ra, rb := Value(a[1..]), Value(b[1..]);
      assert Value(a) == a[0] * p + ra && Value(b) == b[0] * p + rb;
      if a[0] < b[0] {
        LeadingDigitDecides(a[0], ra, b[0], rb, p);
      } else if a[0] > b[0] {
        LeadingDigitDecides(b[0], rb, a[0], ra, p);
      } else {
        CompareIsNumericOrder(a[1..], b[1..]);
      }
    }
  }

  /** Encodes a time of the fixed layout: marker 8, then the flipped long big-endian. */
  function Serialise(t: int): (b: seq<Byte>)
    requires InFixedLayout(t)
    ensures |b| == 9 && b[0] == FullLengthMarker
    ensures b[1] >= 0x80
  {
    Pow256Eight();
    var payload := BigEndian(8, t + SignBit);
    assert payload[0] >= 0x80 by {
      assert Pow256(7) == 0x100_0000_0000_0000;
      DivMonotone(SignBit, t + SignBit, Pow256(7));
    }
    [FullLengthMarker] + payload
  }

  /** Decodes a nine-byte, marker-8 encoding back into a long. */
  function Deserialise(b: seq<Byte>): (r: Result<int, DecodeError>)
    ensures r.Ok? ==> |b| == 9 && b[0] == FullLengthMarker && IsLong(r.value)
    ensures r.Ok? ==> (r.value >= 0 <==> b[1] >= 0x80)
    ensures |b| != 9 ==> r == Err(WrongLength(|b|))
  {
    if |b| != 9 then Err(WrongLength(|b|))
    else if b[0] != FullLengthMarker then Err(UnknownMarker(b[0]))
    else
      Pow256Eight();
      var payload := b[1..];
      assert Value(payload) >= SignBit <==> payload[0] >= 0x80 by {
        assert Value(payload) == payload[0] * Pow256(7) + Value(payload[1..]);
        assert Pow256(7) == 0x100_0000_0000_0000;
        if payload[0] >= 0x80 {
          MulMonotone(0x80, payload[0], Pow256(7));
        } else {
          LeadingDigitDecides(payload[0], Value(payload[1..]), 0x80, 0, Pow256(7));
        }
      }
      Ok(Value(payload) - SignBit)
  }

  /** Round trip: decoding an encoding gives back the time. */
  lemma {:induction false} RoundTrip(t: int)
    requires InFixedLayout(t)
    ensures Deserialise(Serialise(t)) == Ok(t)
  {
    Pow256Eight();
    var b := Serialise(t);
    assert b[1..] == BigEndian(8, t + SignBit);
    ValueOfBigEndian(8, t + SignBit);
  }

  /** The converse: the only bytes that decode to a time of the fixed layout are its encoding. */
  lemma {:induction false} EncodingIsCanonical(b: seq<Byte>, t: int)
    requires Deserialise(b) == Ok(t) && InFixedLayout(t)
    ensures Serialise(t) == b
  {
    BigEndianOfValue(b[1..]);
    assert b == [b[0]] + b[1..];
  }

  /** Order preservation: byte order of two encodings is the order of the times. */
  lemma {:induction false} OrderPreserved(a: int, b: int)
    requires InFixedLayout(a) && InFixedLayout(b)
    ensures Compare(Serialise(a), Serialise(b)) == Sign(a - b)
  {
    Pow256Eight();
    var sa, sb := Serialise(a), Serialise(b);
    assert sa[1..] == BigEndian(8, a + SignBit) && sb[1..] == BigEndian(8, b + SignBit);
    CompareIsNumericOrder(sa[1..], sb[1..]);
    ValueOfBigEndian(8, a + SignBit);
    ValueOfBigEndian(8, b + SignBit);
  }

  /** Every millisecond of the sampled range round-trips. */
  lemma {:induction false} SampleRangeRoundTrips(i: int)
    requires 1000000 <= i < 1001000
    ensures Deserialise(Serialise(i)) == Ok(i)
  {
    RoundTrip(i);
  }

  lemma {:induction false} EpochRoundTrips()
    ensures Deserialise(Serialise(0)) == Ok(0)
  {
    RoundTrip(0);
  }

  /** Time 1 sorts strictly before the same instant a day later. */
  lemma {:induction false} DayLaterSortsAfter()
    ensures Compare(Serialise(1), Serialise(86400000)) < 0
  {
    OrderPreserved(1, 86400000);
  }

  /** Java's signed byte literal read as the unsigned byte it stands for. */
  function FromSigned(s: seq<int>): (r: seq<Byte>)
    requires forall i :: 0 <= i < |s| ==> -128 <= s[i] < 128
    ensures |r| == |s|
    ensures forall i :: 0 <= i < |s| ==> r[i] % 256 == s[i] % 256
  {
    seq(|s|, i requires 0 <= i < |s| => if s[i] < 0 then s[i] + 256 else s[i])
  }

  /** The value of an eight-byte array, written out digit by digit. */
  lemma {:induction false} ValueOfEightBytes(s: seq<Byte>)
    requires |s| == 8
    ensures Value(s) == (s[0] as int) * 0x100_0000_0000_0000 + (s[1] as int) * 0x1_0000_0000_0000
                      + (s[2] as int) * 0x100_0000_0000 + (s[3] as int) * 0x1_0000_0000
                      + (s[4] as int) * 0x100_0000 + (s[5] as int) * 0x1_0000 + (s[6] as int) * 0x100 + s[7]
  {
    assert Pow256(7) == 0x100_0000_0000_0000;
    assert Value(s[7..]) == s[7] by { assert s[7..][1..] == []; }
    assert Value(s[6..]) == (s[6] as int) * 0x100 + Value(s[7..]) by { assert s[6..][1..] == s[7..]; }
    assert Value(s[5..]) == (s[5] as int) * 0x1_0000 + Value(s[6..]) by { assert s[5..][1..] == s[6..]; }
    assert Value(s[4..]) == (s[4] as int) * 0x100_0000 + Value(s[5..]) by { assert s[4..][1..] == s[5..]; }
    assert Value(s[3..]) == (s[3] as int) * 0x1_0000_0000 + Value(s[4..]) by { assert s[3..][1..] == s[4..]; }
    assert Value(s[2..]) == (s[2] as int) * 0x100_0000_0000 + Value(s[3..]) by { assert s[2..][1..] == s[3..]; }
    assert Value(s[1..]) == (s[1] as int) * 0x1_0000_0000_0000 + Value(s[2..]) by { assert s[1..][1..] == s[2..]; }
  }

  /** A time whose offset payload has the eight given digits is encoded as the marker and those digits. */
  lemma {:induction false} EncodesAs(t: int, b0: Byte, b1: Byte, b2: Byte, b3: Byte, b4: Byte, b5: Byte, b6: Byte, b7: Byte)
    requires InFixedLayout(t)
    requires t + SignBit == (b0 as int) * 0x100_0000_0000_0000 + (b1 as int) * 0x1_0000_0000_0000
                          + (b2 as int) * 0x100_0000_0000 + (b3 as int) * 0x1_0000_0000
                          + (b4 as int) * 0x100_0000 + (b5 as int) * 0x1_0000 + (b6 as int) * 0x100 + b7
    ensures Serialise(t) == [8, b0, b1, b2, b3, b4, b5, b6, b7]
  {
    var b: seq<Byte> := [8, b0, b1, b2, b3, b4, b5, b6, b7];
    ValueOfEightBytes(b[1..]);
    EncodingIsCanonical(b, t);
  }

  /** The 1985 value of the historic serialiser test. */
  lemma {:induction false} HistoricVector1985()
    ensures Serialise(60460074000000) == FromSigned([8, -128, 0, 54, -4, -11, 59, -34, -128])
  {
    EncodesAs(60460074000000, 128, 0, 54, 252, 245, 59, 222, 128);
    assert FromSigned([8, -128, 0, 54, -4, -11, 59, -34, -128]) == [8, 128, 0, 54, 252, 245, 59, 222, 128];
  }

  /** The 2015 value of the historic serialiser test. */
  lemma {:induction false} HistoricVector2015()
    ensures Serialise(61406234880000) == FromSigned([8, -128, 0, 55, -39, 64, -47, 40, 0])
  {
    EncodesAs(61406234880000, 128, 0, 55, 217, 64, 209, 40, 0);
    assert FromSigned([8, -128, 0, 55, -39, 64, -47, 40, 0]) == [8, 128, 0, 55, 217, 64, 209, 40, 0];
  }

  /** The 1955 value of the historic serialiser test. */
  lemma {:induction false} HistoricVector1955()
    ensures Serialise(59514676680000) == FromSigned([8, -128, 0, 54, 32, -41, 41, -107, 64])
  {
    EncodesAs(59514676680000, 128, 0, 54, 32, 215, 41, 149, 64);
    assert FromSigned([8, -128, 0, 54, 32, -41, 41, -107, 64]) == [8, 128, 0, 54, 32, 215, 41, 149, 64];
  }

  /** The Java classes a serialiser may be asked about. */
  datatype JavaClass = DateClass | StringClass | OtherClass(name: string)

  /** The serialiser handles exactly `java.util.Date`. */
  predicate CanHandle(c: JavaClass) {
    c == DateClass
  }

  lemma {:induction false} HandlesDateNotString()
    ensures CanHandle(DateClass) && !CanHandle(StringClass)
  {
  }
}
