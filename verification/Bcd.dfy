/** CI-V packed decimal fields (internal/rig/backend/civ/bcd.go). */
module Bcd {
  import opened Basics

  type Byte = b: int | 0 <= b < 256 witness 0

  const FREQ_BYTES := 5
  const FREQ_BYTES_WIDE := 6
  const MAX_FREQUENCY := 9_999_999_999
  const WIDE_MAX_FREQUENCY := 999_999_999_999

  // ---- one byte ----

  /** Two decimal digits, the more significant in the high nibble; a value that needs more digits
      loses the rest when it is cut to a byte. */
  function BcdByte(v: nat): Byte { (v / 10 * 16 + v % 10) % 256 }

  predicate IsBcd(b: Byte) { b / 16 <= 9 && b % 16 <= 9 }

  function UnbcdByte(b: Byte): Option<nat> { if IsBcd(b) then Some(b / 16 * 10 + b % 16) else None }

  lemma ByteRoundTrip(v: nat, b: Byte)
    ensures v < 100 ==> UnbcdByte(BcdByte(v)) == Some(v)
    ensures UnbcdByte(b).Some? ==> UnbcdByte(b).value < 100 && BcdByte(UnbcdByte(b).value) == b
  {
    if v < 100 { Nibbles(v / 10, v % 10); }
    if IsBcd(b) { Nibbles(b / 16, b % 16); }
  }

  lemma Nibbles(hi: nat, lo: nat)
    requires hi <= 9 && lo <= 9
    ensures (hi * 16 + lo) % 256 == hi * 16 + lo
    ensures (hi * 16 + lo) / 16 == hi && (hi * 16 + lo) % 16 == lo
    ensures (hi * 10 + lo) / 10 == hi && (hi * 10 + lo) % 10 == lo
  {}

  // ---- the two-byte level field, most significant first ----

  function EncodeBcd2(v: nat): seq<Byte> { [BcdByte(v / 100), BcdByte(v % 100)] }

  function DecodeBcd2(b: seq<Byte>): Option<nat> {
    if |b| != 2 then None
    else
      var (hi, lo) := (UnbcdByte(b[0]), UnbcdByte(b[1]));
      if hi.None? || lo.None? then None else Some(hi.value * 100 + lo.value)
  }

  /** The level field carries exactly 0 to 9999. */
  lemma LevelRoundTrip(v: nat)
    ensures DecodeBcd2(EncodeBcd2(v)) == Some(v) <==> v <= 9999
  {
    hide BcdByte, UnbcdByte, IsBcd;
    FieldRoundTrip(EncodeBcd2(v));
    if v <= 9999 {
      ByteRoundTrip(v / 100, 0);
      ByteRoundTrip(v % 100, 0);
    } else {
      hide DecodeBcd2, EncodeBcd2;
    }
  }

  /** It reads back every field it accepts, and refuses anything that is not all digits. */
  lemma FieldRoundTrip(b: seq<Byte>)
    ensures DecodeBcd2(b).Some? <==> |b| == 2 && IsBcd(b[0]) && IsBcd(b[1])
    ensures DecodeBcd2(b).Some? ==> DecodeBcd2(b).value <= 9999 && EncodeBcd2(DecodeBcd2(b).value) == b
  {
    if |b| == 2 {
      ByteRoundTrip(0, b[0]);
      ByteRoundTrip(0, b[1]);
      if IsBcd(b[0]) && IsBcd(b[1]) {
        TwoDigits(UnbcdByte(b[0]).value, UnbcdByte(b[1]).value);
      }
      hide BcdByte;
    }
  }

  /** A level field is read from the thousands down. */
  lemma LevelSays(b: seq<Byte>)
    requires |b| == 2 && IsBcd(b[0]) && IsBcd(b[1])
    ensures var hi: nat, lo: nat := b[0], b[1];
      DecodeBcd2(b) == Some(1000 * (hi / 16) + 100 * (hi % 16) + 10 * (lo / 16) + lo % 16)
  {
    hide IsBcd;
    var hi: nat, lo: nat := b[0], b[1];
    assert UnbcdByte(b[0]) == Some(hi / 16 * 10 + hi % 16) && UnbcdByte(b[1]) == Some(lo / 16 * 10 + lo % 16);
  }

  lemma TwoDigits(hi: nat, lo: nat)
    requires hi < 100 && lo < 100
    ensures (hi * 100 + lo) / 100 == hi && (hi * 100 + lo) % 100 == lo
  {}

  // ---- the frequency field, least significant first ----

  predicate AllBcd(b: seq<Byte>) { forall i :: 0 <= i < |b| ==> IsBcd(b[i]) }

  /** What a field of digits says. */
  function ValueOf(b: seq<Byte>): nat {
    if b == [] then 0 else b[0] / 16 * 10 + b[0] % 16 + 100 * ValueOf(b[1..])
  }

  function Pow100(n: nat): nat { if n == 0 then 1 else 100 * Pow100(n - 1) }

  /** encodeFrequency: refused above the width's limit, and otherwise the field that says hz. */
  method EncodeFrequency(hz: nat, wide: bool) returns (r: Option<seq<Byte>>)
    ensures r.None? <==> hz > if wide then WIDE_MAX_FREQUENCY else MAX_FREQUENCY
    ensures r.Some? ==>
      |r.value| == (if wide then FREQ_BYTES_WIDE else FREQ_BYTES) && AllBcd(r.value) && ValueOf(r.value) == hz
  {
    var n, limit := FREQ_BYTES, MAX_FREQUENCY;
    if wide { n, limit := FREQ_BYTES_WIDE, WIDE_MAX_FREQUENCY; }
    if hz > limit { return None; }
    PowersOf100();
    hide ValueOf, IsBcd, Pow100;
    assert ValueOf([]) == 0 by { ValueNone(); }
    var out := new Byte[n];
    var left: nat := hz;
    for i := 0 to n
      invariant forall k :: 0 <= k < i ==> IsBcd(out[k])
      invariant left < Pow100(n - i)
      invariant hz == ValueOf(out[..i]) + Pow100(i) * left
    {
      PairOut(out[..i], left, n - i);
      ghost var before := out[..i];
      var lo := left % 10;
      left := left / 10;
      var hi := left % 10;
      left := left / 10;
      out[i] := hi * 16 + lo;
      assert out[..i + 1] == before + [out[i]];
    }
    assert out[..n] == out[..];
    r := Some(out[..]);
  }

  lemma PowersOf100()
    ensures Pow100(0) == 1 && Pow100(5) == MAX_FREQUENCY + 1 && Pow100(6) == WIDE_MAX_FREQUENCY + 1
  {
    assert Pow100(1) == 100 && Pow100(2) == 10_000 && Pow100(3) == 1_000_000 && Pow100(4) == 100_000_000;
  }

  /** Two digits go out: what the field says and what is left to say stay the same number. */
  lemma PairOut(before: seq<Byte>, was: nat, more: nat)
    requires more > 0
    ensures var (hi, lo, left) := (was / 10 % 10, was % 10, was / 10 / 10); var x: Byte := hi * 16 + lo;
      && IsBcd(x)
      && ValueOf(before + [x]) + Pow100(|before| + 1) * left == ValueOf(before) + Pow100(|before|) * was
      && (was < Pow100(more) ==> left < Pow100(more - 1))
  {
    var (hi, lo, left) := (was / 10 % 10, was % 10, was / 10 / 10);
    LowPair(was);
    PairIsByte(hi, lo);
    ValuePush(before, hi * 16 + lo);
    DigitsOut(Pow100(|before|), hi, lo, left);
    hide ValueOf, IsBcd;
  }

  lemma LowPair(v: nat)
    ensures v == 100 * (v / 10 / 10) + 10 * (v / 10 % 10) + v % 10
  {}

  lemma PairIsByte(hi: nat, lo: nat)
    requires hi <= 9 && lo <= 9
    ensures var x: Byte := hi * 16 + lo; IsBcd(x) && x / 16 * 10 + x % 16 == hi * 10 + lo
  {
    Nibbles(hi, lo);
  }

  lemma DigitsOut(p: nat, hi: nat, lo: nat, left: nat)
    ensures p * (100 * left + 10 * hi + lo) == p * (hi * 10 + lo) + 100 * p * left
  {}

  lemma {:induction false} ValuePush(b: seq<Byte>, x: Byte)
    ensures ValueOf(b + [x]) == ValueOf(b) + Pow100(|b|) * (x / 16 * 10 + x % 16)
  {
    if b == [] {
      assert [x][1..] == [] && [] + [x] == [x];
    } else {
      assert (b + [x])[1..] == b[1..] + [x];
      ValuePush(b[1..], x);
      Carry(Pow100(|b| - 1), x / 16 * 10 + x % 16);
    }
  }

  lemma Carry(p: nat, d: nat)
    ensures 100 * (p * d) == 100 * p * d
  {}

  /** decodeFrequency: a field of either width, if every nibble is a digit, and what it says. */
  method DecodeFrequency(b: seq<Byte>) returns (r: Option<nat>)
    ensures r.Some? <==> (|b| == FREQ_BYTES || |b| == FREQ_BYTES_WIDE) && AllBcd(b)
    ensures r.Some? ==> r.value == ValueOf(b)
  {
    if |b| != FREQ_BYTES && |b| != FREQ_BYTES_WIDE { return None; }
    var hz := 0;
    var i := |b|;
    while i > 0
      invariant 0 <= i <= |b|
      invariant forall k :: i <= k < |b| ==> IsBcd(b[k])
      invariant hz == ValueOf(b[i..])
    {
      i := i - 1;
      var v := UnbcdByte(b[i]);
      if v.None? { return None; }
      assert b[i..][1..] == b[i + 1..];
      hz := hz * 100 + v.value;
    }
    assert b[0..] == b;
    r := Some(hz);
  }

  /** A field of digits says a number its width can hold, and no other field of that width says
      it. So whatever the radio sends, decoding it and encoding the result gives it back. */
  lemma {:induction false} FieldsAreCanonical(b: seq<Byte>, c: seq<Byte>)
    requires AllBcd(b) && AllBcd(c) && |b| == |c|
    ensures ValueOf(b) < Pow100(|b|)
    ensures ValueOf(b) == ValueOf(c) <==> b == c
  {
    hide ValueOf, IsBcd, UnbcdByte, BcdByte;
    if b == [] {
      ValueNone();
    } else {
      FieldsAreCanonical(b[1..], c[1..]);
      ValueCons(b);
      ValueCons(c);
      LowDigits(UnbcdByte(b[0]).value, ValueOf(b[1..]), UnbcdByte(c[0]).value, ValueOf(c[1..]));
      assert b == [b[0]] + b[1..] && c == [c[0]] + c[1..];
    }
  }

  lemma ValueNone()
    ensures ValueOf([]) == 0
  {}

  lemma ValueCons(b: seq<Byte>)
    requires b != [] && IsBcd(b[0])
    ensures UnbcdByte(b[0]).Some? && UnbcdByte(b[0]).value < 100 && BcdByte(UnbcdByte(b[0]).value) == b[0]
    ensures ValueOf(b) == UnbcdByte(b[0]).value + 100 * ValueOf(b[1..])
  {
    ByteRoundTrip(0, b[0]);
  }

  lemma LowDigits(x: nat, p: nat, y: nat, q: nat)
    requires x < 100 && y < 100
    ensures x + 100 * p == y + 100 * q <==> x == y && p == q
  {}

  /** Encoding then decoding gives the frequency back, and decoding then encoding the field, for
      every frequency and every field of either width. */
  method RoundTrip(hz: nat, wide: bool, field: seq<Byte>) returns (decoded: Option<nat>, encoded: Option<seq<Byte>>)
    ensures hz <= (if wide then WIDE_MAX_FREQUENCY else MAX_FREQUENCY) ==> decoded == Some(hz)
    ensures (|field| == FREQ_BYTES || |field| == FREQ_BYTES_WIDE) && AllBcd(field) ==> encoded == Some(field)
  {
    var f := EncodeFrequency(hz, wide);
    decoded := None;
    if f.Some? { decoded := DecodeFrequency(f.value); }
    var v := DecodeFrequency(field);
    encoded := None;
    if v.Some? {
      FieldsAreCanonical(field, field);
      PowersOf100();
      encoded := EncodeFrequency(v.value, |field| == FREQ_BYTES_WIDE);
      if encoded.Some? { FieldsAreCanonical(field, encoded.value); }
    }
  }

  // ---- which digit stands where ----

  /** The ith pair of decimal digits, from the ones up. */
  function DigitPair(v: nat, i: nat): nat { if i == 0 then v % 100 else DigitPair(v / 100, i - 1) }

  /** A frequency field holds the decimal digits from the ones up, two to a byte, and in a byte the
      lower digit in the lower half. */
  lemma {:induction false} DigitsInOrder(b: seq<Byte>, i: nat)
    requires AllBcd(b) && i < |b|
    ensures DigitPair(ValueOf(b), i) == 10 * (b[i] / 16) + b[i] % 16
    ensures DigitPair(ValueOf(b), i) % 10 == b[i] % 16 && DigitPair(ValueOf(b), i) / 10 == b[i] / 16
  {
    assert IsBcd(b[i]) && IsBcd(b[0]);
    var low := b[0] / 16 * 10 + b[0] % 16;
    assert ValueOf(b) == low + 100 * ValueOf(b[1..]) && low < 100;
    hide ValueOf;
    if i > 0 {
      assert (low + 100 * ValueOf(b[1..])) / 100 == ValueOf(b[1..]);
      DigitsInOrder(b[1..], i - 1);
    }
  }

  /** 14.025678 MHz, as it goes over the wire. */
  lemma FrequencyExample()
    ensures ValueOf([0x78, 0x56, 0x02, 0x14, 0x00]) == 14_025_678
  {
    var b: seq<Byte> := [0x78, 0x56, 0x02, 0x14, 0x00];
    assert b[1..] == [0x56, 0x02, 0x14, 0x00] && b[1..][1..] == [0x02, 0x14, 0x00];
    assert b[1..][1..][1..] == [0x14, 0x00] && b[1..][1..][1..][1..] == [0x00] && b[1..][1..][1..][1..][1..] == [];
    assert ValueOf(b[1..][1..][1..][1..]) == 0;
    assert ValueOf(b[1..][1..]) == 1402;
  }
}
