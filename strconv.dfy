/**
 * The two decimal parsers of Go's strconv package that the handlers call on path parameters:
 * ParseUint(s, 10, 64) for order and user ids, ParseInt(s, 10, 32) for dish ids.
 * Base 10 admits no underscores and no base prefix; ParseInt alone admits one leading sign.
 */
module Strconv {
  import opened Base

  predicate IsDigit(ch: char) { '0' <= ch <= '9' }

  predicate AllDigits(s: string) { forall i :: 0 <= i < |s| ==> IsDigit(s[i]) }

  /** Value of a run of decimal digits, most significant first (leading zeros allowed). */
  function DigitsValue(s: string): nat
    requires AllDigits(s)
  {
    if s == [] then 0 else DigitsValue(s[..|s| - 1]) * 10 + (s[|s| - 1] as int - '0' as int)
  }

  function Pow2(n: nat): (r: nat)
    ensures r >= 1
  {
    if n == 0 then 1 else 2 * Pow2(n - 1)
  }

  predicate ValidBitSize(bitSize: int) { 0 <= bitSize <= 64 }

  /** A bit size of 0 stands for the platform's int size, 64 bits. */
  function EffectiveBits(bitSize: int): (b: nat)
    requires ValidBitSize(bitSize)
    ensures 1 <= b <= 64
  {
    if bitSize == 0 then 64 else bitSize
  }

  /** strconv.ParseUint(s, 10, bitSize): None for a syntax, range or bit-size error. */
  function ParseUint(s: string, bitSize: int): (r: Option<nat>)
    ensures r.Some? <==> s != [] && AllDigits(s) && ValidBitSize(bitSize)
                         && DigitsValue(s) < Pow2(EffectiveBits(bitSize))
    ensures r.Some? ==> r.value == DigitsValue(s)
  {
    if s == [] || !AllDigits(s) || !ValidBitSize(bitSize) then None
    else if DigitsValue(s) < Pow2(EffectiveBits(bitSize)) then Some(DigitsValue(s))
    else None
  }

  /** strconv.ParseUint(s, 10, 64), the form every order and user id goes through. */
  function ParseUint64(s: string): (r: Option<UInt64>)
    ensures r.Some? <==> s != [] && AllDigits(s) && DigitsValue(s) < 0x1_0000_0000_0000_0000
    ensures r.Some? ==> r.value == DigitsValue(s)
  {
    Pow2At64();
    match ParseUint(s, 64)
    case None => None
    case Some(v) => Some(v)
  }

  /** Splits off the one sign character that ParseInt admits. */
  function SignAndDigits(s: string): (bool, string)
    requires s != []
  {
    if s[0] == '-' then (true, s[1..])
    else if s[0] == '+' then (false, s[1..])
    else (false, s)
  }

  /**
   * strconv.ParseInt(s, 10, bitSize): an optional sign, then digits whose value lies in
   * [-2^(bits-1), 2^(bits-1) - 1]; None for a syntax, range or bit-size error.
   */
  function ParseInt(s: string, bitSize: int): (r: Option<int>)
    ensures r.Some? ==> s != [] && ValidBitSize(bitSize)
                        && -(Pow2(EffectiveBits(bitSize) - 1) as int) <= r.value < Pow2(EffectiveBits(bitSize) - 1)
  {
    if s == [] || !ValidBitSize(bitSize) then None
    else
      var (neg, digits) := SignAndDigits(s);
      if digits == [] || !AllDigits(digits) then None
      else
        var un := DigitsValue(digits);
        var cutoff := Pow2(EffectiveBits(bitSize) - 1);
        if !neg && un >= cutoff then None
        else if neg && un > cutoff then None
        else
          var v: int := if neg then -(un as int) else un;
          Some(v)
  }

  lemma Pow2At64()
    ensures Pow2(64) == 0x1_0000_0000_0000_0000
  {
    assert Pow2(8) == 256;
    Pow2Add(8, 8);
    assert Pow2(16) == 256 * 256 == 0x1_0000;
    Pow2Add(16, 16);
    assert Pow2(32) == 0x1_0000 * 0x1_0000 == 0x1_0000_0000;
    Pow2Add(32, 32);
    assert Pow2(64) == 0x1_0000_0000 * 0x1_0000_0000;
  }

  lemma Pow2At31()
    ensures Pow2(31) == 0x8000_0000
  {
    assert Pow2(7) == 128;
    assert Pow2(8) == 256;
    Pow2Add(8, 8);
    assert Pow2(16) == 256 * 256;
    Pow2Add(8, 7);
    assert Pow2(15) == 256 * 128;
    Pow2Add(16, 15);
    assert Pow2(31) == 0x1_0000 * 0x8000;
  }

  lemma {:induction false} Pow2Add(a: nat, b: nat)
    ensures Pow2(a + b) == Pow2(a) * Pow2(b)
  {
    if a > 0 {
      Pow2Add(a - 1, b);
    }
  }

  /** The digit character for 0 <= d < 10. */
  function DigitChar(d: nat): char
    requires d < 10
  {
    ('0' as int + d) as char
  }

  /** The canonical decimal form of n, as strconv.FormatUint(n, 10) writes it. */
  function FormatNat(n: nat): (s: string)
    ensures s != [] && AllDigits(s)
  {
    if n < 10 then [DigitChar(n)] else FormatNat(n / 10) + [DigitChar(n % 10)]
  }

  /** strconv.FormatInt(v, 10). */
  function FormatInt(v: int): string
  {
    if v < 0 then "-" + FormatNat(-v) else FormatNat(v)
  }

  lemma {:induction false} DigitsValueOfFormat(n: nat)
    ensures DigitsValue(FormatNat(n)) == n
  {
    var s := FormatNat(n);
    if n >= 10 {
      DigitsValueOfFormat(n / 10);
      assert s[..|s| - 1] == FormatNat(n / 10);
    }
  }

  /** ParseUint64 reads back every canonical decimal form of a uint64. */
  lemma ParseUint64Format(n: UInt64)
    ensures ParseUint64(FormatNat(n)) == Some(n)
  {
    DigitsValueOfFormat(n);
  }

  /** ParseInt(_, 32) reads back the decimal form of every int32, negative ones included. */
  lemma ParseInt32Format(v: Int32)
    ensures ParseInt(FormatInt(v), 32) == Some(v)
  {
    Pow2At31();
    if v < 0 {
      var m: nat := -(v as int);
      DigitsValueOfFormat(m);
      assert SignAndDigits(FormatInt(v)) == (true, FormatNat(m));
    } else {
      DigitsValueOfFormat(v);
      assert FormatNat(v)[0] != '-' && FormatNat(v)[0] != '+';
    }
  }

  /** A 32-bit parse admits exactly the int32 range. */
  lemma ParseInt32Range(s: string)
    ensures ParseInt(s, 32).Some? ==> -0x8000_0000 <= ParseInt(s, 32).value < 0x8000_0000
  {
    Pow2At31();
  }

  /** ParseUint64 refuses any sign, and the empty string; ParseInt admits one leading '+'. */
  lemma SignHandling()
    ensures ParseUint64("+7") == None && ParseUint64("-7") == None && ParseUint64("") == None
    ensures ParseInt("+7", 32) == Some(7) && ParseInt("-7", 32) == Some(-7)
  {
    assert !IsDigit('+') && !IsDigit('-');
    assert DigitsValue("7") == 7;
  }

  /** The first value past each range is refused. */
  lemma RangeLimits()
    ensures ParseUint64(FormatNat(0x1_0000_0000_0000_0000)) == None
    ensures ParseInt(FormatNat(0x8000_0000), 32) == None
    ensures ParseInt(FormatInt(-0x8000_0001), 32) == None
  {
    Pow2At31();
    DigitsValueOfFormat(0x1_0000_0000_0000_0000);
    DigitsValueOfFormat(0x8000_0000);
    DigitsValueOfFormat(0x8000_0001);
    assert FormatNat(0x8000_0000)[0] != '-' && FormatNat(0x8000_0000)[0] != '+';
    assert SignAndDigits(FormatInt(-0x8000_0001)) == (true, FormatNat(0x8000_0001));
  }
}
