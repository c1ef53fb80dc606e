/** The chain-id codec. A chain id (what `eth_chainId` reports, EIP-695) reaches
    the bridge as text: a 0x-prefixed hexadecimal quantity, or sometimes plain
    decimal. The Android bridge reads it with kotlin's `String.toLong(radix)`,
    the iOS bridge with Swift's `Int(_:radix:)`; both accept an optional sign
    followed by one or more digits of the radix and refuse a value outside the
    signed 64-bit range. */
module ChainId {
  import opened Common

  const MinLong: int := -0x8000_0000_0000_0000
  const MaxLong: int := 0x7fff_ffff_ffff_ffff
  const MinInt: int := -0x8000_0000
  const MaxInt: int := 0x7fff_ffff
  const TwoTo32: int := 0x1_0000_0000

  predicate InLong(n: int) { MinLong <= n <= MaxLong }
  predicate InInt(n: int) { MinInt <= n <= MaxInt }

  type Radix = r: nat | 2 <= r <= 36 witness 10

  /** The digit a character stands for, in any radix up to 36 (ASCII only). */
  function DigitValue(c: char): Option<nat> {
    if '0' <= c <= '9' then Some(c as nat - '0' as nat)
    else if 'a' <= c <= 'z' then Some(c as nat - 'a' as nat + 10)
    else if 'A' <= c <= 'Z' then Some(c as nat - 'A' as nat + 10)
    else None
  }

  predicate IsDigit(c: char, radix: Radix) {
    DigitValue(c).Some? && DigitValue(c).value < radix
  }

  predicate AllDigits(ds: string, radix: Radix) {
    forall i :: 0 <= i < |ds| ==> IsDigit(ds[i], radix)
  }

  /** The number a run of digits denotes, most significant digit first (only
      read where every character is a digit of the radix). */
  function Magnitude(ds: string, radix: Radix): nat {
    if |ds| == 0 then 0
    else Magnitude(ds[..|ds| - 1], radix) * radix + DigitValue(ds[|ds| - 1]).GetOr(0)
  }

  /** `String.toLong(radix)` (java.lang.Long.parseLong) and Swift's
      `Int(_:radix:)` on a 64-bit platform: None is the NumberFormatException
      or the nil result. */
  function ParseLong(s: string, radix: Radix): (r: Option<int>)
    ensures r.Some? ==> InLong(r.value)
    ensures r.Some? ==> |s| > 0 && IsDigit(s[|s| - 1], radix)
  {
    var negative := |s| > 0 && s[0] == '-';
    var digits := if |s| > 0 && (s[0] == '-' || s[0] == '+') then s[1..] else s;
    if |digits| == 0 || !AllDigits(digits, radix) then None
    else
      var m: int := Magnitude(digits, radix);
      var n: int := if negative then -m else m;
      if InLong(n) then Some(n) else None
  }

  /** The Android bridge's reading of a chain id: a `0x` or `0X` prefix selects
      base 16 for the rest of the text, anything else is read in base 10. */
  function ParseChainId(s: string): (n: Option<int>)
    ensures n.Some? ==> InLong(n.value)
  {
    if StartsWith(s, "0x") || StartsWith(s, "0X") then ParseLong(s[2..], 16)
    else ParseLong(s, 10)
  }

  /** Kotlin's `Long.toInt()`: keeps the low 32 bits, read as two's complement. */
  function ToInt(v: int): (r: int)
    ensures InInt(r)
    ensures (r - v) % TwoTo32 == 0
    ensures InInt(v) ==> r == v
  {
    (v - MinInt) % TwoTo32 + MinInt
  }

  /** Swift's `replacingOccurrences(of: "0x", with: "")`: every occurrence,
      found left to right without overlap, is removed; the text produced by a
      removal is not searched again. */
  function RemoveHexMarkers(s: string): (r: string)
    ensures |r| <= |s|
    ensures !Contains(s, "0x") ==> r == s
  {
    if |s| < 2 then s
    else if s[..2] == "0x" then
      assert OccursAt(s, "0x", 0);
      RemoveHexMarkers(s[2..])
    else
      NoMarkerInTail(s);
      [s[0]] + RemoveHexMarkers(s[1..])
  }

  lemma NoMarkerInTail(s: string)
    requires |s| >= 1
    ensures Contains(s[1..], "0x") ==> Contains(s, "0x")
  {
    if Contains(s[1..], "0x") {
      var i :| 0 <= i <= |s[1..]| && OccursAt(s[1..], "0x", i);
      assert s[i + 1..i + 3] == s[1..][i..i + 2];
      assert OccursAt(s, "0x", i + 1);
    }
  }

  /** The iOS bridge's reading of a chain id: every "0x" is removed and what is
      left is read in base 16, whatever it looks like. */
  function IosParseChainId(s: string): (n: Option<int>)
    ensures n.Some? ==> InLong(n.value)
  {
    ParseLong(RemoveHexMarkers(s), 16)
  }

  // ---------------------------------------------------------------------
  // Rendering, the reference the parsers are measured against.

  /** The lowercase digit character for a digit value. */
  function DigitChar(d: nat): (c: char)
    requires d < 36
    ensures DigitValue(c) == Some(d)
  {
    if d < 10 then ('0' as nat + d) as char else ('a' as nat + d - 10) as char
  }

  /** The canonical rendering of `n` in `radix`, without sign or leading zeros:
      `ToDigits(n, 16)` is the hex quantity of EIP-695 without its `0x`. */
  function ToDigits(n: nat, radix: Radix): (ds: string)
    ensures |ds| > 0
    ensures AllDigits(ds, radix)
    decreases n
  {
    (if n < radix then "" else ToDigits(n / radix, radix)) + [DigitChar(n % radix)]
  }

  /** The rendered digits denote the number rendered. */
  lemma {:induction false} MagnitudeOfDigits(n: nat, radix: Radix)
    ensures Magnitude(ToDigits(n, radix), radix) == n
    decreases n
  {
    var q, d := n / radix, n % radix;
    var front := if n < radix then "" else ToDigits(q, radix);
    assert Magnitude(front, radix) == q by {
      if n >= radix {
        DivMod(n, radix);
        MagnitudeOfDigits(q, radix);
      }
    }
    assert ToDigits(n, radix) == front + [DigitChar(d)];
    MagnitudeSnoc(front, d, radix);
    DivMod(n, radix);
  }

  /** Appending a digit multiplies by the radix and adds the digit. */
  lemma MagnitudeSnoc(front: string, d: nat, radix: Radix)
    requires d < radix
    ensures Magnitude(front + [DigitChar(d)], radix) == Magnitude(front, radix) * radix + d
  {
    var ds := front + [DigitChar(d)];
    assert ds[..|ds| - 1] == front;
  }

  lemma DivMod(n: nat, r: Radix)
    ensures n == (n / r) * r + n % r
    ensures n >= r ==> n / r < n
  {
  }

  lemma DigitsHaveNoSign(n: nat, radix: Radix)
    ensures ToDigits(n, radix)[0] != '-' && ToDigits(n, radix)[0] != '+'
  {
    assert IsDigit(ToDigits(n, radix)[0], radix);
  }

  /** Reading back a rendered number gives it back when it fits in a Long and
      is refused (NumberFormatException) when it does not. */
  lemma ParseLongRoundTrip(n: nat, radix: Radix)
    ensures ParseLong(ToDigits(n, radix), radix) == if n <= MaxLong then Some(n) else None
  {
    DigitsHaveNoSign(n, radix);
    MagnitudeOfDigits(n, radix);
  }

  /** A hex chain id and the decimal rendering of the same number read alike:
      all three give the number back when it fits in a Long, and all three
      refuse it otherwise. */
  lemma HexAndDecimalAgree(n: nat)
    ensures ParseChainId("0x" + ToDigits(n, 16)) == if n <= MaxLong then Some(n) else None
    ensures ParseChainId("0X" + ToDigits(n, 16)) == ParseChainId("0x" + ToDigits(n, 16))
    ensures ParseChainId(ToDigits(n, 10)) == ParseChainId("0x" + ToDigits(n, 16))
  {
    var h := ToDigits(n, 16);
    ParseLongRoundTrip(n, 16);
    assert StartsWith("0x" + h, "0x") && ("0x" + h)[2..] == h;
    assert StartsWith("0X" + h, "0X") && ("0X" + h)[2..] == h;
    DecimalHasNoPrefix(n);
    ParseLongRoundTrip(n, 10);
  }

  lemma DecimalHasNoPrefix(n: nat)
    ensures !StartsWith(ToDigits(n, 10), "0x") && !StartsWith(ToDigits(n, 10), "0X")
  {
    var d := ToDigits(n, 10);
    if |d| >= 2 {
      assert IsDigit(d[1], 10);
      assert d[..2][1] == d[1];
    }
  }

  /** Text that is not a number is refused, the bare prefix included. */
  lemma MalformedChainIdsRefused()
    ensures ParseChainId("") == None
    ensures ParseChainId("0x") == None
    ensures ParseChainId("0xzz") == None
    ensures ParseChainId("-") == None
  {
    assert StartsWith("0xzz", "0x");
    assert !IsDigit('z', 16);
  }

  /** A `0x` quantity and an unprefixed signed value: the sign is read after the
      prefix too, so `0x-1` is minus one. */
  lemma SignAfterPrefix()
    ensures ParseChainId("0x-1") == Some(-1)
    ensures ParseChainId("+10") == Some(10)
  {
    assert StartsWith("0x-1", "0x");
    assert ("0x-1")[2..] == "-1";
    assert "1"[..0] == "";
    assert ("+10")[1..] == "10" && ("-1")[1..] == "1";
    assert "10"[..1] == "1";
    assert Magnitude("10", 10) == 10;
    assert Magnitude("1", 16) == 1;
  }

  /** The iOS reading agrees with the Android one on a canonical hex quantity. */
  lemma IosReadsHexQuantity(n: nat)
    ensures IosParseChainId("0x" + ToDigits(n, 16)) == ParseChainId("0x" + ToDigits(n, 16))
  {
    var ds := ToDigits(n, 16);
    NoMarkerInHexDigits(ds);
    assert ("0x" + ds)[..2] == "0x" && ("0x" + ds)[2..] == ds;
    assert StartsWith("0x" + ds, "0x");
  }

  lemma NoMarkerInHexDigits(ds: string)
    requires AllDigits(ds, 16)
    ensures !Contains(ds, "0x")
  {
    forall i | 0 <= i <= |ds| ensures !OccursAt(ds, "0x", i) {
      if i + 2 <= |ds| {
        assert IsDigit(ds[i + 1], 16);
        assert ds[i..i + 2][1] == ds[i + 1];
      }
    }
  }

  /** Where the two platforms part: iOS reads decimal text as hex. */
  lemma IosReadsDecimalAsHex()
    ensures ParseChainId("10") == Some(10) && IosParseChainId("10") == Some(16)
  {
    assert "10"[..1] == "1";
    assert RemoveHexMarkers("10") == "10" by {
      assert ("10")[..2] != "0x" && ("10")[1..] == "0";
    }
    assert Magnitude("10", 10) == 10;
    assert Magnitude("10", 16) == 16;
  }

  /** iOS does not know the `0X` prefix. */
  lemma IosRefusesUpperPrefix()
    ensures ParseChainId("0X1") == Some(1) && IosParseChainId("0X1") == None
  {
    assert StartsWith("0X1", "0X") && ("0X1")[2..] == "1";
    assert Magnitude("1", 16) == 1;
    assert RemoveHexMarkers("0X1") == "0X1" by {
      assert ("0X1")[..2] != "0x" && ("0X1")[1..] == "X1";
      assert ("X1")[..2] != "0x" && ("X1")[1..] == "1";
    }
    assert !IsDigit("0X1"[1], 16);
  }

  /** iOS removes a `0x` found in the middle of the text. */
  lemma IosRemovesInnerMarker()
    ensures ParseChainId("10x1") == None && IosParseChainId("10x1") == Some(17)
  {
    assert !IsDigit("10x1"[2], 10);
    assert RemoveHexMarkers("10x1") == "11" by {
      assert ("10x1")[..2] != "0x" && ("10x1")[1..] == "0x1";
      assert ("0x1")[..2] == "0x" && ("0x1")[2..] == "1";
    }
    assert "11"[..1] == "1";
    assert Magnitude("11", 16) == 17;
  }
}
