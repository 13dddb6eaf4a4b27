/** How the wizard reads a number typed by the user: every leading "0x" is
    stripped (`trim_start_matches("0x")`) and the rest is read as a
    hexadecimal `u64` (`u64::from_str_radix(_, 16)`).  The second is the Rust
    standard library's documented behaviour: an optional leading '+', then
    one or more hexadecimal digits of either case, and a value that fits. */
module HexInput {
  import opened Common

  /** Removes every leading occurrence of "0x". */
  function TrimHexPrefixes(s: string): (t: string)
    ensures |t| <= |s|
    ensures !(|t| >= 2 && t[0] == '0' && t[1] == 'x')
    decreases |s|
  {
    if |s| >= 2 && s[0] == '0' && s[1] == 'x' then TrimHexPrefixes(s[2..]) else s
  }

  predicate IsHexDigit(c: char) {
    '0' <= c <= '9' || 'a' <= c <= 'f' || 'A' <= c <= 'F'
  }

  function DigitValue(c: char): (d: nat)
    requires IsHexDigit(c)
    ensures d < 16
  {
    if '0' <= c <= '9' then c as int - '0' as int
    else if 'a' <= c <= 'f' then c as int - 'a' as int + 10
    else c as int - 'A' as int + 10
  }

  predicate AllHexDigits(s: string) {
    forall i :: 0 <= i < |s| ==> IsHexDigit(s[i])
  }

  /** The value of a string of hexadecimal digits, most significant first. */
  function HexValue(s: string): nat
    requires AllHexDigits(s)
  {
    if s == [] then 0 else HexValue(s[..|s| - 1]) * 16 + DigitValue(s[|s| - 1])
  }

  /** The digits after an optional leading '+'. */
  function Unsigned(s: string): string {
    if |s| > 0 && s[0] == '+' then s[1..] else s
  }

  /** `u64::from_str_radix(s, 16)`, with `None` for any error: an empty
      string, a lone '+', a character that is not a hexadecimal digit (a '-'
      included), or a value of 2^64 or more. */
  function ParseHexU64(s: string): (r: Option<u64>)
    ensures s == [] ==> r.None?
  {
    var digits := Unsigned(s);
    if digits != [] && AllHexDigits(digits) && HexValue(digits) < U64_LIMIT
    then Some(HexValue(digits))
    else None
  }

  /** What every wizard step does with a typed number. */
  function ParseUserHex(raw: string): Option<u64> {
    ParseHexU64(TrimHexPrefixes(raw))
  }

  // A reference printer whose output the parser reads back.

  function HexDigit(d: nat): (c: char)
    requires d < 16
    ensures IsHexDigit(c) && DigitValue(c) == d
  {
    if d < 10 then ('0' as int + d) as char else ('a' as int + d - 10) as char
  }

  /** `v` in lower-case hexadecimal without leading zeros ("0" for zero). */
  function ToHex(v: nat): (s: string)
    ensures s != [] && AllHexDigits(s)
    ensures |s| == 1 || s[0] != '0'
  {
    if v < 16 then [HexDigit(v)] else ToHex(v / 16) + [HexDigit(v % 16)]
  }

  /** `k` copies of "0x". */
  function HexPrefixes(k: nat): (p: string)
    ensures |p| == 2 * k
  {
    if k == 0 then "" else "0x" + HexPrefixes(k - 1)
  }

  /** One more "0x" in front of `k` of them. */
  lemma PrependPrefix(k: nat, t: string)
    ensures "0x" + (HexPrefixes(k) + t) == HexPrefixes(k + 1) + t
  {
  }

  lemma {:induction false} HexValueOfToHex(v: nat)
    ensures HexValue(ToHex(v)) == v
  {
    if v >= 16 {
      var s := ToHex(v);
      assert s[..|s| - 1] == ToHex(v / 16);
      HexValueOfToHex(v / 16);
    }
  }

  /** The parser reads back every `u64` the printer writes. */
  lemma ParseHexU64OfToHex(v: u64)
    ensures ParseHexU64(ToHex(v)) == Some(v)
  {
    HexValueOfToHex(v);
  }

  /** What is removed is exactly the leading run of "0x": the input is
      that many copies of "0x" followed by the result. */
  lemma {:induction false} TrimHexPrefixesRemovesPrefixes(s: string)
    ensures (|s| - |TrimHexPrefixes(s)|) % 2 == 0
    ensures s == HexPrefixes((|s| - |TrimHexPrefixes(s)|) / 2) + TrimHexPrefixes(s)
    decreases |s|
  {
    var t := TrimHexPrefixes(s);
    if |s| >= 2 && s[0] == '0' && s[1] == 'x' {
      var rest := s[2..];
      assert t == TrimHexPrefixes(rest);
      TrimHexPrefixesRemovesPrefixes(rest);
      assert s == "0x" + rest;
      PrependPrefix((|rest| - |t|) / 2, t);
    } else {
      assert HexPrefixes(0) + s == s;
    }
  }

  lemma {:induction false} TrimHexPrefixesAfterPrefixes(k: nat, s: string)
    ensures TrimHexPrefixes(HexPrefixes(k) + s) == TrimHexPrefixes(s)
  {
    if k == 0 {
      assert HexPrefixes(k) + s == s;
    } else {
      var rest := HexPrefixes(k - 1) + s;
      PrependPrefix(k - 1, s);
      var t := "0x" + rest;
      assert t[0] == '0' && t[1] == 'x' && t[2..] == rest;
      TrimHexPrefixesAfterPrefixes(k - 1, s);
    }
  }

  /** A typed number is accepted, with its value, however many "0x"
      prefixes come before its hexadecimal digits. */
  lemma AcceptsPrefixedHex(k: nat, v: u64)
    ensures ParseUserHex(HexPrefixes(k) + ToHex(v)) == Some(v)
  {
    TrimHexPrefixesAfterPrefixes(k, ToHex(v));
    ParseHexU64OfToHex(v);
  }

  /** Prefixes alone are refused: nothing is left to read. */
  lemma RejectsBarePrefixes(k: nat)
    ensures ParseUserHex(HexPrefixes(k)) == None
  {
    TrimHexPrefixesAfterPrefixes(k, "");
    assert HexPrefixes(k) + "" == HexPrefixes(k);
  }

  /** A digit string whose value does not fit in 64 bits is refused. */
  lemma RejectsOverflow(d: string)
    requires d != [] && AllHexDigits(d) && HexValue(d) >= U64_LIMIT
    ensures ParseHexU64(d) == None
  {
    assert d[0] != '+';
  }

  lemma {:induction false} LeadingZeroValue(d: string)
    requires AllHexDigits(d)
    ensures AllHexDigits("0" + d) && HexValue("0" + d) == HexValue(d)
    decreases |d|
  {
    var z := "0" + d;
    assert AllHexDigits(z) by {
      forall i | 0 <= i < |z| ensures IsHexDigit(z[i]) {
        if i > 0 { assert z[i] == d[i - 1]; }
      }
    }
    if d != [] {
      var front := d[..|d| - 1];
      assert z[..|z| - 1] == "0" + front;
      assert z[|z| - 1] == d[|d| - 1];
      LeadingZeroValue(front);
    }
  }

  /** Leading zeros are accepted and do not change the value. */
  lemma AcceptsLeadingZero(d: string)
    requires d != [] && AllHexDigits(d)
    ensures ParseHexU64("0" + d) == ParseHexU64(d)
  {
    LeadingZeroValue(d);
    assert d[0] != '+';
  }

  /** Upper-case and lower-case digits are read alike. */
  lemma AcceptsEitherCase()
    ensures ParseHexU64("Ab") == ParseHexU64("aB") == Some(0xAB)
  {
    assert "Ab"[..1] == "A" && "aB"[..1] == "a";
    assert AllHexDigits("Ab") && HexValue("Ab") == HexValue("A") * 16 + 11 == 0xAB;
    assert AllHexDigits("aB") && HexValue("aB") == HexValue("a") * 16 + 11 == 0xAB;
  }

  /** Input that does not start with "0x" and holds a character that is
      neither a hexadecimal digit nor a leading '+' is refused. */
  lemma RejectsNonDigit(s: string, i: nat)
    requires i < |s| && !IsHexDigit(s[i]) && !(i == 0 && s[0] == '+')
    requires !(|s| >= 2 && s[0] == '0' && s[1] == 'x')
    ensures ParseUserHex(s) == None
  {
    if s[0] == '+' {
      assert Unsigned(s)[i - 1] == s[i];
    }
  }
}
