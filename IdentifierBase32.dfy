/**
  The character substitution that makes base32 text usable inside a Python
  identifier: encoding turns each decimal digit into a lower-case letter
  (`0` to `a`, ..., `9` to `j`) and the padding `=` into `_`; decoding turns
  `_` back into `=` and each lower-case letter back into the decimal
  rendering of its distance from `a`. Strings are Python 2 byte strings, so
  "digit" and "lower-case" mean the ASCII ranges.
 */
module IdentifierBase32 {

  predicate IsDigit(c: char) { '0' <= c <= '9' }

  predicate IsLower(c: char) { 'a' <= c <= 'z' }

  predicate IsUpper(c: char) { 'A' <= c <= 'Z' }

  /** The base32 output alphabet of RFC 4648, section 6, with its padding. */
  predicate IsBase32Char(c: char) { IsUpper(c) || ('2' <= c <= '7') || c == '=' }

  /** One character of the encoding comprehension. */
  function EncodeChar(c: char): (d: char)
    ensures !IsDigit(d) && d != '='
    ensures IsDigit(c) ==> d == ('a' as int + (c as int - '0' as int)) as char
    ensures c == '=' ==> d == '_'
    ensures !IsDigit(c) && c != '=' ==> d == c
  {
    if IsDigit(c) then ('a' as int + (c as int - '0' as int)) as char
    else if c == '=' then '_'
    else c
  }

  /** The number a string of decimal digits denotes, most significant first. */
  function DigitsValue(s: string): nat
    requires forall i :: 0 <= i < |s| ==> IsDigit(s[i])
  {
    if s == [] then 0
    else
      assert IsDigit(s[|s| - 1]);
      DigitsValue(s[..|s| - 1]) * 10 + (s[|s| - 1] as int - '0' as int)
  }

  /**
    Renders a natural number in decimal, as Python's `str` does: digits
    only, no leading zero, denoting `n`.
   */
  function DecimalString(n: nat): (s: string)
    ensures |s| >= 1
    ensures forall i :: 0 <= i < |s| ==> IsDigit(s[i])
    ensures DigitsValue(s) == n
    ensures |s| > 1 ==> s[0] != '0'
    ensures n < 10 ==> |s| == 1
    ensures n >= 10 ==> |s| >= 2
  {
    if n < 10 then [('0' as int + n) as char]
    else
      var prefix := DecimalString(n / 10);
      var s := prefix + [('0' as int + n % 10) as char];
      assert s[..|s| - 1] == prefix;
      s
  }

  /**
    One character of the decoding comprehension: a lower-case letter
    becomes the decimal rendering of its distance from `a`, so a letter
    past `j` decodes to two digits (`k` to "10").
   */
  function DecodeChar(c: char): (s: string)
    ensures c == '_' ==> s == "="
    ensures IsLower(c) ==> (forall i :: 0 <= i < |s| ==> IsDigit(s[i])) && DigitsValue(s) == c as int - 'a' as int
    ensures 'a' <= c <= 'j' ==> s == [('0' as int + (c as int - 'a' as int)) as char]
    ensures 'k' <= c <= 'z' ==> |s| == 2
    ensures c != '_' && !IsLower(c) ==> s == [c]
  {
    if c == '_' then "="
    else if IsLower(c) then DecimalString(c as int - 'a' as int)
    else [c]
  }

  /** The substitution `_b32encode_no_digits` applies to the base32 text. */
  function EncodeNoDigits(s: string): (r: string)
    ensures |r| == |s|
    ensures forall i :: 0 <= i < |r| ==> !IsDigit(r[i]) && r[i] != '='
    ensures forall i :: 0 <= i < |r| ==> r[i] == EncodeChar(s[i])
  {
    seq(|s|, i requires 0 <= i < |s| => EncodeChar(s[i]))
  }

  /** The substitution `_b32decode_no_digits` applies before base32 decoding. */
  function DecodeNoDigits(s: string): (r: string)
    ensures |r| >= |s|
  {
    if s == [] then [] else DecodeChar(s[0]) + DecodeNoDigits(s[1..])
  }

  /** Decoding undoes encoding on every character that is not lower-case or `_`. */
  lemma DecodeEncodeChar(c: char)
    requires !IsLower(c) && c != '_'
    ensures DecodeChar(EncodeChar(c)) == [c]
  {
  }

  /**
    Decoding the encoded text gives back the original, for any text with no
    lower-case letters and no `_`.
   */
  lemma {:induction false} DecodeEncode(s: string)
    requires forall i :: 0 <= i < |s| ==> !IsLower(s[i]) && s[i] != '_'
    ensures DecodeNoDigits(EncodeNoDigits(s)) == s
  {
    if s != [] {
      var e := EncodeNoDigits(s);
      assert e[1..] == EncodeNoDigits(s[1..]);
      DecodeEncodeChar(s[0]);
      DecodeEncode(s[1..]);
    }
  }

  /**
    Every base32 text qualifies: the round trip holds, and the encoded text
    consists only of letters and `_`, so it can be part of an identifier.
   */
  lemma Base32RoundTrip(s: string)
    requires forall i :: 0 <= i < |s| ==> IsBase32Char(s[i])
    ensures DecodeNoDigits(EncodeNoDigits(s)) == s
    ensures forall i :: 0 <= i < |s| ==>
      var e := EncodeNoDigits(s)[i]; IsUpper(e) || IsLower(e) || e == '_'
  {
    DecodeEncode(s);
  }

  /** Encoding loses nothing: texts without lower-case letters or `_` never collide. */
  lemma EncodeInjective(s: string, t: string)
    requires forall i :: 0 <= i < |s| ==> !IsLower(s[i]) && s[i] != '_'
    requires forall i :: 0 <= i < |t| ==> !IsLower(t[i]) && t[i] != '_'
    requires EncodeNoDigits(s) == EncodeNoDigits(t)
    ensures s == t
  {
    DecodeEncode(s);
    DecodeEncode(t);
  }
}
