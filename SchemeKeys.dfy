/**
 * Derivation of the authentication-scheme key and the callback path from the
 * id of a stored OpenID Connect configuration record.
 *
 * The key is "oidc-" followed by the record id written as a C# `int` is
 * written by `ToString()`: an optional minus sign and the decimal digits,
 * without leading zeros. The callback path is "/signin-" followed by the key.
 * `ParseSchemeKey` is the inverse of the key derivation; it is what lets the
 * model prove that distinct ids never share a key.
 */
module SchemeKeys {
  import opened Wrappers

  /** The C# `int` of the record's `Id` property. */
  newtype int32 = x: int | -0x8000_0000 <= x < 0x8000_0000

  const KeyPrefix: string := "oidc-"
  const CallbackPrefix: string := "/signin-"

  function DigitChar(d: nat): (c: char)
    requires d < 10
    ensures '0' <= c <= '9'
  {
    ('0' as int + d) as char
  }

  function DigitValue(c: char): int
  {
    c as int - '0' as int
  }

  /** The decimal digits of `n`, most significant first, without leading zeros. */
  function NatDigits(n: nat): (s: string)
    ensures |s| >= 1
    ensures forall i :: 0 <= i < |s| ==> '0' <= s[i] <= '9'
    ensures n < 10 <==> |s| == 1
    ensures n >= 10 ==> s[0] != '0'
    decreases n
  {
    if n < 10 then [DigitChar(n)] else NatDigits(n / 10) + [DigitChar(n % 10)]
  }

  /** `n.ToString()` for an integer: a minus sign for negative values, then the digits. */
  function Decimal(n: int): (s: string)
    ensures |s| >= 1
    ensures s[0] == '-' <==> n < 0
  {
    if n < 0 then "-" + NatDigits(-n) else NatDigits(n)
  }

  /** The value of a string of decimal digits (the reading direction of `NatDigits`). */
  function DigitsValue(s: string): int
    decreases |s|
  {
    if s == [] then 0 else DigitsValue(s[..|s| - 1]) * 10 + DigitValue(s[|s| - 1])
  }

  /** The value of an optionally signed decimal string (the reading direction of `Decimal`). */
  function ParseDecimal(s: string): int
  {
    if |s| > 0 && s[0] == '-' then -DigitsValue(s[1..]) else DigitsValue(s)
  }

  lemma {:induction false} NatDigitsRoundTrip(n: nat)
    ensures DigitsValue(NatDigits(n)) == n
    decreases n
  {
    var s := NatDigits(n);
    if n >= 10 {
      NatDigitsRoundTrip(n / 10);
      assert s[..|s| - 1] == NatDigits(n / 10);
    }
  }

  lemma DecimalRoundTrip(n: int)
    ensures ParseDecimal(Decimal(n)) == n
  {
    var s := Decimal(n);
    if n < 0 {
      assert s[1..] == NatDigits(-n);
      NatDigitsRoundTrip(-n);
    } else {
      NatDigitsRoundTrip(n);
    }
  }

  /** The unique key under which the scheme of record `id` is registered. */
  function SchemeKey(id: int32): (key: string)
    ensures |key| > |KeyPrefix| && key[..|KeyPrefix|] == KeyPrefix
    ensures key[|KeyPrefix|..] == Decimal(id as int)
  {
    KeyPrefix + Decimal(id as int)
  }

  /** The path on which the identity provider posts its response back for scheme `key`. */
  function CallbackPath(key: string): (path: string)
    ensures |path| == |CallbackPrefix| + |key|
    ensures path[..|CallbackPrefix|] == CallbackPrefix && path[|CallbackPrefix|..] == key
  {
    CallbackPrefix + key
  }

  /** The record id a scheme key was derived from, or None for a string no id yields. */
  function ParseSchemeKey(key: string): Option<int32>
  {
    if |key| < |KeyPrefix| || key[..|KeyPrefix|] != KeyPrefix then None
    else
      var digits := key[|KeyPrefix|..];
      var n := ParseDecimal(digits);
      if -0x8000_0000 <= n < 0x8000_0000 && Decimal(n) == digits then Some(n as int32) else None
  }

  /** Parsing a key gives back exactly the id that derives it, and no string parses to an id that does not. */
  lemma ParseSchemeKeyIff(key: string, id: int32)
    ensures ParseSchemeKey(key) == Some(id) <==> SchemeKey(id) == key
  {
    if SchemeKey(id) == key {
      DecimalRoundTrip(id as int);
    }
  }

  /** Distinct record ids give distinct scheme keys. */
  lemma SchemeKeyInjective(a: int32, b: int32)
    ensures SchemeKey(a) == SchemeKey(b) <==> a == b
  {
    if SchemeKey(a) == SchemeKey(b) {
      ParseSchemeKeyIff(SchemeKey(a), a);
      ParseSchemeKeyIff(SchemeKey(a), b);
    }
  }

  /** The callback path depends on the record id alone and differs for distinct ids. */
  lemma CallbackPathInjective(a: int32, b: int32)
    ensures CallbackPath(SchemeKey(a)) == CallbackPath(SchemeKey(b)) <==> a == b
  {
    var pa, pb := CallbackPath(SchemeKey(a)), CallbackPath(SchemeKey(b));
    if pa == pb {
      assert SchemeKey(a) == pa[|CallbackPrefix|..] == pb[|CallbackPrefix|..] == SchemeKey(b);
      SchemeKeyInjective(a, b);
    }
  }

  /** Record 1 is registered as "oidc-1" with callback path "/signin-oidc-1". */
  lemma KeyOfRecordOne()
    ensures SchemeKey(1) == "oidc-1"
    ensures CallbackPath(SchemeKey(1)) == "/signin-oidc-1"
  {
    assert Decimal(1) == "1";
  }
}
