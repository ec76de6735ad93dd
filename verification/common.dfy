/** Option, shared by every module. */
module Wrappers {
  datatype Option<+T> = None | Some(value: T) {
    function GetOr(default: T): T {
      match this
      case Some(v) => v
      case None => default
    }
  }
}

/** Kotlin's `Byte` is signed; `b.toInt() and 0xFF` reads it as unsigned. */
module Bytes {
  newtype int8 = x: int | -128 <= x < 128

  /** `b.toInt() and 0xFF`: the unsigned reading of a signed byte. */
  function Unsigned(b: int8): (r: nat)
    ensures r < 256
    ensures (r - b as int) % 256 == 0
    ensures b >= 0 ==> r == b as int
  {
    if b < 0 then b as int + 256 else b as int
  }

  /** The signed byte whose unsigned reading is `u`: `u.toByte()`. */
  function Signed(u: nat): (b: int8)
    requires u < 256
    ensures Unsigned(b) == u
  {
    if u >= 128 then (u - 256) as int8 else u as int8
  }

  lemma UnsignedIsOneIffSignedIsOne(b: int8)
    ensures Unsigned(b) == 1 <==> b == 1
  {
  }
}

/** The string operations of the Kotlin standard library that the app relies on. */
module Text {
  /** Kotlin's `Char.isWhitespace()`: Java whitespace or a Unicode space separator. */
  predicate IsWhitespace(c: char) {
    var n := c as int;
    (0x09 <= n <= 0x0D) || (0x1C <= n <= 0x20) || n == 0xA0 || n == 0x1680
    || (0x2000 <= n <= 0x200A) || n == 0x2028 || n == 0x2029 || n == 0x202F
    || n == 0x205F || n == 0x3000
  }

  /** `CharSequence.isBlank()`: empty or only whitespace. */
  predicate IsBlank(s: string) {
    forall i :: 0 <= i < |s| ==> IsWhitespace(s[i])
  }

  lemma BlankConcat(a: string, b: string)
    requires IsBlank(a) && IsBlank(b)
    ensures IsBlank(a + b)
  {
    forall k | 0 <= k < |a + b| ensures IsWhitespace((a + b)[k]) {
      if k >= |a| { assert (a + b)[k] == b[k - |a|]; }
    }
  }

  function TrimStart(s: string): (r: string)
    ensures |r| <= |s| && r == s[|s| - |r|..]
    ensures IsBlank(s[..|s| - |r|])
    ensures r == [] || !IsWhitespace(r[0])
  {
    if |s| > 0 && IsWhitespace(s[0]) then
      var r := TrimStart(s[1..]);
      assert s[..|s| - |r|] == [s[0]] + s[1..][..|s| - 1 - |r|];
      BlankConcat([s[0]], s[1..][..|s| - 1 - |r|]);
      r
    else
      s
  }

  function TrimEnd(s: string): (r: string)
    ensures |r| <= |s| && r == s[..|r|]
    ensures IsBlank(s[|r|..])
    ensures r == [] || !IsWhitespace(r[|r| - 1])
  {
    if |s| > 0 && IsWhitespace(s[|s| - 1]) then
      var r := TrimEnd(s[..|s| - 1]);
      assert s[|r|..] == s[..|s| - 1][|r|..] + [s[|s| - 1]];
      BlankConcat(s[..|s| - 1][|r|..], [s[|s| - 1]]);
      r
    else
      s
  }

  /** Trimming the start, then the end: `r` is a slice of `s` with blank text
      on both sides of it, and it is empty only when `s` is blank. */
  lemma TrimSlices(s: string, a: string, r: string)
    requires |a| <= |s| && a == s[|s| - |a|..] && IsBlank(s[..|s| - |a|])
    requires a == [] || !IsWhitespace(a[0])
    requires |r| <= |a| && r == a[..|r|] && IsBlank(a[|r|..])
    requires r == [] || !IsWhitespace(r[|r| - 1])
    ensures exists i, j :: 0 <= i <= j <= |s| && r == s[i..j] && IsBlank(s[..i]) && IsBlank(s[j..])
    ensures r == [] || (!IsWhitespace(r[0]) && !IsWhitespace(r[|r| - 1]))
    ensures r == [] <==> IsBlank(s)
  {
    var i, j := |s| - |a|, |s| - |a| + |r|;
    assert r == s[i..j];
    assert s[j..] == a[|r|..];
    if r == [] {
      assert s == s[..i] + a;
      BlankConcat(s[..i], a);
    } else {
      assert s[i] == r[0] == a[0];
    }
  }

  /** `String.trim()`: drops leading and trailing whitespace. The result is a
      contiguous slice of the input, empty exactly when the input is blank. */
  function Trim(s: string): (r: string)
    ensures exists i, j :: 0 <= i <= j <= |s| && r == s[i..j] && IsBlank(s[..i]) && IsBlank(s[j..])
    ensures r == [] || (!IsWhitespace(r[0]) && !IsWhitespace(r[|r| - 1]))
    ensures r == [] <==> IsBlank(s)
  {
    var a := TrimStart(s);
    var r := TrimEnd(a);
    TrimSlices(s, a, r);
    r
  }

  lemma {:induction false} TrimIdempotent(s: string)
    ensures Trim(Trim(s)) == Trim(s)
  {
    var r := Trim(s);
    if r != [] {
      assert TrimStart(r) == r;
      assert TrimEnd(r) == r;
    }
  }

  /** ASCII case mapping. Over the letters of the extensions and schemes the app
      compares against, Kotlin's `lowercase()` agrees with it. */
  function LowerChar(c: char): (r: char)
    ensures 'A' <= c <= 'Z' ==> r as int == c as int + 32
    ensures !('A' <= c <= 'Z') ==> r == c
  {
    if 'A' <= c <= 'Z' then (c as int + 32) as char else c
  }

  function Lower(s: string): (r: string)
    ensures |r| == |s|
    ensures forall i :: 0 <= i < |s| ==> r[i] == LowerChar(s[i])
  {
    seq(|s|, i requires 0 <= i < |s| => LowerChar(s[i]))
  }

  /** `File.extension`: the text after the last '.', or "" when there is none. */
  function Extension(name: string): (ext: string)
    ensures '.' !in ext
    ensures '.' in name ==> |ext| < |name| && name[|name| - |ext| - 1] == '.' && ext == name[|name| - |ext|..]
    ensures '.' !in name ==> ext == ""
  {
    if |name| == 0 then ""
    else if name[|name| - 1] == '.' then ""
    else if '.' in name[..|name| - 1] then
      var prefix := name[..|name| - 1];
      assert name == prefix + [name[|name| - 1]];
      Extension(prefix) + [name[|name| - 1]]
    else
      assert forall k :: 0 <= k < |name| ==> name[k] != '.' by {
        forall k | 0 <= k < |name| ensures name[k] != '.' {
          if k < |name| - 1 { assert name[k] == name[..|name| - 1][k]; }
        }
      }
      ""
  }

  /** Extension inverts the usual `base + "." + ext` naming. */
  lemma ExtensionOfJoined(base: string, ext: string)
    requires '.' !in ext
    ensures Extension(base + "." + ext) == ext
  {
    var name := base + "." + ext;
    assert name[|base|] == '.';
    var e := Extension(name);
    assert |e| == |ext|;
    assert e == name[|name| - |ext|..] == ext;
  }

  function DigitChar(d: nat): (c: char)
    requires d < 10
    ensures '0' <= c <= '9' && c as int - '0' as int == d
  {
    ('0' as int + d) as char
  }

  /** `Long.toString()` for a non-negative value: decimal digits, no leading zero. */
  function NatToString(n: nat): (s: string)
    ensures |s| > 0
    ensures forall i :: 0 <= i < |s| ==> '0' <= s[i] <= '9'
    ensures |s| > 1 ==> s[0] != '0'
  {
    if n < 10 then [DigitChar(n)] else NatToString(n / 10) + [DigitChar(n % 10)]
  }

  /** `Int.toString()` / `Long.toString()`. */
  function IntToString(i: int): string {
    if i < 0 then "-" + NatToString(-i) else NatToString(i)
  }

  /** The value of a string of decimal digits. */
  function DecimalValue(s: string): nat
    requires forall i :: 0 <= i < |s| ==> '0' <= s[i] <= '9'
  {
    if s == [] then 0 else 10 * DecimalValue(s[..|s| - 1]) + (s[|s| - 1] as int - '0' as int)
  }

  /** Reading back the decimal text of a number gives the number. */
  lemma {:induction false} NatToStringRoundTrip(n: nat)
    ensures DecimalValue(NatToString(n)) == n
  {
    var s := NatToString(n);
    if n >= 10 {
      NatToStringRoundTrip(n / 10);
      assert s[..|s| - 1] == NatToString(n / 10);
    }
  }
}
