/** The few JavaScript built-ins the storefront's pricing and menu code relies on,
    stated exactly where the code depends on them: nullable numbers under `+` and
    `|| 0`, `String.prototype.trim`, `toLowerCase` (ASCII letters only) and
    `String.prototype.includes`. */
module Js {

  /** A value read from a nullable column of the data service: `null` or a value. */
  datatype Nullable<+T> = Null | Val(value: T)

  /** The number `x` that `+` sees: `null` converts to 0. */
  function ToNumber(x: Nullable<real>): real
  {
    match x
    case Null => 0.0
    case Val(v) => v
  }

  /** `x || 0`: a falsy operand (`null`, `undefined`, `0`) gives 0, any other number itself. */
  function OrZero(x: Nullable<real>): (r: real)
    ensures r == ToNumber(x)
    ensures r == 0.0 <==> x == Null || x == Val(0.0)
  {
    if x.Null? || x.value == 0.0 then 0.0 else x.value
  }

  /** The ECMAScript WhiteSpace and LineTerminator code points, which `trim` removes. */
  predicate IsWhiteSpace(c: char) {
    var n := c as int;
    || n == 0x09 || n == 0x0A || n == 0x0B || n == 0x0C || n == 0x0D
    || n == 0x20 || n == 0xA0 || n == 0x1680
    || (0x2000 <= n <= 0x200A)
    || n == 0x2028 || n == 0x2029 || n == 0x202F || n == 0x205F
    || n == 0x3000 || n == 0xFEFF
  }

  predicate AllWhiteSpace(s: string) {
    forall i :: 0 <= i < |s| ==> IsWhiteSpace(s[i])
  }

  /** Drops leading white space: the result is a suffix of `s`. */
  function TrimStart(s: string): (r: string)
    ensures |r| <= |s| && r == s[|s| - |r|..]
    ensures AllWhiteSpace(s[..|s| - |r|])
    ensures |r| > 0 ==> !IsWhiteSpace(r[0])
  {
    if |s| > 0 && IsWhiteSpace(s[0]) then TrimStart(s[1..]) else s
  }

  /** Drops trailing white space: the result is a prefix of `s`. */
  function TrimEnd(s: string): (r: string)
    ensures |r| <= |s| && r == s[..|r|]
    ensures AllWhiteSpace(s[|r|..])
    ensures |r| > 0 ==> !IsWhiteSpace(r[|r| - 1])
  {
    if |s| > 0 && IsWhiteSpace(s[|s| - 1]) then TrimEnd(s[..|s| - 1]) else s
  }

  /** `needle` occurs in `hay` starting at position `k`. */
  predicate OccursAt(hay: string, needle: string, k: int) {
    0 <= k && k + |needle| <= |hay| && hay[k..k + |needle|] == needle
  }

  /** `s.trim()`: the slice of `s` left after dropping white space at both ends;
      what is dropped is white space and what is kept neither starts nor ends with it. */
  function Trim(s: string): (r: string)
    ensures exists k :: OccursAt(s, r, k) && AllWhiteSpace(s[..k]) && AllWhiteSpace(s[k + |r|..])
    ensures |r| > 0 ==> !IsWhiteSpace(r[0]) && !IsWhiteSpace(r[|r| - 1])
  {
    var t := TrimStart(s);
    var r := TrimEnd(t);
    var k := |s| - |t|;
    assert t == s[k..];
    assert r == s[k..k + |r|];
    assert OccursAt(s, r, k);
    assert AllWhiteSpace(s[..k]);
    assert s[k + |r|..] == t[|r|..];
    assert AllWhiteSpace(s[k + |r|..]);
    r
  }

  /** `!s.trim()`: the trimmed string is empty exactly when every character is white space. */
  lemma BlankIffAllWhiteSpace(s: string)
    ensures Trim(s) == "" <==> AllWhiteSpace(s)
  {
    var t := TrimStart(s);
    if Trim(s) == "" {
      // whatever TrimStart leaves starts with a non-space, so TrimEnd empties it only if it is empty
      assert AllWhiteSpace(t[0..]);
      assert |t| == 0;
    } else {
      var r := Trim(s);
      var k :| OccursAt(s, r, k);
      assert s[k] == r[0];
    }
  }

  /** `toLowerCase` on one character, restricted to ASCII: `A`..`Z` map to `a`..`z`. */
  function LowerChar(c: char): (r: char)
    ensures !('A' <= r <= 'Z')
    ensures r == c || ('A' <= c <= 'Z' && r as int - c as int == 'a' as int - 'A' as int)
  {
    if 'A' <= c <= 'Z' then (c as int + 32) as char else c
  }

  function ToLower(s: string): string {
    seq(|s|, i requires 0 <= i < |s| => LowerChar(s[i]))
  }

  /** `hay.includes(needle)`: `needle` is a prefix of some suffix of `hay`. */
  function Includes(hay: string, needle: string): bool
    decreases |hay|
  {
    if needle <= hay then true
    else if |hay| == 0 then false
    else Includes(hay[1..], needle)
  }

  /** `Includes` holds exactly when `needle` occurs at some position of `hay`. */
  lemma {:induction false} IncludesIff(hay: string, needle: string)
    ensures Includes(hay, needle) <==> exists k :: OccursAt(hay, needle, k)
    decreases |hay|
  {
    if needle <= hay {
      assert OccursAt(hay, needle, 0);
    } else if |hay| == 0 {
    } else {
      IncludesIff(hay[1..], needle);
      if exists k :: OccursAt(hay, needle, k) {
        var k :| OccursAt(hay, needle, k);
        assert k != 0;
        assert OccursAt(hay[1..], needle, k - 1);
      }
      if Includes(hay, needle) {
        var k :| OccursAt(hay[1..], needle, k);
        assert OccursAt(hay, needle, k + 1);
      }
    }
  }
}
