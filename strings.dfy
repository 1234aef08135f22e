/**
 * The two string primitives the client relies on: `String.prototype.trim`
 * (ECMAScript's definition of white space) and `String.prototype.includes`
 * (literal, case-sensitive substring containment).
 */
module Strings {

  /** ECMAScript WhiteSpace and LineTerminator code points, the set `trim` strips. */
  predicate IsWhitespace(c: char)
  {
    var n := c as int;
    n == 0x09 || n == 0x0A || n == 0x0B || n == 0x0C || n == 0x0D || n == 0x20 ||
    n == 0xA0 || n == 0x1680 || (0x2000 <= n <= 0x200A) || n == 0x2028 || n == 0x2029 ||
    n == 0x202F || n == 0x205F || n == 0x3000 || n == 0xFEFF
  }

  predicate AllWhitespace(s: string)
  {
    forall i :: 0 <= i < |s| ==> IsWhitespace(s[i])
  }

  /** Drops the leading white space. */
  function TrimStart(s: string): (r: string)
    ensures |r| <= |s| && r == s[|s| - |r|..]
    ensures AllWhitespace(s[..|s| - |r|])
    ensures r != [] ==> !IsWhitespace(r[0])
  {
    if s != [] && IsWhitespace(s[0]) then TrimStart(s[1..]) else s
  }

  /** Drops the trailing white space. */
  function TrimEnd(s: string): (r: string)
    ensures |r| <= |s| && r == s[..|r|]
    ensures AllWhitespace(s[|r|..])
    ensures r != [] ==> !IsWhitespace(r[|r| - 1])
  {
    if s != [] && IsWhitespace(s[|s| - 1]) then TrimEnd(s[..|s| - 1]) else s
  }

  /**
   * `s.trim()`: the longest slice of `s` that neither starts nor ends with
   * white space, once only white space has been cut from either end.
   */
  function Trim(s: string): (r: string)
    ensures |r| <= |s|
    ensures r != [] ==> !IsWhitespace(r[0]) && !IsWhitespace(r[|r| - 1])
  {
    TrimEnd(TrimStart(s))
  }

  /** `Trim(s)` is the slice `s[a..b]` and only white space lies outside it. */
  lemma TrimIsSlice(s: string) returns (a: nat, b: nat)
    ensures a <= b <= |s| && Trim(s) == s[a..b]
    ensures AllWhitespace(s[..a]) && AllWhitespace(s[b..])
  {
    var t := TrimStart(s);
    a := |s| - |t|;
    b := a + |TrimEnd(t)|;
    assert s[a..b] == t[..b - a];
    assert s[b..] == t[b - a..];
  }

  /** `s.trim() === ''` exactly when every character of `s` is white space. */
  lemma TrimEmptyIff(s: string)
    ensures Trim(s) == [] <==> AllWhitespace(s)
  {
    var a, b := TrimIsSlice(s);
    if Trim(s) == [] {
      assert s == s[..a] + s[b..];
      forall i | 0 <= i < |s| ensures IsWhitespace(s[i]) {
        if i < a { assert s[i] == s[..a][i]; } else { assert s[i] == s[b..][i - b]; }
      }
    }
  }

  /** Trimming a string that already has no white space at either end changes nothing. */
  lemma TrimIdempotent(s: string)
    ensures Trim(Trim(s)) == Trim(s)
  {
    var t := Trim(s);
    if t != [] {
      assert TrimStart(t) == t;
    }
  }

  /** The trimmed string occurs in the original. */
  lemma TrimOccurs(s: string)
    ensures IsSubstring(Trim(s), s)
  {
    var a, b := TrimIsSlice(s);
    assert OccursAt(s, Trim(s), a);
  }

  /** `s.includes(sub)`, computed by trying every start position from the left. */
  function Includes(s: string, sub: string): (r: bool)
    decreases |s|
  {
    if |sub| > |s| then false
    else if s[..|sub|] == sub then true
    else Includes(s[1..], sub)
  }

  /** The reference definition: `sub` occurs in `s` at some position `i`. */
  ghost predicate OccursAt(s: string, sub: string, i: int)
  {
    0 <= i <= |s| - |sub| && s[i..i + |sub|] == sub
  }

  ghost predicate IsSubstring(sub: string, s: string)
  {
    exists i :: OccursAt(s, sub, i)
  }

  /** A slice of the tail is the slice of the whole string one position further on. */
  lemma SliceOfTail(s: string, i: nat, n: nat)
    requires i + n < |s|
    ensures s[1..][i..i + n] == s[i + 1..i + 1 + n]
  {
    var a, b := s[1..][i..i + n], s[i + 1..i + 1 + n];
    forall k | 0 <= k < n ensures a[k] == b[k] {}
    assert a == b;
  }

  /** The left-to-right scan agrees with the reference definition, both ways. */
  lemma {:induction false} IncludesIff(s: string, sub: string)
    ensures Includes(s, sub) <==> IsSubstring(sub, s)
    decreases |s|
  {
    if |sub| > |s| {
    } else if s[..|sub|] == sub {
      assert OccursAt(s, sub, 0);
    } else {
      IncludesIff(s[1..], sub);
      if IsSubstring(sub, s[1..]) {
        var i :| OccursAt(s[1..], sub, i);
        SliceOfTail(s, i, |sub|);
        assert OccursAt(s, sub, i + 1);
      }
      if IsSubstring(sub, s) {
        var i :| OccursAt(s, sub, i);
        assert i != 0;
        SliceOfTail(s, i - 1, |sub|);
        assert OccursAt(s[1..], sub, i - 1);
      }
    }
  }

  /** The empty anchor is found in every text, as `''.includes('')` is true. */
  lemma IncludesEmpty(s: string)
    ensures Includes(s, [])
  {
    assert OccursAt(s, [], 0);
    IncludesIff(s, []);
  }
}
