/** The string operations of JavaScript that the modelled code relies on:
    `trim`, `toLowerCase` and `includes`. */
module JsText {

  /** The characters `String.prototype.trim` removes: the white-space and
      line-terminator code points of ECMAScript. */
  predicate IsSpace(c: char) {
    c == ' ' || c == '\t' || c == '\n' || c == '\r' || c == '\U{B}' || c == '\U{C}'
    || c == '\U{A0}' || c == '\U{FEFF}' || c == '\U{1680}' || ('\U{2000}' <= c <= '\U{200A}')
    || c == '\U{2028}' || c == '\U{2029}' || c == '\U{202F}' || c == '\U{205F}' || c == '\U{3000}'
  }

  /** True when `s.trim()` is the empty string, i.e. `!s.trim()` in JavaScript. */
  predicate IsBlank(s: string) {
    forall k :: 0 <= k < |s| ==> IsSpace(s[k])
  }

  /** `s.trimStart()`: drops the leading white space and nothing else. */
  function TrimStart(s: string): (r: string)
    ensures |r| <= |s| && r == s[|s| - |r|..]
    ensures forall k :: 0 <= k < |s| - |r| ==> IsSpace(s[k])
    ensures r != [] ==> !IsSpace(r[0])
  {
    if s != [] && IsSpace(s[0]) then TrimStart(s[1..]) else s
  }

  /** `s.trimEnd()`: drops the trailing white space and nothing else. */
  function TrimEnd(s: string): (r: string)
    ensures |r| <= |s| && r == s[..|r|]
    ensures forall k :: |r| <= k < |s| ==> IsSpace(s[k])
    ensures r != [] ==> !IsSpace(r[|r| - 1])
  {
    if s != [] && IsSpace(s[|s| - 1]) then TrimEnd(s[..|s| - 1]) else s
  }

  /** `s.trim()`: `trimStart` then `trimEnd`. The result is a piece of `s`
      with white space neither at its start nor at its end, and it is empty
      exactly when `s` is blank. */
  function Trim(s: string): (r: string)
    ensures r == TrimEnd(TrimStart(s))
    ensures |r| <= |s|
    ensures r != [] ==> !IsSpace(r[0]) && !IsSpace(r[|r| - 1])
    ensures r == [] <==> IsBlank(s)
  {
    var t := TrimStart(s);
    var r := TrimEnd(t);
    assert r != [] ==> r[0] == t[0];
    assert IsBlank(s) ==> t == [] by {
      if t != [] { assert s[|s| - |t|] == t[0]; }
    }
    assert t != [] ==> r != [] by {
      if t != [] { assert !IsSpace(t[0]); }
    }
    r
  }

  /** Trimming twice is trimming once: a trimmed title is sent as it is. */
  lemma TrimIdempotent(s: string)
    ensures Trim(Trim(s)) == Trim(s)
  {
    var r := Trim(s);
    if r != [] {
      assert TrimStart(r) == r;
      assert TrimEnd(r) == r;
    }
  }

  /** `c.toLowerCase()` on one character; only ASCII letters are folded. */
  function LowerChar(c: char): char {
    if 'A' <= c <= 'Z' then (c as int + 32) as char else c
  }

  /** `s.toLowerCase()`, character by character. */
  function Lower(s: string): (r: string)
    ensures |r| == |s|
    ensures forall k :: 0 <= k < |s| ==> r[k] == LowerChar(s[k])
  {
    if s == [] then [] else [LowerChar(s[0])] + Lower(s[1..])
  }

  /** `haystack.includes(needle)`: `needle` occurs in `haystack` as a contiguous piece. */
  function Includes(haystack: string, needle: string): (b: bool)
    ensures needle == [] ==> b
    ensures b ==> |needle| <= |haystack|
    ensures needle <= haystack ==> b
  {
    if needle <= haystack then true
    else if haystack == [] then false
    else Includes(haystack[1..], needle)
  }

  /** `needle` occurs in `haystack` starting at offset `i`. */
  predicate OccursAt(haystack: string, needle: string, i: int) {
    0 <= i && i + |needle| <= |haystack| && haystack[i..i + |needle|] == needle
  }

  /** Every occurrence of `needle` in `haystack`, at whatever offset, makes
      `includes` true. */
  lemma {:induction false} IncludesAt(haystack: string, needle: string, i: nat)
    requires OccursAt(haystack, needle, i)
    ensures Includes(haystack, needle)
  {
    if i > 0 {
      assert OccursAt(haystack[1..], needle, i - 1) by {
        assert haystack[1..][i - 1..i - 1 + |needle|] == haystack[i..i + |needle|];
      }
      IncludesAt(haystack[1..], needle, i - 1);
    }
  }

  /** Conversely, `includes` is true only when `needle` occurs in `haystack`
      at some offset. */
  lemma {:induction false} IncludesFound(haystack: string, needle: string)
    requires Includes(haystack, needle)
    ensures exists i :: OccursAt(haystack, needle, i)
  {
    if needle <= haystack {
      assert OccursAt(haystack, needle, 0);
    } else {
      IncludesFound(haystack[1..], needle);
      var i :| OccursAt(haystack[1..], needle, i);
      assert haystack[i + 1..i + 1 + |needle|] == haystack[1..][i..i + |needle|];
      assert OccursAt(haystack, needle, i + 1);
    }
  }
}
