/**
 * The JavaScript string operations the application relies on: truthiness, `||` defaults,
 * `startsWith`, `indexOf`/`includes`, `replace` with a string pattern, `trim` and
 * `toLowerCase`. Strings are sequences of characters.
 */
module JsString {
  import opened Wrappers

  /** `!s` for a value that is either a string or `undefined`. */
  predicate IsFalsy(s: Option<string>) {
    s == None || s == Some("")
  }

  /** `s || fallback` for a value that is either a string or `undefined`. */
  function OrElse(s: Option<string>, fallback: string): (r: string)
    ensures IsFalsy(s) ==> r == fallback
    ensures !IsFalsy(s) ==> r == s.value && r != ""
  {
    if IsFalsy(s) then fallback else s.value
  }

  /** `s.startsWith(p)`. */
  predicate StartsWith(s: string, p: string) {
    |p| <= |s| && s[..|p|] == p
  }

  /** `s.indexOf(t)`: the first position at which `t` occurs in `s`, or `None` for -1. */
  function IndexOf(s: string, t: string): (r: Option<nat>)
    ensures r.Some? ==> r.value + |t| <= |s| && s[r.value..r.value + |t|] == t
    ensures r.Some? ==> forall j :: 0 <= j < r.value ==> !StartsWith(s[j..], t)
    ensures r.None? ==> forall j :: 0 <= j <= |s| ==> !StartsWith(s[j..], t)
  {
    if StartsWith(s, t) then Some(0)
    else if s == [] then None
    else
      match IndexOf(s[1..], t)
      case None =>
        assert forall j :: 1 <= j <= |s| ==> s[j..] == s[1..][j - 1..];
        None
      case Some(k) =>
        assert forall j :: 1 <= j <= k + 1 ==> s[j..] == s[1..][j - 1..];
        Some(k + 1)
  }

  /** `s.includes(t)`. */
  predicate Includes(s: string, t: string) {
    IndexOf(s, t).Some?
  }

  /** `s.includes(t)` holds when `t` occurs at some position `i` of `s`. */
  lemma OccurrenceIncluded(s: string, t: string, i: nat)
    requires i + |t| <= |s|
    requires forall k :: 0 <= k < |t| ==> s[i + k] == t[k]
    ensures Includes(s, t)
  {
    assert StartsWith(s[i..], t) by {
      assert s[i..][..|t|] == t;
    }
  }

  /** Every character of an included string occurs in the including string. */
  lemma IncludedCharsOccur(s: string, t: string, c: char)
    requires Includes(s, t) && c in t
    ensures c in s
  {
    var i := IndexOf(s, t).value;
    var k :| 0 <= k < |t| && t[k] == c;
    assert s[i..i + |t|][k] == s[i + k];
  }

  /**
   * `s.replace(pattern, replacement)` with a string pattern: only the first occurrence. Exact
   * for a replacement without `$`; the `$&`, `$$`, `` $` `` and `$'` substitutions that
   * JavaScript expands in the replacement are not modelled.
   */
  function ReplaceFirst(s: string, pattern: string, replacement: string): (r: string)
    ensures IndexOf(s, pattern).None? ==> r == s
    ensures IndexOf(s, pattern).Some? ==>
      var i := IndexOf(s, pattern).value;
      r == s[..i] + replacement + s[i + |pattern|..]
  {
    match IndexOf(s, pattern)
    case None => s
    case Some(i) => s[..i] + replacement + s[i + |pattern|..]
  }

  /** Removing a prefix with `replace(prefix, "")` leaves exactly the rest of the string. */
  lemma ReplacePrefixDropsIt(s: string, prefix: string)
    requires StartsWith(s, prefix)
    ensures ReplaceFirst(s, prefix, "") == s[|prefix|..]
  {
    assert s[0..] == s;
    assert IndexOf(s, prefix) == Some(0);
  }

  /** The characters `String.prototype.trim` removes: ECMAScript WhiteSpace and LineTerminator. */
  predicate IsWhitespace(c: char) {
    var n := c as int;
    n == 0x09 || n == 0x0A || n == 0x0B || n == 0x0C || n == 0x0D || n == 0x20
    || n == 0xA0 || n == 0x1680 || (0x2000 <= n <= 0x200A) || n == 0x2028 || n == 0x2029
    || n == 0x202F || n == 0x205F || n == 0x3000 || n == 0xFEFF
  }

  predicate AllWhitespace(s: string) {
    forall i :: 0 <= i < |s| ==> IsWhitespace(s[i])
  }

  /** `s.trimStart()`: `s` without its leading whitespace. */
  function TrimStart(s: string): (r: string)
    ensures |r| <= |s|
    ensures r == [] || !IsWhitespace(r[0])
  {
    if s != [] && IsWhitespace(s[0]) then TrimStart(s[1..]) else s
  }

  /** What `trimStart` removes is a run of whitespace, and what it keeps is the rest of `s`. */
  lemma {:induction false} TrimStartShape(s: string)
    ensures var r := TrimStart(s);
      r == s[|s| - |r|..] && AllWhitespace(s[..|s| - |r|])
  {
    if s != [] && IsWhitespace(s[0]) {
      TrimStartShape(s[1..]);
      var r := TrimStart(s);
      assert s[..|s| - |r|] == [s[0]] + s[1..][..|s[1..]| - |r|];
    }
  }

  /** `s.trimEnd()`: `s` without its trailing whitespace. */
  function TrimEnd(s: string): (r: string)
    ensures |r| <= |s|
    ensures r == [] || !IsWhitespace(r[|r| - 1])
  {
    if s != [] && IsWhitespace(s[|s| - 1]) then TrimEnd(s[..|s| - 1]) else s
  }

  /** What `trimEnd` removes is a run of whitespace, and what it keeps is the start of `s`. */
  lemma {:induction false} TrimEndShape(s: string)
    ensures var r := TrimEnd(s);
      r == s[..|r|] && AllWhitespace(s[|r|..])
  {
    if s != [] && IsWhitespace(s[|s| - 1]) {
      TrimEndShape(s[..|s| - 1]);
      var r := TrimEnd(s);
      assert s[|r|..] == s[..|s| - 1][|r|..] + [s[|s| - 1]];
    }
  }

  /** `s.trim()`: neither end of the result is whitespace. */
  function Trim(s: string): (r: string)
    ensures |r| <= |s|
    ensures r == [] || (!IsWhitespace(r[0]) && !IsWhitespace(r[|r| - 1]))
  {
    var u := TrimStart(s);
    var r := TrimEnd(u);
    TrimEndShape(u);
    assert r != [] ==> r[0] == u[0];
    r
  }

  /**
   * `s.trim()` is the part of `s` between a run of leading and a run of trailing
   * whitespace; `i` is where it starts.
   */
  lemma TrimShape(s: string) returns (i: nat)
    ensures i + |Trim(s)| <= |s| && s[i..i + |Trim(s)|] == Trim(s)
    ensures AllWhitespace(s[..i]) && AllWhitespace(s[i + |Trim(s)|..])
  {
    var u := TrimStart(s);
    var t := TrimEnd(u);
    TrimStartShape(s);
    TrimEndShape(u);
    assert t == Trim(s);
    i := |s| - |u|;
    assert u == s[i..];
    assert t == u[..|t|];
    assert s[i..i + |t|] == u[..|t|];
    assert s[i + |t|..] == u[|t|..];
  }

  /** A string trims to "" exactly when every character of it is whitespace. */
  lemma TrimEmptyIffBlank(s: string)
    ensures Trim(s) == [] <==> AllWhitespace(s)
  {
    var i := TrimShape(s);
    if Trim(s) == [] {
      assert s == s[..i] + s[i..];
    } else {
      assert s[i] == Trim(s)[0];
    }
  }

  /** Trimming twice is trimming once. */
  lemma TrimIdempotent(s: string)
    ensures Trim(Trim(s)) == Trim(s)
  {
    var t := Trim(s);
    assert TrimStart(t) == t;
    assert TrimEnd(t) == t;
  }

  /** `c.toLowerCase()` for the ASCII letters A-Z; every other character is unchanged. */
  function LowerChar(c: char): char {
    if 'A' <= c <= 'Z' then (c as int + 32) as char else c
  }

  /** `s.toLowerCase()`, character by character. */
  function ToLowerCase(s: string): (r: string)
    ensures |r| == |s|
    ensures forall i :: 0 <= i < |s| ==> r[i] == LowerChar(s[i])
  {
    seq(|s|, i requires 0 <= i < |s| => LowerChar(s[i]))
  }

  /** A lower-case letter occurs in `s.toLowerCase()` only where that letter occurs in either case in `s`. */
  lemma LowerCaseOccurrence(s: string, c: char)
    requires 'a' <= c <= 'z'
    ensures c in ToLowerCase(s) <==> c in s || (c as int - 32) as char in s
  {
    var r := ToLowerCase(s);
    if c in r {
      var i :| 0 <= i < |r| && r[i] == c;
      assert s[i] == c || s[i] == (c as int - 32) as char;
    }
    if c in s {
      var i :| 0 <= i < |s| && s[i] == c;
      assert r[i] == c;
    }
    if (c as int - 32) as char in s {
      var i :| 0 <= i < |s| && s[i] == (c as int - 32) as char;
      assert r[i] == c;
    }
  }
}
