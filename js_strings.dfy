/**
 * The pieces of JavaScript string behaviour the application relies on:
 * `trim`, `includes`, `startsWith`, `replace(/x/g, '')`, `split('\n').join(..)`,
 * `toLowerCase`/`toUpperCase` and `length`. Strings are sequences of Unicode
 * scalar values; where JavaScript counts UTF-16 code units this is said.
 */
module JsStrings {
  import opened JsArrays

  // ---------------------------------------------------------------------------
  // Character classes
  // ---------------------------------------------------------------------------

  /** ECMAScript LineTerminator: the characters `.` in a regular expression does not match. */
  predicate IsLineTerminator(c: char) {
    c == '\n' || c == '\r' || c == '\U{2028}' || c == '\U{2029}'
  }

  /** ECMAScript WhiteSpace or LineTerminator: what `String.prototype.trim` removes. */
  predicate IsTrimmable(c: char) {
    || IsLineTerminator(c)
    || c == ' ' || c == '\t' || c == '\U{000B}' || c == '\U{000C}'
    || c == '\U{00A0}' || c == '\U{1680}' || ('\U{2000}' <= c <= '\U{200A}')
    || c == '\U{202F}' || c == '\U{205F}' || c == '\U{3000}' || c == '\U{FEFF}'
  }

  predicate NoLineTerminator(s: string) {
    forall k :: 0 <= k < |s| ==> !IsLineTerminator(s[k])
  }

  // ---------------------------------------------------------------------------
  // trim
  // ---------------------------------------------------------------------------

  /** `s` with its leading trimmable characters removed. */
  function TrimStart(s: string): (r: string)
    ensures |r| <= |s| && r == s[|s| - |r|..]
    ensures r == [] || !IsTrimmable(r[0])
    ensures forall k :: 0 <= k < |s| - |r| ==> IsTrimmable(s[k])
  {
    if s != [] && IsTrimmable(s[0]) then TrimStart(s[1..]) else s
  }

  /** `s` with its trailing trimmable characters removed. */
  function TrimEnd(s: string): (r: string)
    ensures |r| <= |s| && r == s[..|r|]
    ensures r == [] || !IsTrimmable(r[|r| - 1])
    ensures forall k :: |r| <= k < |s| ==> IsTrimmable(s[k])
  {
    if s != [] && IsTrimmable(s[|s| - 1]) then TrimEnd(s[..|s| - 1]) else s
  }

  /** `s.trim()`: the longest slice of `s` that neither starts nor ends with a trimmable character. */
  function Trim(s: string): (r: string)
    ensures exists i :: && OccursAt(s, r, i)
                        && (forall k :: 0 <= k < i ==> IsTrimmable(s[k]))
                        && (forall k :: i + |r| <= k < |s| ==> IsTrimmable(s[k]))
    ensures r == [] || (!IsTrimmable(r[0]) && !IsTrimmable(r[|r| - 1]))
    ensures (forall k :: 0 <= k < |s| ==> !IsTrimmable(s[k])) ==> r == s
  {
    var t := TrimStart(s);
    var r := TrimEnd(t);
    TrimSlice(s, t, r);
    r
  }

  /** Dropping a trimmable prefix and then a trimmable suffix cuts `s` into trimmable prefix, result, trimmable suffix. */
  lemma TrimSlice(s: string, t: string, r: string)
    requires |t| <= |s| && t == s[|s| - |t|..] && forall k :: 0 <= k < |s| - |t| ==> IsTrimmable(s[k])
    requires |r| <= |t| && r == t[..|r|] && forall k :: |r| <= k < |t| ==> IsTrimmable(t[k])
    ensures var i := |s| - |t|;
            && OccursAt(s, r, i)
            && (forall k :: 0 <= k < i ==> IsTrimmable(s[k]))
            && (forall k :: i + |r| <= k < |s| ==> IsTrimmable(s[k]))
  {
    var i := |s| - |t|;
    assert s[i..][..|r|] == s[i..i + |r|];
    forall k | i + |r| <= k < |s| ensures IsTrimmable(s[k]) {
      assert s[k] == t[k - i];
    }
  }

  // ---------------------------------------------------------------------------
  // replace(/c/g, '')
  // ---------------------------------------------------------------------------

  /** `s.replace(/c/g, '')`: every occurrence of `c` removed, the rest kept in order. */
  function RemoveAll(s: string, c: char): (r: string)
    ensures r == Filter(s, x => x != c)
    ensures |r| <= |s|
    ensures forall k :: 0 <= k < |r| ==> r[k] != c
    ensures (forall k :: 0 <= k < |s| ==> s[k] != c) ==> r == s
  {
    if s == [] then []
    else if s[0] == c then RemoveAll(s[1..], c)
    else [s[0]] + RemoveAll(s[1..], c)
  }

  // ---------------------------------------------------------------------------
  // includes / startsWith
  // ---------------------------------------------------------------------------

  /** `t` occurs in `s` at position `i`. */
  predicate OccursAt(s: string, t: string, i: int) {
    0 <= i && i + |t| <= |s| && s[i..i + |t|] == t
  }

  /** `s.includes(t)`, computed by scanning; it holds exactly when `t` occurs somewhere in `s`. */
  function Includes(s: string, t: string): (r: bool)
    ensures r <==> exists i :: OccursAt(s, t, i)
  {
    if |t| > |s| then
      assert forall i :: !OccursAt(s, t, i);
      false
    else if s[..|t|] == t then
      assert OccursAt(s, t, 0);
      true
    else
      var rest := Includes(s[1..], t);
      assert forall i :: OccursAt(s[1..], t, i) <==> OccursAt(s, t, i + 1) by {
        forall i ensures OccursAt(s[1..], t, i) <==> OccursAt(s, t, i + 1) {
          if 0 <= i && i + |t| <= |s| - 1 {
            assert s[1..][i..i + |t|] == s[i + 1..i + 1 + |t|];
          }
        }
      }
      assert !OccursAt(s, t, 0);
      assert rest ==> OccursAt(s, t, (var i :| OccursAt(s[1..], t, i); i) + 1);
      assert (exists i :: OccursAt(s, t, i)) ==> rest by {
        if exists i :: OccursAt(s, t, i) {
          var i :| OccursAt(s, t, i);
          assert i != 0;
          assert OccursAt(s[1..], t, i - 1);
        }
      }
      rest
  }

  /** `s.startsWith(p)`. */
  predicate StartsWith(s: string, p: string) {
    |p| <= |s| && s[..|p|] == p
  }

  // ---------------------------------------------------------------------------
  // Case mapping
  // ---------------------------------------------------------------------------

  /** `toLowerCase` on one character, for Basic Latin and Latin-1 capitals. */
  function LowerChar(c: char): char {
    if 'A' <= c <= 'Z' || ('\U{00C0}' <= c <= '\U{00DE}' && c != '\U{00D7}') then
      (c as int + 32) as char
    else c
  }

  /** `s.toLowerCase()`, character by character. */
  function ToLower(s: string): (r: string)
    ensures |r| == |s|
    ensures forall k :: 0 <= k < |s| ==> r[k] == LowerChar(s[k])
  {
    if s == [] then [] else [LowerChar(s[0])] + ToLower(s[1..])
  }

  /** `c.toUpperCase()` on a one-character string, for Basic Latin and Latin-1 small letters. */
  function UpperChar(c: char): (r: string)
    ensures |r| >= 1
  {
    if 'a' <= c <= 'z' || ('\U{00E0}' <= c <= '\U{00FE}' && c != '\U{00F7}') then
      [(c as int - 32) as char]
    else if c == '\U{00DF}' then "SS"
    else if c == '\U{00FF}' then ['\U{0178}']
    else if c == '\U{00B5}' then ['\U{039C}']
    else [c]
  }

  /** Upper-casing a Basic Latin or Latin-1 small letter gives one capital, which lower-cases back to it. */
  lemma CaseRoundTrip(c: char)
    requires 'a' <= c <= 'z' || ('\U{00E0}' <= c <= '\U{00FE}' && c != '\U{00F7}')
    ensures |UpperChar(c)| == 1 && UpperChar(c)[0] != c && LowerChar(UpperChar(c)[0]) == c
  {
    var u := (c as int - 32) as char;
    assert UpperChar(c) == [u];
  }

  /** `s.charAt(0).toUpperCase()`: empty for the empty string. */
  function UpperInitial(s: string): (r: string)
    ensures s == [] <==> r == []
    ensures s != [] ==> r == UpperChar(s[0])
  {
    if s == [] then "" else UpperChar(s[0])
  }

  // ---------------------------------------------------------------------------
  // length
  // ---------------------------------------------------------------------------

  /** Width of one character in UTF-16 code units: two outside the Basic Multilingual Plane. */
  function Utf16Width(c: char): nat {
    if c as int >= 0x1_0000 then 2 else 1
  }

  /** `s.length`, which counts UTF-16 code units. */
  function Utf16Length(s: string): (n: nat)
    ensures |s| <= n <= 2 * |s|
  {
    if s == [] then 0 else Utf16Width(s[0]) + Utf16Length(s[1..])
  }

  // ---------------------------------------------------------------------------
  // split(sep).join(glue)
  // ---------------------------------------------------------------------------

  /** `s.split(sep).join(glue)` for a one-character separator: every `sep` replaced by `glue`. */
  function ReplaceChar(s: string, sep: char, glue: string): (r: string)
    ensures (forall k :: 0 <= k < |s| ==> s[k] != sep) ==> r == s
  {
    if s == [] then []
    else (if s[0] == sep then glue else [s[0]]) + ReplaceChar(s[1..], sep, glue)
  }

  lemma {:induction false} ReplaceCharAppend(a: string, b: string, sep: char, glue: string)
    ensures ReplaceChar(a + b, sep, glue) == ReplaceChar(a, sep, glue) + ReplaceChar(b, sep, glue)
  {
    if a != [] {
      var head := if a[0] == sep then glue else [a[0]];
      assert (a + b)[0] == a[0] && (a + b)[1..] == a[1..] + b;
      assert ReplaceChar(a + b, sep, glue) == head + ReplaceChar(a[1..] + b, sep, glue);
      ReplaceCharAppend(a[1..], b, sep, glue);
    } else {
      assert a + b == b;
    }
  }
}
