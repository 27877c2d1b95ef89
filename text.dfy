/** The string operations the screens and services rely on, as JavaScript
    defines them: `toLowerCase`/`toUpperCase` (on ASCII letters),
    `includes`, `trim`, `split` on one character, `join` and a string's
    `length`. */
module Text {

  /** JavaScript's WhiteSpace and LineTerminator code points: what `trim`
      strips and what `\s` matches in a regular expression. */
  predicate IsSpace(c: char) {
    var n := c as int;
    n == 0x09 || n == 0x0A || n == 0x0B || n == 0x0C || n == 0x0D || n == 0x20 ||
    n == 0xA0 || n == 0x1680 || (0x2000 <= n <= 0x200A) || n == 0x2028 || n == 0x2029 ||
    n == 0x202F || n == 0x205F || n == 0x3000 || n == 0xFEFF
  }

  function LowerChar(c: char): char {
    if 'A' <= c <= 'Z' then (c as int + 32) as char else c
  }

  function UpperChar(c: char): char {
    if 'a' <= c <= 'z' then (c as int - 32) as char else c
  }

  /** `s.toLowerCase()`, on ASCII letters. */
  function Lower(s: string): (r: string)
    ensures |r| == |s|
    ensures forall i :: 0 <= i < |s| ==> r[i] == LowerChar(s[i])
  {
    seq(|s|, i requires 0 <= i < |s| => LowerChar(s[i]))
  }

  /** `s.toUpperCase()`, on ASCII letters. */
  function Upper(s: string): (r: string)
    ensures |r| == |s|
    ensures forall i :: 0 <= i < |s| ==> r[i] == UpperChar(s[i])
  {
    seq(|s|, i requires 0 <= i < |s| => UpperChar(s[i]))
  }

  /** `sub` occurs in `s` starting at index `k`. */
  predicate OccursAt(s: string, sub: string, k: int) {
    0 <= k && k + |sub| <= |s| && s[k..k + |sub|] == sub
  }

  lemma OccursShift(s: string, sub: string)
    requires |s| > 0
    ensures forall k :: 0 <= k ==> (OccursAt(s[1..], sub, k) <==> OccursAt(s, sub, k + 1))
  {
    forall k | 0 <= k ensures OccursAt(s[1..], sub, k) <==> OccursAt(s, sub, k + 1) {
      if 0 <= k && k + |sub| <= |s| - 1 {
        assert s[1..][k..k + |sub|] == s[k + 1..k + 1 + |sub|];
      }
    }
  }

  /** `s.includes(sub)`: a left-to-right scan, proved to agree with the
      definition "sub occurs in s at some index". */
  function Contains(s: string, sub: string): (r: bool)
    ensures r <==> exists k :: OccursAt(s, sub, k)
    decreases |s|
  {
    if |sub| <= |s| && s[..|sub|] == sub then
      assert OccursAt(s, sub, 0);
      true
    else if |s| <= |sub| then
      false
    else
      OccursShift(s, sub);
      assert forall k :: OccursAt(s, sub, k) ==> k == 0 || OccursAt(s[1..], sub, k - 1);
      Contains(s[1..], sub)
  }

  /** Every string includes the empty string, so an empty search term keeps
      every record a screen filters. */
  lemma ContainsEmpty(s: string)
    ensures Contains(s, "")
  {
    assert OccursAt(s, "", 0);
  }

  /** Case-insensitive `includes` as the screens write it:
      `field.toLowerCase().includes(term.toLowerCase())`. */
  predicate ContainsIgnoringCase(field: string, term: string) {
    Contains(Lower(field), Lower(term))
  }

  lemma ContainsIgnoringCaseEmpty(field: string)
    ensures ContainsIgnoringCase(field, "")
  {
    ContainsEmpty(Lower(field));
  }

  /** A string that includes `a + b` includes each of the two parts. */
  lemma ContainsParts(s: string, a: string, b: string)
    requires Contains(s, a + b)
    ensures Contains(s, a) && Contains(s, b)
  {
    var k :| OccursAt(s, a + b, k);
    assert s[k..k + |a|] == (a + b)[..|a|];
    assert OccursAt(s, a, k);
    assert s[k + |a|..k + |a| + |b|] == (a + b)[|a|..];
    assert OccursAt(s, b, k + |a|);
  }

  /** A character outside the Basic Multilingual Plane, which UTF-16 writes
      as a surrogate pair. */
  predicate IsAstral(c: char) {
    c as int > 0xFFFF
  }

  /** `s.length`: JavaScript counts UTF-16 code units, so an astral
      character counts twice. */
  function JsLength(s: string): (n: nat)
    ensures |s| <= n <= 2 * |s|
    ensures n == 0 <==> s == ""
  {
    if s == [] then 0 else (if IsAstral(s[0]) then 2 else 1) + JsLength(s[1..])
  }

  /** Without astral characters `s.length` is the number of characters. */
  lemma {:induction false} JsLengthBmp(s: string)
    requires forall i :: 0 <= i < |s| ==> !IsAstral(s[i])
    ensures JsLength(s) == |s|
  {
    if s != [] {
      assert forall i :: 0 <= i < |s| - 1 ==> s[1..][i] == s[i + 1];
      JsLengthBmp(s[1..]);
    }
  }

  /** Each astral character adds one unit more than it adds to `|s|`:
      four emoji have length 8. */
  lemma JsLengthAstral(s: string)
    requires s == "😀😀😀😀"
    ensures |s| == 4 && JsLength(s) == 8
  {
    var e := s[3..];
    assert IsAstral(e[0]) && e[1..] == "";
    assert JsLength(e) == 2;
    assert s[2..] == [s[2]] + e && JsLength(s[2..]) == 4;
    assert s[1..] == [s[1]] + s[2..] && JsLength(s[1..]) == 6;
    assert IsAstral(s[0]);
  }

  /** `s.trimStart()`. */
  function TrimStart(s: string): (r: string)
    ensures |r| <= |s| && r == s[|s| - |r|..]
    ensures forall i :: 0 <= i < |s| - |r| ==> IsSpace(s[i])
    ensures |r| > 0 ==> !IsSpace(r[0])
  {
    if |s| > 0 && IsSpace(s[0]) then TrimStart(s[1..]) else s
  }

  /** `s.trimEnd()`. */
  function TrimEnd(s: string): (r: string)
    ensures |r| <= |s| && r == s[..|r|]
    ensures forall i :: |r| <= i < |s| ==> IsSpace(s[i])
    ensures |r| > 0 ==> !IsSpace(r[|r| - 1])
  {
    if |s| > 0 && IsSpace(s[|s| - 1]) then TrimEnd(s[..|s| - 1]) else s
  }

  /** `s.trim()`. */
  function Trim(s: string): string {
    TrimEnd(TrimStart(s))
  }

  /** `s.trim()` is empty exactly when `s` is made of white space only. */
  lemma TrimEmptyIffBlank(s: string)
    ensures Trim(s) == "" <==> forall i :: 0 <= i < |s| ==> IsSpace(s[i])
  {
    var t := TrimStart(s);
    if Trim(s) != "" {
      assert s[|s| - |t|] == t[0];
      assert !IsSpace(s[|s| - |t|]);
    }
  }

  /** Number of occurrences of `c` in `s`. */
  function Count(s: string, c: char): nat {
    if s == [] then 0 else (if s[0] == c then 1 else 0) + Count(s[1..], c)
  }

  lemma {:induction false} CountAppend(a: string, b: string, c: char)
    ensures Count(a + b, c) == Count(a, c) + Count(b, c)
  {
    if a == [] {
      assert a + b == b;
    } else {
      assert (a + b)[1..] == a[1..] + b;
      CountAppend(a[1..], b, c);
    }
  }

  lemma {:induction false} CountAbsent(s: string, c: char)
    requires c !in s
    ensures Count(s, c) == 0
  {
    if s != [] {
      assert c !in s[1..];
      CountAbsent(s[1..], c);
    }
  }

  /** `s.indexOf(c)` when `c` occurs in `s`. */
  function IndexOf(s: string, c: char): (k: nat)
    requires c in s
    ensures k < |s| && s[k] == c && c !in s[..k]
  {
    if s[0] == c then 0 else 1 + IndexOf(s[1..], c)
  }

  /** The first position holding `c` is what `IndexOf` finds. */
  lemma {:induction false} IndexOfFirst(s: string, c: char, k: nat)
    requires k < |s| && s[k] == c && c !in s[..k]
    ensures IndexOf(s, c) == k
  {
    if k > 0 {
      assert s[0] == s[..k][0];
      assert s[1..][..k - 1] == s[1..k];
      assert forall x :: x in s[1..k] ==> x in s[..k];
      IndexOfFirst(s[1..], c, k - 1);
    }
  }

  /** `s.split(sep)` for a one-character separator: the maximal runs between
      separators, so "" splits into [""]. */
  function Split(s: string, sep: char): (parts: seq<string>)
    ensures |parts| >= 1
    ensures forall i :: 0 <= i < |parts| ==> sep !in parts[i]
    decreases |s|
  {
    if sep !in s then [s]
    else
      var k := IndexOf(s, sep);
      [s[..k]] + Split(s[k + 1..], sep)
  }

  /** `parts.join(sep)`; the empty array joins to "". */
  function Join(parts: seq<string>, sep: char): string {
    if |parts| == 0 then ""
    else if |parts| == 1 then parts[0]
    else parts[0] + [sep] + Join(parts[1..], sep)
  }

  /** Joining the pieces of a split gives back the original string. */
  lemma {:induction false} JoinSplit(s: string, sep: char)
    ensures Join(Split(s, sep), sep) == s
    decreases |s|
  {
    if sep in s {
      var k := IndexOf(s, sep);
      JoinSplit(s[k + 1..], sep);
      var rest := Split(s[k + 1..], sep);
      assert Split(s, sep) == [s[..k]] + rest;
      assert ([s[..k]] + rest)[1..] == rest;
      assert s == s[..k] + [sep] + s[k + 1..];
    }
  }

  /** Splitting a join of separator-free pieces gives back the pieces. */
  lemma {:induction false} SplitJoin(parts: seq<string>, sep: char)
    requires |parts| >= 1
    requires forall i :: 0 <= i < |parts| ==> sep !in parts[i]
    ensures Split(Join(parts, sep), sep) == parts
  {
    if |parts| > 1 {
      var tail := Join(parts[1..], sep);
      var s := parts[0] + [sep] + tail;
      assert s[|parts[0]|] == sep;
      assert s[..|parts[0]|] == parts[0];
      IndexOfFirst(s, sep, |parts[0]|);
      assert s[|parts[0]| + 1..] == tail;
      SplitJoin(parts[1..], sep);
    }
  }

  /** A string has one more piece than it has separators. */
  lemma {:induction false} SplitCount(s: string, sep: char)
    ensures |Split(s, sep)| == Count(s, sep) + 1
    decreases |s|
  {
    if sep !in s {
      CountAbsent(s, sep);
    } else {
      var k := IndexOf(s, sep);
      SplitCount(s[k + 1..], sep);
      assert s == s[..k] + ([sep] + s[k + 1..]);
      CountAppend(s[..k], [sep] + s[k + 1..], sep);
      CountAbsent(s[..k], sep);
      assert ([sep] + s[k + 1..])[1..] == s[k + 1..];
    }
  }
}
