/** The Python string operations the scorers rely on, written over `seq<char>`:
    `str.isspace`, ASCII `lower`/`upper`, the `in` operator, `str.count`,
    `split()`, `split('\n')`, `' '.join`, `re.sub(r'\s+', ' ', ...)` and `strip()`. */
module Text {

  /** Python's `str.isspace()`; `\s` in a `str` pattern, `split()` and `strip()`
      use the same set of characters. */
  predicate IsSpace(c: char) {
    ('\t' <= c <= '\r') || ('\U{1C}' <= c <= '\U{1F}') || c == ' ' || c == '\U{85}' || c == '\U{A0}'
    || c == '\U{1680}' || ('\U{2000}' <= c <= '\U{200A}') || c == '\U{2028}' || c == '\U{2029}'
    || c == '\U{202F}' || c == '\U{205F}' || c == '\U{3000}'
  }

  predicate IsDigit(c: char) { '0' <= c <= '9' }
  predicate IsUpper(c: char) { 'A' <= c <= 'Z' }
  predicate IsLower(c: char) { 'a' <= c <= 'z' }
  predicate IsLowerAlnum(c: char) { IsLower(c) || IsDigit(c) }

  function LowerChar(c: char): char {
    if IsUpper(c) then (c as int + 32) as char else c
  }

  function UpperChar(c: char): char {
    if IsLower(c) then (c as int - 32) as char else c
  }

  /** `s.lower()`, restricted to ASCII letters. */
  function Lower(s: string): string {
    seq(|s|, i requires 0 <= i < |s| => LowerChar(s[i]))
  }

  /** `s.upper()`, restricted to ASCII letters. */
  function Upper(s: string): string {
    seq(|s|, i requires 0 <= i < |s| => UpperChar(s[i]))
  }

  /** Python's `pat in text` on two strings. */
  predicate Contains(text: string, pat: string)
    decreases |text|
  {
    |pat| <= |text| && (text[..|pat|] == pat || (|text| > 0 && Contains(text[1..], pat)))
  }

  /** `text.count(pat)`: non-overlapping occurrences, scanned from the left. */
  function CountOccurrences(text: string, pat: string): nat
    requires |pat| > 0
    decreases |text|
  {
    if |text| < |pat| then 0
    else if text[..|pat|] == pat then 1 + CountOccurrences(text[|pat|..], pat)
    else CountOccurrences(text[1..], pat)
  }

  /** How many of `keys` occur in `text` (the `sum(1 for k in keys if k in text)` idiom). */
  function CountContained(keys: seq<string>, text: string): nat {
    if keys == [] then 0
    else (if Contains(text, keys[0]) then 1 else 0) + CountContained(keys[1..], text)
  }

  /** The number of maximal runs of non-whitespace characters: `len(s.split())`. */
  function WordCount(s: string): nat {
    WordCountFrom(s, false)
  }

  function WordCountFrom(s: string, inWord: bool): nat
    decreases |s|
  {
    if s == [] then 0
    else if IsSpace(s[0]) then WordCountFrom(s[1..], false)
    else (if inWord then 0 else 1) + WordCountFrom(s[1..], true)
  }

  /** `s.split('\n')`: always at least one (possibly empty) line. */
  function SplitLines(s: string): (lines: seq<string>)
    ensures |lines| >= 1
  {
    if s == [] then [[]]
    else
      var rest := SplitLines(s[1..]);
      if s[0] == '\n' then [[]] + rest else [[s[0]] + rest[0]] + rest[1..]
  }

  /** `sep.join(parts)`. */
  function Join(parts: seq<string>, sep: string): string {
    if parts == [] then []
    else if |parts| == 1 then parts[0]
    else parts[0] + sep + Join(parts[1..], sep)
  }

  /** `re.sub(r'\s+', ' ', s)`: every maximal run of whitespace becomes one blank. */
  function Collapse(s: string): string {
    if s == [] then []
    else if IsSpace(s[0]) then
      (if |s| > 1 && IsSpace(s[1]) then Collapse(s[1..]) else [' '] + Collapse(s[1..]))
    else [s[0]] + Collapse(s[1..])
  }

  function LeadingSpaces(s: string): (n: nat)
    ensures n <= |s|
  {
    if s != [] && IsSpace(s[0]) then 1 + LeadingSpaces(s[1..]) else 0
  }

  function TrailingSpaces(s: string): (n: nat)
    ensures n <= |s|
  {
    if s != [] && IsSpace(s[|s| - 1]) then 1 + TrailingSpaces(s[..|s| - 1]) else 0
  }

  /** `s.strip()`. */
  function Strip(s: string): string {
    var t := s[LeadingSpaces(s)..];
    t[..|t| - TrailingSpaces(t)]
  }

  /** The non-whitespace characters of `s`, in order. */
  function NonSpaces(s: string): string {
    if s == [] then [] else (if IsSpace(s[0]) then [] else [s[0]]) + NonSpaces(s[1..])
  }

  predicate AllSpace(s: string) {
    forall i :: 0 <= i < |s| ==> IsSpace(s[i])
  }

  /** No two consecutive whitespace characters. */
  predicate NoDoubleSpace(s: string) {
    forall i :: 0 <= i < |s| - 1 ==> !(IsSpace(s[i]) && IsSpace(s[i + 1]))
  }

  /** The only whitespace character that occurs is the blank. */
  predicate SpacesAreBlank(s: string) {
    forall i :: 0 <= i < |s| ==> IsSpace(s[i]) ==> s[i] == ' '
  }

  /** Neither the first nor the last character is whitespace. */
  predicate Trimmed(s: string) {
    s != [] ==> !IsSpace(s[0]) && !IsSpace(s[|s| - 1])
  }

  predicate LowerAlnumOrSpace(s: string) {
    forall i :: 0 <= i < |s| ==> IsLowerAlnum(s[i]) || IsSpace(s[i])
  }

  predicate LowerAlnumOrBlank(s: string) {
    forall i :: 0 <= i < |s| ==> IsLowerAlnum(s[i]) || s[i] == ' '
  }

  /** Python's `min` and `max` on two integers. */
  function Min(a: int, b: int): int {
    if a <= b then a else b
  }

  function Max(a: int, b: int): int {
    if a >= b then a else b
  }

  // ---------------------------------------------------------------------------
  // Lemmas about the string operations
  // ---------------------------------------------------------------------------

  /** `Contains` agrees with the usual definition by a matching position. */
  lemma {:induction false} ContainsAt(text: string, pat: string, i: nat)
    requires i + |pat| <= |text| && text[i..i + |pat|] == pat
    ensures Contains(text, pat)
    decreases i
  {
    if i > 0 {
      assert text[1..][i - 1..i - 1 + |pat|] == text[i..i + |pat|];
      ContainsAt(text[1..], pat, i - 1);
    }
  }

  lemma {:induction false} ContainsWitness(text: string, pat: string) returns (i: nat)
    requires Contains(text, pat)
    ensures i + |pat| <= |text| && text[i..i + |pat|] == pat
    decreases |text|
  {
    if text[..|pat|] == pat {
      i := 0;
    } else {
      var j := ContainsWitness(text[1..], pat);
      assert text[1..][j..j + |pat|] == text[j + 1..j + 1 + |pat|];
      i := j + 1;
    }
  }

  /** A pattern holding a character that never occurs in `text` is not in `text`. */
  lemma {:induction false} ContainsNeedsChar(text: string, pat: string, k: nat)
    requires k < |pat|
    requires forall i :: 0 <= i < |text| ==> text[i] != pat[k]
    ensures !Contains(text, pat)
    decreases |text|
  {
    if |pat| <= |text| {
      assert text[..|pat|][k] != pat[k];
      if |text| > 0 { ContainsNeedsChar(text[1..], pat, k); }
    }
  }

  lemma {:induction false} CountContainedBound(keys: seq<string>, text: string)
    ensures CountContained(keys, text) <= |keys|
  {
    if keys != [] { CountContainedBound(keys[1..], text); }
  }

  lemma {:induction false} NonSpacesConcat(x: string, y: string)
    ensures NonSpaces(x + y) == NonSpaces(x) + NonSpaces(y)
  {
    if x != [] {
      var head: string := if IsSpace(x[0]) then [] else [x[0]];
      assert (x + y)[0] == x[0];
      assert (x + y)[1..] == x[1..] + y;
      NonSpacesConcat(x[1..], y);
      calc {
        NonSpaces(x + y);
        head + NonSpaces(x[1..] + y);
        head + (NonSpaces(x[1..]) + NonSpaces(y));
        (head + NonSpaces(x[1..])) + NonSpaces(y);
      }
    } else {
      assert x + y == y;
    }
  }

  lemma {:induction false} NonSpacesOfSpace(x: string)
    requires AllSpace(x)
    ensures NonSpaces(x) == []
  {
    if x != [] { NonSpacesOfSpace(x[1..]); }
  }

  lemma {:induction false} LeadingSpacesFacts(s: string)
    ensures AllSpace(s[..LeadingSpaces(s)])
    ensures LeadingSpaces(s) < |s| ==> !IsSpace(s[LeadingSpaces(s)])
  {
    if s != [] && IsSpace(s[0]) {
      LeadingSpacesFacts(s[1..]);
      assert s[..LeadingSpaces(s)] == [s[0]] + s[1..][..LeadingSpaces(s[1..])];
    }
  }

  lemma {:induction false} TrailingSpacesFacts(s: string)
    ensures AllSpace(s[|s| - TrailingSpaces(s)..])
    ensures TrailingSpaces(s) < |s| ==> !IsSpace(s[|s| - 1 - TrailingSpaces(s)])
  {
    if s != [] && IsSpace(s[|s| - 1]) {
      var p := s[..|s| - 1];
      TrailingSpacesFacts(p);
      var n := TrailingSpaces(p);
      assert TrailingSpaces(s) == n + 1;
      assert |s| - (n + 1) == |p| - n;
      var t := s[|s| - (n + 1)..];
      var u := p[|p| - n..] + [s[|s| - 1]];
      forall i | 0 <= i < |t| ensures t[i] == u[i] {
        if i < n {
          assert t[i] == s[|p| - n + i] == p[|p| - n + i];
        }
      }
      assert t == u;
    }
  }

  /** `strip()` cuts a whitespace prefix and a whitespace suffix and nothing else,
      and leaves no whitespace at either end. */
  lemma StripSlice(s: string) returns (a: nat, b: nat)
    ensures a <= b <= |s| && Strip(s) == s[a..b]
    ensures AllSpace(s[..a]) && AllSpace(s[b..])
    ensures Trimmed(Strip(s))
  {
    LeadingSpacesFacts(s);
    a := LeadingSpaces(s);
    var t := s[a..];
    TrailingSpacesFacts(t);
    b := a + |t| - TrailingSpaces(t);
    assert t[..|t| - TrailingSpaces(t)] == s[a..b];
    assert t[|t| - TrailingSpaces(t)..] == s[b..];
    var r := Strip(s);
    if r != [] {
      assert r[0] == t[0];
      assert r[|r| - 1] == t[|t| - 1 - TrailingSpaces(t)];
    }
  }

  /** `strip()` leaves trimmed text unchanged. */
  lemma StripTrimmed(s: string)
    requires Trimmed(s)
    ensures Strip(s) == s
  {
    assert LeadingSpaces(s) == 0;
    assert TrailingSpaces(s) == 0;
  }

  /** `strip()` keeps every non-whitespace character, in order. */
  lemma StripKeepsNonSpaces(s: string)
    ensures NonSpaces(Strip(s)) == NonSpaces(s)
  {
    var a, b := StripSlice(s);
    assert s == s[..a] + s[a..b] + s[b..];
    NonSpacesConcat(s[..a] + s[a..b], s[b..]);
    NonSpacesConcat(s[..a], s[a..b]);
    NonSpacesOfSpace(s[..a]);
    NonSpacesOfSpace(s[b..]);
  }

  /** The properties of a string that survive taking a slice. */
  lemma SliceKeeps(s: string, a: nat, b: nat)
    requires a <= b <= |s|
    ensures NoDoubleSpace(s) ==> NoDoubleSpace(s[a..b])
    ensures SpacesAreBlank(s) ==> SpacesAreBlank(s[a..b])
    ensures LowerAlnumOrBlank(s) ==> LowerAlnumOrBlank(s[a..b])
  {
    var t := s[a..b];
    assert forall i :: 0 <= i < |t| ==> t[i] == s[a + i];
  }

  lemma {:induction false} CollapseHead(s: string)
    requires s != []
    ensures Collapse(s) != []
    ensures IsSpace(Collapse(s)[0]) <==> IsSpace(s[0])
  {
    if IsSpace(s[0]) && |s| > 1 && IsSpace(s[1]) {
      CollapseHead(s[1..]);
    }
  }

  /** After `re.sub(r'\s+', ' ', s)` no two whitespace characters are adjacent
      and the blank is the only whitespace left. */
  lemma {:induction false} CollapseNormal(s: string)
    ensures NoDoubleSpace(Collapse(s)) && SpacesAreBlank(Collapse(s))
  {
    if s != [] {
      var rest := Collapse(s[1..]);
      CollapseNormal(s[1..]);
      if |s| > 1 { CollapseHead(s[1..]); }
      if IsSpace(s[0]) && |s| > 1 && IsSpace(s[1]) {
      } else if IsSpace(s[0]) {
        var r := [' '] + rest;
        assert forall i :: 1 <= i < |r| ==> r[i] == rest[i - 1];
      } else {
        var r := [s[0]] + rest;
        assert forall i :: 1 <= i < |r| ==> r[i] == rest[i - 1];
      }
    }
  }

  /** `re.sub(r'\s+', ' ', s)` keeps every non-whitespace character, in order. */
  lemma {:induction false} CollapseKeepsNonSpaces(s: string)
    ensures NonSpaces(Collapse(s)) == NonSpaces(s)
  {
    if s != [] {
      CollapseKeepsNonSpaces(s[1..]);
      if IsSpace(s[0]) && |s| > 1 && IsSpace(s[1]) {
      } else if IsSpace(s[0]) {
        NonSpacesConcat([' '], Collapse(s[1..]));
      } else {
        NonSpacesConcat([s[0]], Collapse(s[1..]));
      }
    }
  }

  /** `re.sub(r'\s+', ' ', s)` leaves alone a string whose whitespace is already single blanks. */
  lemma {:induction false} CollapseIdentity(s: string)
    requires NoDoubleSpace(s) && SpacesAreBlank(s)
    ensures Collapse(s) == s
  {
    if s != [] {
      var t := s[1..];
      assert forall i :: 0 <= i < |t| ==> t[i] == s[i + 1];
      CollapseIdentity(t);
      if IsSpace(s[0]) {
        assert s[0] == ' ';
        assert |s| > 1 ==> !IsSpace(s[1]);
      }
    }
  }

  /** Collapsing whitespace in lower-case alphanumeric text leaves only lower-case
      letters, digits and blanks. */
  lemma {:induction false} CollapseLowerAlnum(s: string)
    requires LowerAlnumOrSpace(s)
    ensures LowerAlnumOrBlank(Collapse(s))
  {
    if s != [] {
      var t := s[1..];
      assert forall i :: 0 <= i < |t| ==> t[i] == s[i + 1];
      CollapseLowerAlnum(t);
      var rest := Collapse(t);
      if IsSpace(s[0]) && |s| > 1 && IsSpace(s[1]) {
      } else {
        var r := Collapse(s);
        assert forall i :: 1 <= i < |r| ==> r[i] == rest[i - 1];
      }
    }
  }
}
