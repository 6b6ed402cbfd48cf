/** The clean-up applied to text extracted from an uploaded resume:
    newline runs become one newline, every whitespace run becomes one blank,
    form feeds are dropped and the ends are stripped. */
module TextExtractor {
  import opened Text

  const FormFeed: char := '\U{0C}'

  /** `re.sub(r'\n+', '\n', s)`. */
  function CollapseNewlines(s: string): (r: string)
    ensures |r| <= |s|
    ensures s != [] ==> r != [] && r[0] == s[0]
  {
    if s == [] then []
    else if s[0] == '\n' then
      (if |s| > 1 && s[1] == '\n' then CollapseNewlines(s[1..]) else ['\n'] + CollapseNewlines(s[1..]))
    else [s[0]] + CollapseNewlines(s[1..])
  }

  /** `s.replace(c, '')`. */
  function RemoveChar(s: string, c: char): (r: string)
    ensures c !in r
  {
    if s == [] then [] else (if s[0] == c then [] else [s[0]]) + RemoveChar(s[1..], c)
  }

  /** `clean_extracted_text(text)`: the newline substitution and the form-feed
      removal never change the outcome, so the cleaned text is the
      whitespace-collapsed, stripped text. */
  function CleanExtractedText(text: string): (r: string)
    ensures r == Strip(Collapse(text))
  {
    CollapseAbsorbsNewlines(text);
    CollapseNormal(text);
    BlankOnly(Collapse(text));
    RemoveAbsent(Collapse(text), FormFeed);
    Strip(RemoveChar(Collapse(CollapseNewlines(text)), FormFeed))
  }

  // ---------------------------------------------------------------------------
  // The steps
  // ---------------------------------------------------------------------------

  /** Collapsing newline runs keeps every non-whitespace character, in order. */
  lemma {:induction false} CollapseNewlinesKeepsNonSpaces(s: string)
    ensures NonSpaces(CollapseNewlines(s)) == NonSpaces(s)
  {
    if s != [] {
      CollapseNewlinesKeepsNonSpaces(s[1..]);
      if s[0] == '\n' && |s| > 1 && s[1] == '\n' {
      } else {
        NonSpacesConcat([s[0]], CollapseNewlines(s[1..]));
      }
    }
  }

  /** Collapsing every whitespace run makes the newline step redundant. */
  lemma {:induction false} CollapseAbsorbsNewlines(s: string)
    ensures Collapse(CollapseNewlines(s)) == Collapse(s)
  {
    if s != [] {
      var t := s[1..];
      CollapseAbsorbsNewlines(t);
      if s[0] == '\n' && |s| > 1 && s[1] == '\n' {
      } else {
        var u := [s[0]] + CollapseNewlines(t);
        assert u[0] == s[0] && u[1..] == CollapseNewlines(t);
        if t != [] {
          assert u[1] == t[0];
        }
      }
    }
  }

  /** Removing a whitespace character keeps every non-whitespace character. */
  lemma {:induction false} RemoveSpaceKeepsNonSpaces(s: string, c: char)
    requires IsSpace(c)
    ensures NonSpaces(RemoveChar(s, c)) == NonSpaces(s)
  {
    if s != [] {
      RemoveSpaceKeepsNonSpaces(s[1..], c);
      if s[0] != c {
        NonSpacesConcat([s[0]], RemoveChar(s[1..], c));
        assert [s[0]][1..] == [];
      } else {
        assert RemoveChar(s, c) == RemoveChar(s[1..], c);
        assert NonSpaces(s) == NonSpaces(s[1..]);
      }
    }
  }

  /** Removing a character that does not occur changes nothing. */
  lemma {:induction false} RemoveAbsent(s: string, c: char)
    requires c !in s
    ensures RemoveChar(s, c) == s
  {
    if s != [] {
      assert c !in s[1..] by {
        forall i | 0 <= i < |s| - 1 ensures s[1..][i] != c {
          assert s[1..][i] == s[i + 1];
        }
      }
      RemoveAbsent(s[1..], c);
    }
  }

  /** In a string whose only whitespace is the blank, neither a newline nor a form
      feed occurs. */
  lemma BlankOnly(s: string)
    requires SpacesAreBlank(s)
    ensures '\n' !in s && FormFeed !in s
  {
    forall i | 0 <= i < |s| ensures s[i] != '\n' && s[i] != FormFeed {
      if s[i] == '\n' || s[i] == FormFeed {
        assert IsSpace(s[i]);
      }
    }
  }

  // ---------------------------------------------------------------------------
  // clean_extracted_text
  // ---------------------------------------------------------------------------

  /** The cleaned text holds no newline and no form feed, has no whitespace at
      either end, and no two whitespace characters in a row. */
  lemma CleanShape(text: string)
    ensures var r := CleanExtractedText(text);
      && '\n' !in r && FormFeed !in r
      && Trimmed(r) && NoDoubleSpace(r) && SpacesAreBlank(r)
  {
    var c := Collapse(text);
    CollapseNormal(text);
    var a, b := StripSlice(c);
    SliceKeeps(c, a, b);
    BlankOnly(Strip(c));
  }

  /** Cleaning keeps every non-whitespace character of the text, in order. */
  lemma CleanKeepsNonSpaces(text: string)
    ensures NonSpaces(CleanExtractedText(text)) == NonSpaces(text)
  {
    var n := CollapseNewlines(text);
    var c := Collapse(n);
    var d := RemoveChar(c, FormFeed);
    CollapseNewlinesKeepsNonSpaces(text);
    CollapseKeepsNonSpaces(n);
    RemoveSpaceKeepsNonSpaces(c, FormFeed);
    StripKeepsNonSpaces(d);
  }

  /** Cleaning twice is cleaning once. */
  lemma CleanIdempotent(text: string)
    ensures CleanExtractedText(CleanExtractedText(text)) == CleanExtractedText(text)
  {
    var r := CleanExtractedText(text);
    CleanShape(text);
    CollapseIdentity(r);
    StripTrimmed(r);
  }
}
