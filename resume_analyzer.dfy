/** The keyword analyser: text normalisation, per-field keyword extraction over a
    fixed three-field table, the keyword-count field recommendations, requirement
    matching with related-term partial credit, and improvement suggestions. */
module ResumeAnalyzer {
  import opened Text
  import opened Sums

  // ---------------------------------------------------------------------------
  // Configuration
  // ---------------------------------------------------------------------------

  /** The fields of the keyword table, in the table's (insertion) order. */
  const FieldOrder: seq<string> := ["Software Engineering", "Data Analyst", "Consultant"]

  /** The keyword table: a field name to its ordered keyword list. */
  const FieldKeywords: map<string, seq<string>> := map[
    "Software Engineering" := [
      "python", "java", "javascript", "react", "node.js", "sql", "git",
      "docker", "kubernetes", "aws", "api", "database", "frontend",
      "backend", "full-stack", "agile", "scrum", "testing", "debugging",
      "html", "css", "mongodb", "postgresql", "redis", "microservices"],
    "Data Analyst" := [
      "python", "r", "sql", "excel", "tableau", "power bi", "pandas",
      "numpy", "matplotlib", "seaborn", "statistics", "data visualization",
      "machine learning", "regression", "classification", "clustering",
      "etl", "data mining", "business intelligence", "analytics",
      "spss", "sas", "hadoop", "spark", "data warehouse"],
    "Consultant" := [
      "consulting", "strategy", "business analysis", "project management",
      "stakeholder management", "client relations", "problem solving",
      "presentation", "communication", "leadership", "change management",
      "process improvement", "market research", "financial analysis",
      "risk assessment", "vendor management", "negotiation",
      "strategic planning", "business development"]
  ]

  /** The related terms that earn partial credit for a skill that is not named outright. */
  const RelatedTerms: map<string, seq<string>> := map[
    "python" := ["programming", "coding", "development", "script", "django", "flask"],
    "sql" := ["database", "query", "data", "mysql", "postgresql", "oracle"],
    "machine learning" := ["ml", "ai", "artificial intelligence", "model", "algorithm"],
    "project management" := ["pm", "agile", "scrum", "planning", "coordination"],
    "javascript" := ["js", "web development", "frontend", "react", "angular", "vue"],
    "data visualization" := ["charts", "graphs", "dashboard", "reporting", "visual"],
    "consulting" := ["advisory", "strategy", "client", "business", "recommendations"]
  ]

  const SoftSkillKeywords: seq<string> := ["communication", "leadership", "problem solving", "teamwork", "presentation"]
  const ToolKeywords: seq<string> := ["aws", "docker", "kubernetes", "tableau", "power bi", "git", "jira"]

  /** The analyser's `field_keywords` dict: its keys in insertion order, and the map. */
  datatype KeywordTable = KeywordTable(fields: seq<string>, keywords: map<string, seq<string>>) {
    /** The key order lists each key of the map exactly once. */
    predicate Valid() {
      && (forall f :: f in keywords ==> f in fields)
      && (forall f :: f in fields ==> f in keywords)
      && (forall i, j :: 0 <= i < j < |fields| ==> fields[i] != fields[j])
    }

    /** `self.field_keywords.get(field, [])`. */
    function KeywordsFor(field: string): seq<string> {
      if field in keywords then keywords[field] else []
    }
  }

  /** The table every `ResumeAnalyzer` is constructed with. */
  const DefaultTable: KeywordTable := KeywordTable(FieldOrder, FieldKeywords)

  lemma DefaultTableValid()
    ensures DefaultTable.Valid() && |DefaultTable.fields| == 3
  {
  }

  // ---------------------------------------------------------------------------
  // Text normalisation
  // ---------------------------------------------------------------------------

  /** A value handed to `preprocess_text`: a Python `str`, or some other object
      together with what `str()` renders it as (a missing cell renders as "nan"). */
  datatype PyValue = PyStr(s: string) | NonStr(rendered: string)

  /** `str(v)`. */
  function ToStr(v: PyValue): string {
    match v
    case PyStr(s) => s
    case NonStr(r) => r
  }

  /** `re.sub(r'[^a-zA-Z0-9\s]', ' ', s)`. */
  function ReplaceSpecial(s: string): string {
    seq(|s|, i requires 0 <= i < |s| =>
      if IsUpper(s[i]) || IsLowerAlnum(s[i]) || IsSpace(s[i]) then s[i] else ' ')
  }

  /** `preprocess_text` on a string: lower-case, punctuation to blanks, runs of
      whitespace to one blank, then strip. */
  function Preprocess(s: string): (r: string)
    ensures Normalized(r)
  {
    var replaced := ReplaceSpecial(Lower(s));
    assert LowerAlnumOrSpace(replaced);
    StripCollapseNormal(replaced);
    Strip(Collapse(replaced))
  }

  /** The normal form: lower-case letters, digits and single inner blanks only. */
  predicate Normalized(r: string) {
    LowerAlnumOrBlank(r) && NoDoubleSpace(r) && Trimmed(r)
  }

  /** `preprocess_text(v)`: non-strings are first rendered with `str`. Its result is
      always in normal form. */
  function PreprocessText(v: PyValue): (r: string)
    ensures Normalized(r)
    ensures v.PyStr? ==> r == Preprocess(v.s)
  {
    Preprocess(ToStr(v))
  }

  /** Collapsing and stripping text of lower-case letters, digits and whitespace
      gives the normal form. */
  lemma StripCollapseNormal(s: string)
    requires LowerAlnumOrSpace(s)
    ensures Normalized(Strip(Collapse(s)))
  {
    CollapseLowerAlnum(s);
    CollapseNormal(s);
    var c := Collapse(s);
    var a, b := StripSlice(c);
    SliceKeeps(c, a, b);
  }

  /** Text already in normal form is left unchanged by `preprocess_text`. */
  lemma PreprocessFixesNormal(r: string)
    requires Normalized(r)
    ensures Preprocess(r) == r
  {
    assert Lower(r) == r;
    assert ReplaceSpecial(r) == r;
    assert SpacesAreBlank(r);
    CollapseIdentity(r);
    StripTrimmed(r);
  }

  /** `preprocess_text` is idempotent. */
  lemma PreprocessIdempotent(v: PyValue)
    ensures Preprocess(PreprocessText(v)) == PreprocessText(v)
  {
    PreprocessFixesNormal(PreprocessText(v));
  }

  // ---------------------------------------------------------------------------
  // Keyword extraction
  // ---------------------------------------------------------------------------

  /** The keywords of `keys`, in order, whose lower-cased form occurs in `text`. */
  function KeywordHits(keys: seq<string>, text: string): seq<string> {
    if keys == [] then []
    else (if Contains(text, Lower(keys[0])) then [keys[0]] else []) + KeywordHits(keys[1..], text)
  }

  /** The keywords of `keys`, in order, whose lower-cased form does not occur in `text`. */
  function KeywordMisses(keys: seq<string>, text: string): seq<string> {
    if keys == [] then []
    else (if Contains(text, Lower(keys[0])) then [] else [keys[0]]) + KeywordMisses(keys[1..], text)
  }

  /** `a` is `b` with some elements left out, the rest in their order. */
  predicate IsSubsequence(a: seq<string>, b: seq<string>) {
    a == [] || (b != [] && if a[0] == b[0] then IsSubsequence(a[1..], b[1..]) else IsSubsequence(a, b[1..]))
  }

  /** What `extract_skills` returns: every field of the table mapped to its hits. */
  function SkillsFound(table: KeywordTable, text: string): map<string, seq<string>> {
    map f | f in table.keywords :: KeywordHits(table.keywords[f], Preprocess(text))
  }

  lemma {:induction false} HitsAppend(keys: seq<string>, k: string, text: string)
    ensures KeywordHits(keys + [k], text) == KeywordHits(keys, text) + (if Contains(text, Lower(k)) then [k] else [])
  {
    if keys == [] {
      assert keys + [k] == [k];
    } else {
      assert (keys + [k])[1..] == keys[1..] + [k];
      HitsAppend(keys[1..], k, text);
    }
  }

  /** A keyword is a hit exactly when it is in the list and occurs in the text,
      and a miss exactly when it is in the list and does not occur. */
  lemma {:induction false} HitsMissesMembership(keys: seq<string>, text: string)
    ensures forall k :: k in KeywordHits(keys, text) <==> k in keys && Contains(text, Lower(k))
    ensures forall k :: k in KeywordMisses(keys, text) <==> k in keys && !Contains(text, Lower(k))
  {
    if keys != [] {
      HitsMissesMembership(keys[1..], text);
      assert forall k :: k in keys <==> k == keys[0] || k in keys[1..];
    }
  }

  /** The hits and the misses both keep the list's order, and their lengths add up
      to the list's. */
  lemma {:induction false} HitsMissesSplit(keys: seq<string>, text: string)
    ensures |KeywordHits(keys, text)| + |KeywordMisses(keys, text)| == |keys|
    ensures IsSubsequence(KeywordHits(keys, text), keys) && IsSubsequence(KeywordMisses(keys, text), keys)
  {
    if keys != [] {
      HitsMissesSplit(keys[1..], text);
      var h := KeywordHits(keys, text);
      var m := KeywordMisses(keys, text);
      if Contains(text, Lower(keys[0])) {
        assert h[0] == keys[0] && h[1..] == KeywordHits(keys[1..], text);
        assert m == KeywordMisses(keys[1..], text);
        SkipHead(m, keys);
      } else {
        assert m[0] == keys[0] && m[1..] == KeywordMisses(keys[1..], text);
        assert h == KeywordHits(keys[1..], text);
        SkipHead(h, keys);
      }
    }
  }

  lemma {:induction false} HitsBound(keys: seq<string>, text: string)
    ensures |KeywordHits(keys, text)| <= |keys|
  {
    if keys != [] {
      HitsBound(keys[1..], text);
    }
  }

  /** A subsequence of the tail of `b` is a subsequence of `b`. */
  lemma {:induction false} SkipHead(a: seq<string>, b: seq<string>)
    requires b != [] && IsSubsequence(a, b[1..])
    ensures IsSubsequence(a, b)
    decreases |a| + |b|
  {
    if a != [] && a[0] == b[0] {
      SubsequenceTail(a, b[1..]);
    }
  }

  lemma {:induction false} SubsequenceTail(a: seq<string>, b: seq<string>)
    requires a != [] && IsSubsequence(a, b)
    ensures IsSubsequence(a[1..], b)
    decreases |a| + |b|
  {
    if a[0] != b[0] {
      SubsequenceTail(a, b[1..]);
      SkipHead(a[1..], b);
    } else if a[1..] != [] {
      SkipHead(a[1..], b);
    }
  }

  /** `extract_skills(text)`: for each field, in table order, the field's keywords
      that occur in the preprocessed text. */
  method ExtractSkills(table: KeywordTable, text: string) returns (found: map<string, seq<string>>)
    requires table.Valid()
    ensures found == SkillsFound(table, text)
  {
    var t := Preprocess(text);
    found := map[];
    var fi := 0;
    while fi < |table.fields|
      invariant 0 <= fi <= |table.fields|
      invariant forall f :: f in found <==> f in table.fields[..fi]
      invariant forall f :: f in found ==> f in table.keywords && found[f] == KeywordHits(table.keywords[f], t)
    {
      var field := table.fields[fi];
      var fieldSkills := FieldHits(table.keywords[field], t);
      found := found[field := fieldSkills];
      assert table.fields[..fi + 1] == table.fields[..fi] + [field];
      fi := fi + 1;
    }
    assert table.fields[..fi] == table.fields;
  }

  /** The inner loop of `extract_skills`: the keywords of one field found in `t`. */
  method FieldHits(keywords: seq<string>, t: string) returns (fieldSkills: seq<string>)
    ensures fieldSkills == KeywordHits(keywords, t)
  {
    fieldSkills := [];
    var ki := 0;
    while ki < |keywords|
      invariant 0 <= ki <= |keywords|
      invariant fieldSkills == KeywordHits(keywords[..ki], t)
    {
      HitsAppend(keywords[..ki], keywords[ki], t);
      assert keywords[..ki + 1] == keywords[..ki] + [keywords[ki]];
      if Contains(t, Lower(keywords[ki])) {
        fieldSkills := fieldSkills + [keywords[ki]];
      }
      ki := ki + 1;
    }
    assert keywords[..ki] == keywords;
  }

  /** `extract_skills` reports every field of the table, and for each field exactly
      the keywords of that field occurring in the preprocessed text, in table order. */
  lemma SkillsFoundShape(table: KeywordTable, text: string)
    ensures SkillsFound(table, text).Keys == table.keywords.Keys
    ensures forall f :: f in table.keywords ==>
      var hits := SkillsFound(table, text)[f];
      && IsSubsequence(hits, table.keywords[f])
      && forall k :: k in hits <==> k in table.keywords[f] && Contains(Preprocess(text), Lower(k))
  {
    var t := Preprocess(text);
    forall f | f in table.keywords
      ensures var hits := SkillsFound(table, text)[f];
        && IsSubsequence(hits, table.keywords[f])
        && forall k :: k in hits <==> k in table.keywords[f] && Contains(t, Lower(k))
    {
      HitsMissesSplit(table.keywords[f], t);
      HitsMissesMembership(table.keywords[f], t);
    }
  }

  /** Only the first ten missing skills matter: two lists of missing skills that
      agree on their first ten get the same suggestions. */
  lemma SuggestionsSeeFirstTen(missing: seq<string>, other: seq<string>, field: string, resumeText: string)
    requires missing != [] && Take(missing, 10) == Take(other, 10)
    ensures Suggestions(missing, field, resumeText) == Suggestions(other, field, resumeText)
  {
  }

  /** A keyword with a character that preprocessing never leaves (punctuation,
      upper case after lowering is impossible) is never reported for any text. */
  lemma PunctuatedNeverReported(text: string, keys: seq<string>, k: string, j: nat)
    requires j < |Lower(k)| && !IsLowerAlnum(Lower(k)[j]) && Lower(k)[j] != ' '
    ensures k !in KeywordHits(keys, Preprocess(text))
  {
    var t := Preprocess(text);
    ContainsNeedsChar(t, Lower(k), j);
    HitsMissesMembership(keys, t);
  }

  /** 'node.js' and 'full-stack' are in the table but can never be extracted. */
  lemma NodeJsAndFullStackNeverReported(text: string)
    ensures "node.js" !in SkillsFound(DefaultTable, text)["Software Engineering"]
    ensures "full-stack" !in SkillsFound(DefaultTable, text)["Software Engineering"]
  {
    assert Lower("node.js")[4] == '.';
    assert Lower("full-stack")[4] == '-';
    PunctuatedNeverReported(text, FieldKeywords["Software Engineering"], "node.js", 4);
    PunctuatedNeverReported(text, FieldKeywords["Software Engineering"], "full-stack", 4);
  }

  // ---------------------------------------------------------------------------
  // Field recommendations
  // ---------------------------------------------------------------------------

  /** The number of keyword hits of each field. */
  function HitCounts(found: map<string, seq<string>>): (counts: map<string, real>)
    ensures counts.Keys == found.Keys
    ensures forall f :: f in counts ==> counts[f] >= 0.0
  {
    map f | f in found :: |found[f]| as real
  }

  /** The arithmetic of `_keyword_based_recommendations` on per-field hit counts:
      each field's share of the total, 0.33 each when the total is 0, then divided
      by the sum of those values when it is positive. */
  function Renormalised(fields: seq<string>, counts: map<string, real>): (r: map<string, real>)
    requires forall f :: f in counts <==> f in fields
    ensures r.Keys == counts.Keys
  {
    var total := SumOver(fields, counts);
    var raw := if total == 0.0 then map f | f in counts :: 0.33 else Scale(counts, total);
    var s := SumOver(fields, raw);
    if s > 0.0 then Scale(raw, s) else raw
  }

  /** `_keyword_based_recommendations(text)` for a field table. */
  function KeywordRecommendations(table: KeywordTable, text: string): (r: map<string, real>)
    requires table.Valid()
    ensures r.Keys == table.keywords.Keys
  {
    Renormalised(table.fields, HitCounts(SkillsFound(table, text)))
  }

  /** The total number of keyword hits over all fields, in table order. */
  function TotalHits(table: KeywordTable, text: string): real
    requires table.Valid()
  {
    SumOver(table.fields, HitCounts(SkillsFound(table, text)))
  }

  /** With a zero total every field gets the same share, 1 / (number of fields). */
  lemma RenormalisedWithoutHits(fields: seq<string>, counts: map<string, real>)
    requires forall f :: f in counts <==> f in fields
    requires fields != []
    requires SumOver(fields, counts) == 0.0
    ensures var r := Renormalised(fields, counts);
      && SumOver(fields, r) == 1.0
      && forall f :: f in r ==> r[f] == 1.0 / |fields| as real
  {
    var raw := map f | f in counts :: 0.33;
    Uniform(fields, raw, 0.33);
  }

  /** With non-negative counts and a positive total each field gets its share of the
      total, a value in [0, 1], and the shares sum to 1. */
  lemma RenormalisedWithHits(fields: seq<string>, counts: map<string, real>)
    requires forall f :: f in counts <==> f in fields
    requires NonNegativeOver(fields, counts)
    requires SumOver(fields, counts) > 0.0
    ensures var r := Renormalised(fields, counts);
      && SumOver(fields, r) == 1.0
      && (forall f :: f in r ==> r[f] == counts[f] / SumOver(fields, counts))
      && (forall f :: f in r ==> 0.0 <= r[f] <= 1.0)
  {
    var total := SumOver(fields, counts);
    Shares(fields, counts);
    var raw := Scale(counts, total);
    var r := Renormalised(fields, counts);
    assert r == Scale(raw, 1.0);
    SumScaled(fields, raw, 1.0);
    forall f | f in r ensures r[f] == raw[f] {
      assert r[f] == raw[f] / 1.0;
    }
  }

  /** The keyword recommendations are a probability distribution over the table's
      fields: each value in [0, 1], summing to 1; uniform when no keyword is hit, and
      otherwise each field's share of the hits (so a field without hits gets 0). */
  lemma KeywordRecommendationsDistribution(table: KeywordTable, text: string)
    requires table.Valid() && table.fields != []
    ensures var r := KeywordRecommendations(table, text);
      && SumOver(table.fields, r) == 1.0
      && (forall f :: f in r ==> 0.0 <= r[f] <= 1.0)
      && (TotalHits(table, text) == 0.0 ==> forall f :: f in r ==> r[f] == 1.0 / |table.fields| as real)
      && (TotalHits(table, text) > 0.0 ==> forall f :: f in r ==>
            r[f] == |SkillsFound(table, text)[f]| as real / TotalHits(table, text))
  {
    var found := SkillsFound(table, text);
    var counts := HitCounts(found);
    assert forall f :: f in counts <==> f in table.fields;
    assert NonNegativeOver(table.fields, counts);
    SumNonNegative(table.fields, counts);
    if SumOver(table.fields, counts) == 0.0 {
      RenormalisedWithoutHits(table.fields, counts);
      forall f | f in table.fields ensures 0.0 <= 1.0 / |table.fields| as real <= 1.0 {
        DivBounds(1.0, |table.fields| as real);
      }
    } else {
      RenormalisedWithHits(table.fields, counts);
    }
  }

  /** For the default three-field table a resume without any keyword gets 1/3 for each field. */
  lemma DefaultRecommendationsUniform(text: string)
    requires TotalHits(DefaultTable, text) == 0.0
    ensures forall f :: f in KeywordRecommendations(DefaultTable, text) ==>
      KeywordRecommendations(DefaultTable, text)[f] == 1.0 / 3.0
  {
    DefaultTableValid();
    KeywordRecommendationsDistribution(DefaultTable, text);
  }

  /** What a trained classifier contributes to `get_field_recommendations`:
      nothing (no classifier, or a vectorizer never fitted), an exception, or the
      class names and probabilities it predicts. */
  datatype FieldClassifier = Unavailable | Raises | Predicts(classes: seq<string>, probabilities: seq<real>)

  /** `dict(zip(keys, values))`: pairs up to the shorter length, later pairs win. */
  function ZipMap(keys: seq<string>, values: seq<real>): (m: map<string, real>)
    ensures forall k :: k in m <==> k in keys[..if |keys| <= |values| then |keys| else |values|]
  {
    var n := if |keys| <= |values| then |keys| else |values|;
    if n == 0 then map[]
    else
      var m := ZipMap(keys[..n - 1], values[..n - 1]);
      assert keys[..n] == keys[..n - 1] + [keys[n - 1]];
      m[keys[n - 1] := values[n - 1]]
  }

  /** In `dict(zip(keys, values))` a key maps to the value of its last pairing:
      the value at index `i` when no later paired index holds the same key. */
  lemma {:induction false} ZipMapAt(keys: seq<string>, values: seq<real>, i: nat)
    requires i < |keys| && i < |values|
    requires forall j :: i < j < |keys| && j < |values| ==> keys[j] != keys[i]
    ensures keys[i] in ZipMap(keys, values)
    ensures ZipMap(keys, values)[keys[i]] == values[i]
  {
    var n := if |keys| <= |values| then |keys| else |values|;
    if i < n - 1 {
      var ks, vs := keys[..n - 1], values[..n - 1];
      assert forall j :: i < j < |ks| && j < |vs| ==> ks[j] == keys[j];
      ZipMapAt(ks, vs, i);
      assert ks[i] == keys[i] && vs[i] == values[i];
    }
  }

  /** `get_field_recommendations(text)`: the classifier's probabilities when it
      answers, the keyword recommendations when it is missing or raises. */
  function FieldRecommendations(table: KeywordTable, text: string, classifier: FieldClassifier): (r: map<string, real>)
    requires table.Valid() && table.fields != []
    ensures !classifier.Predicts? ==> r.Keys == table.keywords.Keys && SumOver(table.fields, r) == 1.0
    ensures classifier.Predicts? ==> r.Keys == ZipMap(classifier.classes, classifier.probabilities).Keys
  {
    match classifier
    case Predicts(classes, probabilities) => ZipMap(classes, probabilities)
    case _ =>
      KeywordRecommendationsDistribution(table, text);
      KeywordRecommendations(table, text)
  }

  // ---------------------------------------------------------------------------
  // Partial credit for a skill
  // ---------------------------------------------------------------------------

  function RealMin(a: real, b: real): real {
    if a <= b then a else b
  }

  /** What `calculate_skill_score(skill, text)` returns. */
  function SkillScore(skill: string, resumeText: string): real {
    var t := Preprocess(resumeText);
    if Contains(t, Lower(skill)) then 1.0
    else if Lower(skill) in RelatedTerms then RealMin(0.2 * CountContained(RelatedTerms[Lower(skill)], t) as real, 0.8)
    else 0.0
  }

  lemma {:induction false} CountContainedAppend(keys: seq<string>, k: string, text: string)
    ensures CountContained(keys + [k], text) == CountContained(keys, text) + (if Contains(text, k) then 1 else 0)
  {
    if keys == [] {
      assert keys + [k] == [k];
    } else {
      assert (keys + [k])[1..] == keys[1..] + [k];
      CountContainedAppend(keys[1..], k, text);
    }
  }

  /** `calculate_skill_score(skill, text)`: 1.0 for a skill named outright; else
      0.2 per related term present, capped at 0.8; else 0. */
  method CalculateSkillScore(skill: string, resumeText: string) returns (score: real)
    ensures score == SkillScore(skill, resumeText)
  {
    var text := Preprocess(resumeText);
    if Contains(text, Lower(skill)) {
      return 1.0;
    }
    var skillLower := Lower(skill);
    if skillLower in RelatedTerms {
      var terms := RelatedTerms[skillLower];
      var s := 0.0;
      var i := 0;
      while i < |terms|
        invariant 0 <= i <= |terms|
        invariant s == 0.2 * CountContained(terms[..i], text) as real
      {
        CountContainedAppend(terms[..i], terms[i], text);
        assert terms[..i + 1] == terms[..i] + [terms[i]];
        if Contains(text, terms[i]) {
          s := s + 0.2;
        }
        i := i + 1;
      }
      assert terms[..i] == terms;
      return RealMin(s, 0.8);
    }
    return 0.0;
  }

  /** The score of a skill lies in [0, 1]; it is 1 exactly on a direct match, at most
      0.8 otherwise, and 0 for a skill without related terms. */
  lemma SkillScoreRange(skill: string, resumeText: string)
    ensures 0.0 <= SkillScore(skill, resumeText) <= 1.0
    ensures SkillScore(skill, resumeText) == 1.0 <==> Contains(Preprocess(resumeText), Lower(skill))
    ensures !Contains(Preprocess(resumeText), Lower(skill)) ==> SkillScore(skill, resumeText) <= 0.8
    ensures !Contains(Preprocess(resumeText), Lower(skill)) && Lower(skill) !in RelatedTerms ==>
      SkillScore(skill, resumeText) == 0.0
  {
  }

  // ---------------------------------------------------------------------------
  // Suggestions
  // ---------------------------------------------------------------------------

  function Take<T>(s: seq<T>, n: nat): (r: seq<T>)
    ensures |r| <= n && |r| <= |s|
    ensures |r| == n || r == s
    ensures r == s[..|r|]
  {
    if |s| <= n then s else s[..n]
  }

  function ExcellentMessage(field: string): string {
    "Excellent! " + "Your resume covers most required skills for " + field
  }

  predicate IsSoft(skill: string) { Lower(skill) in SoftSkillKeywords }
  predicate IsTool(skill: string) { !IsSoft(skill) && Lower(skill) in ToolKeywords }
  predicate IsTechnical(skill: string) { !IsSoft(skill) && !IsTool(skill) }

  /** `[x for x in xs if keep(x)]`. */
  function Filter<T>(xs: seq<T>, keep: T -> bool): seq<T> {
    if xs == [] then [] else (if keep(xs[0]) then [xs[0]] else []) + Filter(xs[1..], keep)
  }

  function SoftOnes(skills: seq<string>): seq<string> { Filter(skills, IsSoft) }
  function ToolOnes(skills: seq<string>): seq<string> { Filter(skills, IsTool) }
  function TechnicalOnes(skills: seq<string>): seq<string> { Filter(skills, IsTechnical) }

  lemma {:induction false} FilterAppend<T>(xs: seq<T>, x: T, keep: T -> bool)
    ensures Filter(xs + [x], keep) == Filter(xs, keep) + (if keep(x) then [x] else [])
  {
    if xs == [] {
      assert xs + [x] == [x];
    } else {
      var ys := xs + [x];
      assert ys[0] == xs[0] && ys[1..] == xs[1..] + [x];
      FilterAppend(xs[1..], x, keep);
      ConcatAssoc(if keep(xs[0]) then [xs[0]] else [], Filter(xs[1..], keep), if keep(x) then [x] else []);
    }
  }

  /** The three category lines, each naming at most five, three and three skills. */
  function CategoryLines(technical: seq<string>, tools: seq<string>, soft: seq<string>): seq<string> {
    (if technical != [] then ["Consider adding technical skills: " + Join(Take(technical, 5), ", ")] else [])
    + (if tools != [] then ["Include experience with tools/platforms: " + Join(Take(tools, 3), ", ")] else [])
    + (if soft != [] then ["Highlight soft skills: " + Join(Take(soft, 3), ", ")] else [])
  }

  function FieldAdvice(field: string): seq<string> {
    if field == "Software Engineering" then [
      "Include " + "specific programming projects with GitHub links",
      "Mention " + "software development methodologies (Agile, Scrum)",
      "Add " + "details about system architecture and scalability",
      "Include " + "code quality practices (testing, code reviews)"]
    else if field == "Data Analyst" then [
      "Include " + "data analysis projects with quantifiable results",
      "Mention " + "specific datasets or business problems you've solved",
      "Add " + "experience with statistical analysis and A/B testing",
      "Include " + "data visualization examples and dashboards"]
    else if field == "Consultant" then [
      "Highlight " + "client-facing experience and business impact",
      "Include " + "examples of process improvements or cost savings",
      "Add " + "details about stakeholder management and communication",
      "Mention " + "industry expertise and domain knowledge"]
    else []
  }

  /** `re.search(r'\d+%|\d+\+|increased|improved|reduced', s)`. */
  predicate MentionsMetrics(s: string) {
    (exists i :: 0 <= i < |s| - 1 && IsDigit(s[i]) && (s[i + 1] == '%' || s[i + 1] == '+'))
    || Contains(s, "increased") || Contains(s, "improved") || Contains(s, "reduced")
  }

  function GeneralAdvice(resumeText: string): seq<string> {
    var textLower := Lower(resumeText);
    (if !Contains(textLower, "project") then ["Add " + "a projects section to showcase practical experience"] else [])
    + (if WordCount(resumeText) < 300 then ["Expand " + "your resume with more detailed descriptions"] else [])
    + (if !MentionsMetrics(textLower) then ["Include " + "quantifiable achievements and metrics"] else [])
  }

  /** What `generate_suggestions(missing, field, text)` returns. Only the first ten
      missing skills are categorised. */
  function Suggestions(missing: seq<string>, field: string, resumeText: string): (r: seq<string>)
    ensures 1 <= |r| <= 8
  {
    if missing == [] then [ExcellentMessage(field)]
    else
      var first := Take(missing, 10);
      CategoriesCount(first);
      CategoryLinesHead(TechnicalOnes(first), ToolOnes(first), SoftOnes(first));
      Take(CategoryLines(TechnicalOnes(first), ToolOnes(first), SoftOnes(first))
           + FieldAdvice(field) + GeneralAdvice(resumeText), 8)
  }

  /** Every skill falls in exactly one category, so the three category lists
      together are as long as the list categorised. */
  lemma {:induction false} CategoriesCount(skills: seq<string>)
    ensures |TechnicalOnes(skills)| + |ToolOnes(skills)| + |SoftOnes(skills)| == |skills|
  {
    if skills != [] {
      CategoriesCount(skills[1..]);
    }
  }

  /** Each category list holds only skills of the list categorised, of that
      category. */
  lemma {:induction false} CategoriesSorted(skills: seq<string>)
    ensures forall s :: s in TechnicalOnes(skills) ==> s in skills && IsTechnical(s)
    ensures forall s :: s in ToolOnes(skills) ==> s in skills && IsTool(s)
    ensures forall s :: s in SoftOnes(skills) ==> s in skills && IsSoft(s)
  {
    if skills != [] {
      CategoriesSorted(skills[1..]);
    }
  }

  /** The suggestions: exactly the one "Excellent!" message when nothing is missing;
      otherwise between one and eight lines, none of them that message. */
  lemma SuggestionsShape(missing: seq<string>, field: string, resumeText: string)
    ensures var r := Suggestions(missing, field, resumeText);
      && |r| <= 8
      && (missing == [] <==> r == [ExcellentMessage(field)])
      && (missing != [] ==> |r| >= 1 && forall j :: 0 <= j < |r| ==> r[j] != ExcellentMessage(field))
  {
    if missing != [] {
      var first := Take(missing, 10);
      var lines := CategoryLines(TechnicalOnes(first), ToolOnes(first), SoftOnes(first));
      var advice := FieldAdvice(field);
      var general := GeneralAdvice(resumeText);
      CategoryLinesUnlike(TechnicalOnes(first), ToolOnes(first), SoftOnes(first));
      FieldAdviceUnlike(field);
      GeneralAdviceUnlike(resumeText);
      UnlikeAll(lines, advice, general, field);
      CategoriesCount(first);
      CategoryLinesHead(TechnicalOnes(first), ToolOnes(first), SoftOnes(first));
      LedByCategoryLine(lines, advice, general, field);
    }
  }

  /** A line that differs from the "Excellent!" message in its first or third
      character. */
  predicate UnlikeExcellent(line: string) {
    |line| > 2 && (line[0] != 'E' || line[2] != 'c')
  }

  predicate AllUnlike(lines: seq<string>) {
    forall j :: 0 <= j < |lines| ==> UnlikeExcellent(lines[j])
  }

  lemma UnlikeAll(lines: seq<string>, advice: seq<string>, general: seq<string>, field: string)
    requires AllUnlike(lines) && AllUnlike(advice) && AllUnlike(general)
    ensures var r := Take(lines + advice + general, 8);
      forall j :: 0 <= j < |r| ==> r[j] != ExcellentMessage(field)
  {
    var all := lines + advice + general;
    var r := Take(all, 8);
    ExcellentHead(field);
    forall j | 0 <= j < |r|
      ensures r[j] != ExcellentMessage(field)
    {
      assert r[j] == all[j];
      if j < |lines| {
        assert all[j] == lines[j];
      } else if j < |lines| + |advice| {
        assert all[j] == advice[j - |lines|];
      } else {
        assert all[j] == general[j - |lines| - |advice|];
      }
    }
  }

  lemma CategoryLinesUnlike(technical: seq<string>, tools: seq<string>, soft: seq<string>)
    ensures AllUnlike(CategoryLines(technical, tools, soft))
  {
  }

  lemma AllUnlikeConcat(a: seq<string>, b: seq<string>)
    requires AllUnlike(a) && AllUnlike(b)
    ensures AllUnlike(a + b)
  {
    forall j | 0 <= j < |a + b| ensures UnlikeExcellent((a + b)[j]) {
      if j < |a| {
        assert (a + b)[j] == a[j];
      } else {
        assert (a + b)[j] == b[j - |a|];
      }
    }
  }

  lemma FieldAdviceUnlike(field: string)
    ensures AllUnlike(FieldAdvice(field))
  {
    var a := FieldAdvice(field);
    if field == "Software Engineering" {
      assert UnlikeExcellent(a[0]) && UnlikeExcellent(a[1]) && UnlikeExcellent(a[2]) && UnlikeExcellent(a[3]);
    } else if field == "Data Analyst" {
      assert UnlikeExcellent(a[0]) && UnlikeExcellent(a[1]) && UnlikeExcellent(a[2]) && UnlikeExcellent(a[3]);
    } else if field == "Consultant" {
      assert UnlikeExcellent(a[0]) && UnlikeExcellent(a[1]) && UnlikeExcellent(a[2]) && UnlikeExcellent(a[3]);
    }
  }

  lemma GeneralAdviceUnlike(resumeText: string)
    ensures AllUnlike(GeneralAdvice(resumeText))
  {
    var textLower := Lower(resumeText);
    var p := if !Contains(textLower, "project") then ["Add " + "a projects section to showcase practical experience"] else [];
    var e := if WordCount(resumeText) < 300 then ["Expand " + "your resume with more detailed descriptions"] else [];
    var m := if !MentionsMetrics(textLower) then ["Include " + "quantifiable achievements and metrics"] else [];
    assert GeneralAdvice(resumeText) == p + e + m;
    AllUnlikeConcat(p, e);
    AllUnlikeConcat(p + e, m);
  }

  /** The suggestions for missing skills: the category lines for the first ten,
      then the field advice and the general advice, cut to eight. */
  lemma SuggestionsUnfold(missing: seq<string>, field: string, resumeText: string)
    requires missing != []
    ensures var first := Take(missing, 10);
      Suggestions(missing, field, resumeText)
      == Take(CategoryLines(TechnicalOnes(first), ToolOnes(first), SoftOnes(first))
              + (FieldAdvice(field) + GeneralAdvice(resumeText)), 8)
  {
    var first := Take(missing, 10);
    ConcatAssoc(CategoryLines(TechnicalOnes(first), ToolOnes(first), SoftOnes(first)),
                FieldAdvice(field), GeneralAdvice(resumeText));
  }

  lemma ConcatAssoc<T>(a: seq<T>, b: seq<T>, c: seq<T>)
    ensures a + b + c == a + (b + c)
  {
  }

  /** The category lines name at most five technical, three tool and three soft
      skills, each one of the missing skills of its category, and every such line
      is among the suggestions. */
  lemma SuggestionsNameFewSkills(missing: seq<string>, field: string, resumeText: string)
    requires missing != []
    ensures var first := Take(missing, 10);
      var technical := Take(TechnicalOnes(first), 5);
      var tools := Take(ToolOnes(first), 3);
      var soft := Take(SoftOnes(first), 3);
      var r := Suggestions(missing, field, resumeText);
      && |technical| <= 5 && |tools| <= 3 && |soft| <= 3
      && (forall s :: s in technical ==> s in missing && IsTechnical(s))
      && (forall s :: s in tools ==> s in missing && IsTool(s))
      && (forall s :: s in soft ==> s in missing && IsSoft(s))
      && (technical != [] ==> "Consider adding technical skills: " + Join(technical, ", ") in r)
      && (tools != [] ==> "Include experience with tools/platforms: " + Join(tools, ", ") in r)
      && (soft != [] ==> "Highlight soft skills: " + Join(soft, ", ") in r)
  {
    var first := Take(missing, 10);
    CategoriesSorted(first);
    PrefixMembers(TechnicalOnes(first), 5);
    PrefixMembers(ToolOnes(first), 3);
    PrefixMembers(SoftOnes(first), 3);
    PrefixMembers(missing, 10);
    var lines := CategoryLines(TechnicalOnes(first), ToolOnes(first), SoftOnes(first));
    CategoryLinesNamed(TechnicalOnes(first), ToolOnes(first), SoftOnes(first));
    LinesInTake(lines, FieldAdvice(field) + GeneralAdvice(resumeText), 8);
    SuggestionsUnfold(missing, field, resumeText);
  }

  /** Each non-empty category gets its line, naming its first five or three skills. */
  lemma CategoryLinesNamed(technical: seq<string>, tools: seq<string>, soft: seq<string>)
    ensures var lines := CategoryLines(technical, tools, soft);
      && |lines| <= 3
      && (technical != [] ==> "Consider adding technical skills: " + Join(Take(technical, 5), ", ") in lines)
      && (tools != [] ==> "Include experience with tools/platforms: " + Join(Take(tools, 3), ", ") in lines)
      && (soft != [] ==> "Highlight soft skills: " + Join(Take(soft, 3), ", ") in lines)
  {
  }

  /** At most `n` leading lines all survive `[:n]`. */
  lemma LinesInTake(lines: seq<string>, rest: seq<string>, n: nat)
    requires |lines| <= n
    ensures forall line :: line in lines ==> line in Take(lines + rest, n)
  {
    var r := Take(lines + rest, n);
    forall line | line in lines ensures line in r {
      var j :| 0 <= j < |lines| && lines[j] == line;
      assert r[j] == (lines + rest)[j] == line;
    }
  }

  /** What a prefix holds, the whole sequence holds. */
  lemma PrefixMembers<T>(s: seq<T>, n: nat)
    ensures forall x :: x in Take(s, n) ==> x in s
  {
    forall x | x in Take(s, n) ensures x in s {
      var j :| 0 <= j < |Take(s, n)| && Take(s, n)[j] == x;
      assert s[j] == x;
    }
  }

  /** Suggestions led by a category line are not the "Excellent!" message. */
  lemma LedByCategoryLine(lines: seq<string>, advice: seq<string>, general: seq<string>, field: string)
    requires |lines| >= 1 && |lines[0]| > 0 && lines[0][0] != 'E'
    ensures var r := Take(lines + advice + general, 8);
      1 <= |r| <= 8 && r != [ExcellentMessage(field)]
  {
    var r := Take(lines + advice + general, 8);
    assert r[0] == lines[0];
    ExcellentHead(field);
    assert r[0][0] != ExcellentMessage(field)[0];
  }

  lemma ExcellentHead(field: string)
    ensures |ExcellentMessage(field)| > 2 && ExcellentMessage(field)[0] == 'E' && ExcellentMessage(field)[2] == 'c'
  {
  }

  /** Some category line is produced for a non-empty category, and none of them
      starts like the "Excellent!" message. */
  lemma CategoryLinesHead(technical: seq<string>, tools: seq<string>, soft: seq<string>)
    requires |technical| + |tools| + |soft| > 0
    ensures var lines := CategoryLines(technical, tools, soft);
      && 1 <= |lines| <= 3
      && |lines[0]| > 0 && lines[0][0] != 'E'
  {
  }

  lemma CategoryAppend(skills: seq<string>, s: string)
    ensures SoftOnes(skills + [s]) == SoftOnes(skills) + (if IsSoft(s) then [s] else [])
    ensures ToolOnes(skills + [s]) == ToolOnes(skills) + (if IsTool(s) then [s] else [])
    ensures TechnicalOnes(skills + [s]) == TechnicalOnes(skills) + (if IsTechnical(s) then [s] else [])
  {
    FilterAppend(skills, s, IsSoft);
    FilterAppend(skills, s, IsTool);
    FilterAppend(skills, s, IsTechnical);
  }

  /** `generate_suggestions(missing, field, text)`. */
  method GenerateSuggestions(missing: seq<string>, field: string, resumeText: string) returns (suggestions: seq<string>)
    ensures suggestions == Suggestions(missing, field, resumeText)
  {
    suggestions := [];
    if missing == [] {
      suggestions := suggestions + [ExcellentMessage(field)];
      return;
    }
    var technical: seq<string> := [];
    var soft: seq<string> := [];
    var tools: seq<string> := [];
    var first := Take(missing, 10);
    var i := 0;
    while i < |first|
      invariant 0 <= i <= |first|
      invariant technical == TechnicalOnes(first[..i])
      invariant tools == ToolOnes(first[..i])
      invariant soft == SoftOnes(first[..i])
    {
      var skill := first[i];
      CategoryAppend(first[..i], skill);
      assert first[..i + 1] == first[..i] + [skill];
      if IsSoft(skill) {
        soft := soft + [skill];
      } else if IsTool(skill) {
        tools := tools + [skill];
      } else {
        technical := technical + [skill];
      }
      i := i + 1;
    }
    assert first[..i] == first;
    if technical != [] {
      suggestions := suggestions + ["Consider adding technical skills: " + Join(Take(technical, 5), ", ")];
    }
    if tools != [] {
      suggestions := suggestions + ["Include experience with tools/platforms: " + Join(Take(tools, 3), ", ")];
    }
    if soft != [] {
      suggestions := suggestions + ["Highlight soft skills: " + Join(Take(soft, 3), ", ")];
    }
    assert suggestions == CategoryLines(technical, tools, soft);
    suggestions := suggestions + FieldAdvice(field);
    var general := GeneralSuggestions(resumeText);
    suggestions := suggestions + general;
    suggestions := Take(suggestions, 8);
  }

  /** The content-based part of `generate_suggestions`. */
  method GeneralSuggestions(resumeText: string) returns (suggestions: seq<string>)
    ensures suggestions == GeneralAdvice(resumeText)
  {
    suggestions := [];
    var textLower := Lower(resumeText);
    if !Contains(textLower, "project") {
      suggestions := suggestions + ["Add " + "a projects section to showcase practical experience"];
    }
    if WordCount(resumeText) < 300 {
      suggestions := suggestions + ["Expand " + "your resume with more detailed descriptions"];
    }
    if !MentionsMetrics(textLower) {
      suggestions := suggestions + ["Include " + "quantifiable achievements and metrics"];
    }
  }

  // ---------------------------------------------------------------------------
  // Resume analysis
  // ---------------------------------------------------------------------------

  /** The record `analyze_resume` returns. */
  datatype Analysis = Analysis(
    matchPercentage: real,
    requirementsMet: seq<string>,
    requirementsMissing: seq<string>,
    suggestions: seq<string>,
    skillsAnalysis: map<string, real>)

  /** `[s for s in required if s not in target]`. */
  function NotIn(required: seq<string>, target: seq<string>): seq<string> {
    if required == [] then []
    else (if required[0] in target then [] else [required[0]]) + NotIn(required[1..], target)
  }

  lemma {:induction false} NotInIsMisses(xs: seq<string>, hits: seq<string>, text: string)
    requires forall k :: k in xs ==> (k in hits <==> Contains(text, Lower(k)))
    ensures NotIn(xs, hits) == KeywordMisses(xs, text)
  {
    if xs != [] {
      NotInIsMisses(xs[1..], hits, text);
    }
  }

  /** `(len(met) / len(required)) * 100 if required else 0`: the share of the
      required keywords that is met, as a percentage. */
  function MatchPercentage(met: nat, required: nat): (p: real)
    requires met <= required
    ensures 0.0 <= p <= 100.0
    ensures p == 0.0 <==> met == 0
    ensures p == 100.0 <==> 0 < met == required
    ensures required > 0 ==> p * required as real == 100.0 * met as real
  {
    if required > 0 then (met as real / required as real) * 100.0 else 0.0
  }

  /** The `skills_analysis` loop of `analyze_resume`: 1.0 for each required keyword
      already met, its partial-credit score otherwise. */
  method AnalyzeSkills(requiredSkills: seq<string>, targetSkills: seq<string>, resumeText: string)
    returns (skillsAnalysis: map<string, real>)
    ensures forall k :: k in skillsAnalysis <==> k in requiredSkills
    ensures forall k :: k in skillsAnalysis ==>
      skillsAnalysis[k] == if k in targetSkills then 1.0 else SkillScore(k, resumeText)
  {
    skillsAnalysis := map[];
    var i := 0;
    while i < |requiredSkills|
      invariant 0 <= i <= |requiredSkills|
      invariant forall k :: k in skillsAnalysis <==> k in requiredSkills[..i]
      invariant forall k :: k in skillsAnalysis ==>
        skillsAnalysis[k] == if k in targetSkills then 1.0 else SkillScore(k, resumeText)
    {
      var skill := requiredSkills[i];
      if skill in targetSkills {
        skillsAnalysis := skillsAnalysis[skill := 1.0];
      } else {
        var skillScore := CalculateSkillScore(skill, resumeText);
        skillsAnalysis := skillsAnalysis[skill := skillScore];
      }
      assert requiredSkills[..i + 1] == requiredSkills[..i] + [skill];
      i := i + 1;
    }
    assert requiredSkills[..i] == requiredSkills;
  }

  /** `analyze_resume(text, field)`: the field's keywords split into those met and
      those missing, the share met as a percentage (0 for a field not in the table),
      the suggestions for what is missing, and a score per required keyword. */
  method AnalyzeResume(table: KeywordTable, resumeText: string, targetField: string) returns (a: Analysis)
    requires table.Valid()
    ensures var required := table.KeywordsFor(targetField);
      && a.requirementsMet == KeywordHits(required, Preprocess(resumeText))
      && a.requirementsMissing == KeywordMisses(required, Preprocess(resumeText))
      && |a.requirementsMet| <= |required|
      && a.matchPercentage == MatchPercentage(|a.requirementsMet|, |required|)
      && a.suggestions == Suggestions(a.requirementsMissing, targetField, resumeText)
      && (forall k :: k in a.skillsAnalysis <==> k in required)
      && (forall k :: k in a.requirementsMet ==> k in a.skillsAnalysis && a.skillsAnalysis[k] == 1.0)
      && (forall k :: k in a.requirementsMissing ==> k in a.skillsAnalysis
                                                     && a.skillsAnalysis[k] == SkillScore(k, resumeText)
                                                     && a.skillsAnalysis[k] <= 0.8)
  {
    var skillsFound := ExtractSkills(table, resumeText);
    var t := Preprocess(resumeText);
    var targetSkills := if targetField in skillsFound then skillsFound[targetField] else [];
    var requiredSkills := table.KeywordsFor(targetField);
    assert targetSkills == KeywordHits(requiredSkills, t);
    HitsBound(requiredSkills, t);
    var matchPercentage := MatchPercentage(|targetSkills|, |requiredSkills|);
    var requirementsMissing := NotIn(requiredSkills, targetSkills);
    assert requirementsMissing == KeywordMisses(requiredSkills, t) by {
      HitsMissesMembership(requiredSkills, t);
      NotInIsMisses(requiredSkills, targetSkills, t);
    }
    var suggestions := GenerateSuggestions(requirementsMissing, targetField, resumeText);
    var skillsAnalysis := AnalyzeSkills(requiredSkills, targetSkills, resumeText);
    forall k | k in targetSkills
      ensures k in skillsAnalysis && skillsAnalysis[k] == 1.0
    {
      HitsMissesMembership(requiredSkills, t);
    }
    forall k | k in requirementsMissing
      ensures k in skillsAnalysis && skillsAnalysis[k] == SkillScore(k, resumeText) <= 0.8
    {
      HitsMissesMembership(requiredSkills, t);
      SkillScoreRange(k, resumeText);
    }
    a := Analysis(matchPercentage, targetSkills, requirementsMissing, suggestions, skillsAnalysis);
  }
}
