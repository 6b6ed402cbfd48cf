/** The ATS point scorer: eight independent rules, each turning the resume text
    (and, for two of them, the field keyword table) into a bounded sub-score;
    the sub-scores are summed and clamped to [0, 100].

    The regular expressions built on `\b` (email, three of the four phone
    patterns, the four date patterns, the graduation year) are not interpreted:
    their outcomes on the resume text arrive as a `RegexOutcomes` value. */
module AtsScorer {
  import opened Wrappers
  import opened Text
  import opened Sums
  import opened ResumeAnalyzer

  // ---------------------------------------------------------------------------
  // Criteria
  // ---------------------------------------------------------------------------

  /** The scoring categories; `Key` gives each one's key in `scoring_criteria`. */
  datatype Category = ContactInfo | ProfessionalSummary | WorkExperience | Education
                    | Skills | KeywordsMatch | Formatting | Length
  {
    function Key(): string {
      match this
      case ContactInfo => "contact_info"
      case ProfessionalSummary => "professional_summary"
      case WorkExperience => "work_experience"
      case Education => "education"
      case Skills => "skills"
      case KeywordsMatch => "keywords_match"
      case Formatting => "formatting"
      case Length => "length"
    }
  }

  /** The categories in the order the scorer fills its `scores` dict. */
  const Categories: seq<Category> := [ContactInfo, ProfessionalSummary, WorkExperience, Education,
    Skills, KeywordsMatch, Formatting, Length]

  /** `scoring_criteria`: the maximum points of each category. */
  const ScoringCriteria: map<Category, real> := map[
    ContactInfo := 10.0, ProfessionalSummary := 8.0, WorkExperience := 25.0, Education := 10.0,
    Skills := 20.0, KeywordsMatch := 15.0, Formatting := 7.0, Length := 5.0]

  /** Every category has a maximum and is listed once. */
  lemma CategoriesComplete()
    ensures forall c :: c in ScoringCriteria && c in Categories
    ensures forall i, j :: 0 <= i < j < |Categories| ==> Categories[i] != Categories[j]
  {
    forall c: Category
      ensures c in ScoringCriteria && c in Categories
    {
      match c
      case ContactInfo => assert Categories[0] == c;
      case ProfessionalSummary => assert Categories[1] == c;
      case WorkExperience => assert Categories[2] == c;
      case Education => assert Categories[3] == c;
      case Skills => assert Categories[4] == c;
      case KeywordsMatch => assert Categories[5] == c;
      case Formatting => assert Categories[6] == c;
      case Length => assert Categories[7] == c;
    }
  }

  /** The category maxima add up to 100. */
  lemma CriteriaTotal()
    ensures forall c :: c in Categories ==> c in ScoringCriteria
    ensures SumOver(Categories, ScoringCriteria) == 100.0
  {
    var m := ScoringCriteria;
    assert Categories[8..] == [];
    assert Categories[7..] == [Length];
    assert Categories[6..] == [Formatting, Length];
    assert Categories[5..] == [KeywordsMatch, Formatting, Length];
    assert Categories[4..] == [Skills, KeywordsMatch, Formatting, Length];
    assert Categories[3..] == [Education, Skills, KeywordsMatch, Formatting, Length];
    assert Categories[2..] == [WorkExperience, Education, Skills, KeywordsMatch, Formatting, Length];
    assert Categories[1..] == [ProfessionalSummary, WorkExperience, Education, Skills, KeywordsMatch, Formatting, Length];
    assert SumOver(Categories[8..], m) == 0.0;
    assert SumOver(Categories[7..], m) == 5.0;
    assert SumOver(Categories[6..], m) == 12.0;
    assert SumOver(Categories[5..], m) == 27.0;
    assert SumOver(Categories[4..], m) == 47.0;
    assert SumOver(Categories[3..], m) == 57.0;
    assert SumOver(Categories[2..], m) == 82.0;
    assert SumOver(Categories[1..], m) == 90.0;
  }

  // ---------------------------------------------------------------------------
  // Regular expressions
  // ---------------------------------------------------------------------------

  /** Outcomes of the regular expressions the model does not interpret, on the
      resume text: whether each `re.search` finds a match, and the number of
      `re.findall` matches of each date pattern. */
  datatype RegexOutcomes = RegexOutcomes(
    email: bool,
    plainPhone: bool,
    internationalPhone: bool,
    tenDigitPhone: bool,
    yearRanges: nat,
    yearToPresent: nat,
    monthYears: nat,
    slashYears: nat,
    graduationYear: bool)

  predicate DigitsAt(s: string, i: int, n: nat) {
    0 <= i && i + n <= |s| && forall k :: i <= k < i + n ==> IsDigit(s[k])
  }

  /** `[-.\s]` at position `i`. */
  predicate SeparatorAt(s: string, i: int) {
    0 <= i < |s| && (s[i] == '-' || s[i] == '.' || IsSpace(s[i]))
  }

  /** `\d{3}[-.\s]?\d{4}` from position `k`. */
  predicate LocalNumberAt(s: string, k: int) {
    DigitsAt(s, k, 3) && (DigitsAt(s, k + 3, 4) || (SeparatorAt(s, k + 3) && DigitsAt(s, k + 4, 4)))
  }

  /** `\s?\d{3}[-.\s]?\d{4}` from position `j`. */
  predicate PhoneTailAt(s: string, j: int) {
    LocalNumberAt(s, j) || (0 <= j < |s| && IsSpace(s[j]) && LocalNumberAt(s, j + 1))
  }

  /** Python's `$` without MULTILINE: the end of the string, or just before a
      newline that ends it. */
  predicate EndAnchor(s: string, i: int) {
    i == |s| || (0 <= i == |s| - 1 && s[i] == '\n')
  }

  /** The second phone pattern as written, `$$\d{3}$$\s?\d{3}[-.\s]?\d{4}`, matching at `i`. */
  predicate DollarPhoneAt(s: string, i: int) {
    EndAnchor(s, i) && EndAnchor(s, i) && DigitsAt(s, i, 3)
    && EndAnchor(s, i + 3) && EndAnchor(s, i + 3) && PhoneTailAt(s, i + 3)
  }

  predicate DollarPhoneSearch(s: string) {
    exists i :: 0 <= i <= |s| && DollarPhoneAt(s, i)
  }

  /** The pattern the comment beside it describes, `\(\d{3}\)\s?\d{3}[-.\s]?\d{4}`,
      matching at `i`. */
  predicate ParenPhoneAt(s: string, i: nat) {
    i + 5 <= |s| && s[i] == '(' && DigitsAt(s, i + 1, 3) && s[i + 4] == ')' && PhoneTailAt(s, i + 5)
  }

  predicate ParenPhoneSearch(s: string) {
    exists i :: 0 <= i <= |s| && ParenPhoneAt(s, i)
  }

  /** The pattern as written can never match: `$` holds only at the end of the
      string or before its final newline, and `\d` must follow it there. */
  lemma DollarPhoneNeverMatches(s: string)
    ensures !DollarPhoneSearch(s)
  {
    forall i | 0 <= i <= |s|
      ensures !(EndAnchor(s, i) && DigitsAt(s, i, 3))
    {
    }
  }

  /** "(555) 123-4567", the format the comment names, is found by the intended
      pattern and missed by the pattern as written. */
  lemma ParenPhoneExample()
    ensures ParenPhoneSearch("(555) 123-4567")
    ensures !DollarPhoneSearch("(555) 123-4567")
  {
    var s := "(555) 123-4567";
    assert DigitsAt(s, 1, 3);
    assert IsSpace(s[5]);
    assert DigitsAt(s, 6, 3) && SeparatorAt(s, 9) && DigitsAt(s, 10, 4);
    assert LocalNumberAt(s, 6);
    assert ParenPhoneAt(s, 0);
    DollarPhoneNeverMatches(s);
  }

  /** A match of the intended pattern is a parenthesised area code followed by a
      seven-digit local number. */
  lemma ParenPhoneShape(s: string, i: nat)
    requires ParenPhoneAt(s, i)
    ensures s[i] == '(' && s[i + 4] == ')'
    ensures forall k :: i + 1 <= k < i + 4 ==> IsDigit(s[k])
    ensures LocalNumberAt(s, i + 5) || (IsSpace(s[i + 5]) && LocalNumberAt(s, i + 6))
  {
  }

  // ---------------------------------------------------------------------------
  // Contact information
  // ---------------------------------------------------------------------------

  datatype PhonePattern = PlainPhone | ParenthesisedPhone | InternationalPhone | TenDigitPhone

  /** `phone_patterns`, in the order they are tried. */
  const PhonePatterns: seq<PhonePattern> := [PlainPhone, ParenthesisedPhone, InternationalPhone, TenDigitPhone]

  predicate PhoneMatches(p: PhonePattern, text: string, rx: RegexOutcomes) {
    match p
    case PlainPhone => rx.plainPhone
    case ParenthesisedPhone => DollarPhoneSearch(text)
    case InternationalPhone => rx.internationalPhone
    case TenDigitPhone => rx.tenDigitPhone
  }

  /** Some phone pattern, as written, matches the text. */
  predicate HasPhone(text: string, rx: RegexOutcomes) {
    rx.plainPhone || DollarPhoneSearch(text) || rx.internationalPhone || rx.tenDigitPhone
  }

  predicate HasProfileLink(textLower: string) {
    Contains(textLower, "linkedin") || Contains(textLower, "github") || Contains(textLower, "portfolio")
  }

  /** The contact points: 4 for an email, 3 for a phone number, 3 for a profile link. */
  function ContactPoints(text: string, rx: RegexOutcomes): int {
    (if rx.email then 4 else 0) + (if HasPhone(text, rx) then 3 else 0)
    + (if HasProfileLink(Lower(text)) then 3 else 0)
  }

  /** `score_contact_info(text)`: the phone loop stops at the first pattern found,
      so a phone is counted once however many formats occur. */
  method ScoreContactInfo(text: string, rx: RegexOutcomes) returns (score: int)
    ensures score == ContactPoints(text, rx)
  {
    score := 0;
    var textLower := Lower(text);
    if rx.email {
      score := score + 4;
    }
    var base := score;
    var i := 0;
    while i < |PhonePatterns|
      invariant 0 <= i <= |PhonePatterns|
      invariant score == base
      invariant forall j :: 0 <= j < i ==> !PhoneMatches(PhonePatterns[j], text, rx)
    {
      if PhoneMatches(PhonePatterns[i], text, rx) {
        score := score + 3;
        break;
      }
      i := i + 1;
    }
    assert score == base + 3 <==> HasPhone(text, rx) by {
      assert PhoneMatches(PhonePatterns[0], text, rx) == rx.plainPhone;
      assert PhoneMatches(PhonePatterns[1], text, rx) == DollarPhoneSearch(text);
      assert PhoneMatches(PhonePatterns[2], text, rx) == rx.internationalPhone;
      assert PhoneMatches(PhonePatterns[3], text, rx) == rx.tenDigitPhone;
    }
    if Contains(textLower, "linkedin") || Contains(textLower, "github") || Contains(textLower, "portfolio") {
      score := score + 3;
    }
  }

  /** The contact score is one of 0, 3, 4, 6, 7 and 10; 10 exactly when an email,
      a phone number and a profile link are all present. */
  lemma ContactPointsValues(text: string, rx: RegexOutcomes)
    ensures ContactPoints(text, rx) in {0, 3, 4, 6, 7, 10}
    ensures ContactPoints(text, rx) == 10 <==>
      rx.email && HasPhone(text, rx) && HasProfileLink(Lower(text))
    ensures ContactPoints(text, rx) == 0 <==>
      !rx.email && !HasPhone(text, rx) && !HasProfileLink(Lower(text))
  {
  }

  /** As written, the second phone pattern never contributes: a phone is counted
      exactly when one of the other three patterns matches. */
  lemma HasPhoneAsWritten(text: string, rx: RegexOutcomes)
    ensures HasPhone(text, rx) <==> rx.plainPhone || rx.internationalPhone || rx.tenDigitPhone
  {
    DollarPhoneNeverMatches(text);
  }

  /** A phone number with the second pattern as intended, so that the
      "(123) 456-7890" format counts too. */
  predicate IntendedHasPhone(text: string, rx: RegexOutcomes) {
    rx.plainPhone || ParenPhoneSearch(text) || rx.internationalPhone || rx.tenDigitPhone
  }

  /** The contact points with the intended second phone pattern: they exceed the
      points as written by 3 exactly when a parenthesised number is the only phone
      in the text, and take the same values. */
  function IntendedContactPoints(text: string, rx: RegexOutcomes): (r: int)
    ensures r in {0, 3, 4, 6, 7, 10}
    ensures r == ContactPoints(text, rx) + (if ParenPhoneSearch(text) && !HasPhone(text, rx) then 3 else 0)
  {
    DollarPhoneNeverMatches(text);
    (if rx.email then 4 else 0) + (if IntendedHasPhone(text, rx) then 3 else 0)
    + (if HasProfileLink(Lower(text)) then 3 else 0)
  }

  /** "(555) 123-4567" alone earns no contact points as written, and the 3 phone
      points with the intended pattern. */
  lemma ParenthesisedPhoneMissed()
    ensures var rx := RegexOutcomes(false, false, false, false, 0, 0, 0, 0, false);
      && ContactPoints("(555) 123-4567", rx) == 0
      && IntendedContactPoints("(555) 123-4567", rx) == 3
  {
    var s := "(555) 123-4567";
    ParenPhoneExample();
    DollarPhoneNeverMatches(s);
    var t := Lower(s);
    assert forall i :: 0 <= i < |t| ==> t[i] == s[i];
    ContainsNeedsChar(t, "linkedin", 0);
    ContainsNeedsChar(t, "github", 0);
    ContainsNeedsChar(t, "portfolio", 0);
  }

  // ---------------------------------------------------------------------------
  // Professional summary
  // ---------------------------------------------------------------------------

  const SummaryKeywords: seq<string> := ["summary", "objective", "profile", "about", "overview"]

  /** The first of `keys` that occurs in `text`. */
  function FirstContained(keys: seq<string>, text: string): Option<string> {
    if keys == [] then None
    else if Contains(text, keys[0]) then Some(keys[0])
    else FirstContained(keys[1..], text)
  }

  /** `' '.join(lines[i+1:i+4])`: the (up to) three lines after line `i`. */
  function NextLines(lines: seq<string>, i: nat): string
    requires i < |lines|
  {
    Join(lines[i + 1..Min(i + 4, |lines|)], " ")
  }

  /** Line `i` mentions `keyword` and the three lines after it hold more than ten words. */
  predicate SubstantialAt(lines: seq<string>, i: nat, keyword: string)
    requires i < |lines|
  {
    Contains(Lower(lines[i]), keyword) && i + 1 < |lines| && WordCount(NextLines(lines, i)) > 10
  }

  /** The summary points: 0 without a summary keyword; for the first keyword found,
      8 when some line mentioning it is followed by more than ten words, else 4. */
  function SummaryPoints(text: string): int {
    match FirstContained(SummaryKeywords, Lower(text))
    case None => 0
    case Some(k) =>
      var lines := SplitLines(text);
      if exists i :: 0 <= i < |lines| && SubstantialAt(lines, i, k) then 8 else 4
  }

  /** `score_professional_summary(text)`. */
  method ScoreProfessionalSummary(text: string) returns (score: int)
    ensures score == SummaryPoints(text)
  {
    var textLower := Lower(text);
    var ki := 0;
    while ki < |SummaryKeywords|
      invariant 0 <= ki <= |SummaryKeywords|
      invariant FirstContained(SummaryKeywords, textLower) == FirstContained(SummaryKeywords[ki..], textLower)
    {
      var keyword := SummaryKeywords[ki];
      if Contains(textLower, keyword) {
        assert FirstContained(SummaryKeywords, textLower) == Some(keyword);
        var lines := SplitLines(text);
        var i := 0;
        while i < |lines|
          invariant 0 <= i <= |lines|
          invariant forall j :: 0 <= j < i ==> !SubstantialAt(lines, j, keyword)
        {
          if Contains(Lower(lines[i]), keyword) && i + 1 < |lines| {
            var nextLines := Join(lines[i + 1..Min(i + 4, |lines|)], " ");
            if WordCount(nextLines) > 10 {
              assert SubstantialAt(lines, i, keyword);
              return 8;
            }
          }
          i := i + 1;
        }
        return 4;
      }
      assert SummaryKeywords[ki..][1..] == SummaryKeywords[ki + 1..];
      ki := ki + 1;
    }
    return 0;
  }

  lemma {:induction false} FirstContainedNone(keys: seq<string>, text: string)
    ensures FirstContained(keys, text) == None <==> forall k :: k in keys ==> !Contains(text, k)
  {
    if keys != [] {
      FirstContainedNone(keys[1..], text);
      assert forall k :: k in keys <==> k == keys[0] || k in keys[1..];
      if !Contains(text, keys[0]) {
        assert FirstContained(keys, text) == FirstContained(keys[1..], text);
        if forall k :: k in keys[1..] ==> !Contains(text, k) {
          forall k | k in keys
            ensures !Contains(text, k)
          {
            if k != keys[0] {
              assert k in keys[1..];
            }
          }
        }
      } else {
        assert keys[0] in keys;
      }
    }
  }

  /** The summary score is 0, 4 or 8, and 0 exactly when no summary keyword
      occurs in the lower-cased text. */
  lemma SummaryPointsValues(text: string)
    ensures SummaryPoints(text) in {0, 4, 8}
    ensures SummaryPoints(text) == 0 <==> forall k :: k in SummaryKeywords ==> !Contains(Lower(text), k)
  {
    FirstContainedNone(SummaryKeywords, Lower(text));
  }

  // ---------------------------------------------------------------------------
  // Work experience
  // ---------------------------------------------------------------------------

  const ExperienceKeywords: seq<string> := ["experience", "employment", "work history", "career", "professional experience"]

  /** `any(k in text for k in keys)`. */
  predicate AnyContained(keys: seq<string>, text: string) {
    exists k :: k in keys && Contains(text, k)
  }

  /** The `re.findall` match counts of the four date patterns, in order. */
  function DateMatchCounts(rx: RegexOutcomes): seq<nat> {
    [rx.yearRanges, rx.yearToPresent, rx.monthYears, rx.slashYears]
  }

  function NatSum(s: seq<nat>): nat {
    if s == [] then 0 else NatSum(s[..|s| - 1]) + s[|s| - 1]
  }

  /** 15, 10 or 5 points for at least three, two or one dated positions. */
  function PositionPoints(jobCount: nat): int {
    if jobCount >= 3 then 15 else if jobCount >= 2 then 10 else if jobCount >= 1 then 5 else 0
  }

  /** The work-experience points: 10 for an experience section plus the position
      points, capped at 25. */
  function ExperiencePoints(hasSection: bool, jobCount: nat): int {
    Min(25, (if hasSection then 10 else 0) + PositionPoints(jobCount))
  }

  /** `score_work_experience(text)`. */
  method ScoreWorkExperience(text: string, rx: RegexOutcomes) returns (score: int)
    ensures score == ExperiencePoints(AnyContained(ExperienceKeywords, Lower(text)), NatSum(DateMatchCounts(rx)))
  {
    score := 0;
    var textLower := Lower(text);
    var hasExperienceSection := AnyContained(ExperienceKeywords, textLower);
    if hasExperienceSection {
      score := score + 10;
    }
    var counts := DateMatchCounts(rx);
    var jobCount: nat := 0;
    var i := 0;
    while i < |counts|
      invariant 0 <= i <= |counts|
      invariant jobCount == NatSum(counts[..i])
    {
      assert counts[..i + 1][..i] == counts[..i];
      jobCount := jobCount + counts[i];
      i := i + 1;
    }
    assert counts[..i] == counts;
    if jobCount >= 3 {
      score := score + 15;
    } else if jobCount >= 2 {
      score := score + 10;
    } else if jobCount >= 1 {
      score := score + 5;
    }
    score := Min(25, score);
  }

  /** The work-experience score lies in [0, 25], never needs its cap, and does not
      decrease as more dated positions are found. */
  lemma ExperiencePointsFacts(hasSection: bool, jobCount: nat, more: nat)
    requires jobCount <= more
    ensures 0 <= ExperiencePoints(hasSection, jobCount) <= 25
    ensures ExperiencePoints(hasSection, jobCount) == (if hasSection then 10 else 0) + PositionPoints(jobCount)
    ensures ExperiencePoints(hasSection, jobCount) <= ExperiencePoints(hasSection, more)
    ensures ExperiencePoints(hasSection, jobCount) % 5 == 0
  {
  }

  // ---------------------------------------------------------------------------
  // Education
  // ---------------------------------------------------------------------------

  const EducationKeywords: seq<string> := ["education", "degree", "university", "college", "bachelor",
    "master", "phd", "diploma"]
  const CourseKeywords: seq<string> := ["coursework", "certification", "certified", "course"]

  predicate MentionsGpa(textLower: string) {
    Contains(textLower, "gpa") || Contains(textLower, "grade point average")
  }

  /** The education points: 2 for an education keyword (once), 3 for a graduation
      year, 2 for a GPA and 3 for coursework or certification, capped at 10. */
  function EducationPoints(text: string, rx: RegexOutcomes): int {
    var t := Lower(text);
    Min(10, (if AnyContained(EducationKeywords, t) then 2 else 0) + (if rx.graduationYear then 3 else 0)
            + (if MentionsGpa(t) then 2 else 0) + (if AnyContained(CourseKeywords, t) then 3 else 0))
  }

  /** `score_education(text)`. */
  method ScoreEducation(text: string, rx: RegexOutcomes) returns (score: int)
    ensures score == EducationPoints(text, rx)
  {
    var textLower := Lower(text);
    score := 0;
    var i := 0;
    while i < |EducationKeywords|
      invariant 0 <= i <= |EducationKeywords|
      invariant score == 0
      invariant forall j :: 0 <= j < i ==> !Contains(textLower, EducationKeywords[j])
    {
      if Contains(textLower, EducationKeywords[i]) {
        score := score + 2;
        break;
      }
      i := i + 1;
    }
    assert score == (if AnyContained(EducationKeywords, textLower) then 2 else 0);
    if rx.graduationYear {
      score := score + 3;
    }
    if Contains(textLower, "gpa") || Contains(textLower, "grade point average") {
      score := score + 2;
    }
    if AnyContained(CourseKeywords, textLower) {
      score := score + 3;
    }
    score := Min(10, score);
  }

  /** The education score lies in [0, 10] and its parts never exceed the cap. */
  lemma EducationPointsRange(text: string, rx: RegexOutcomes)
    ensures 0 <= EducationPoints(text, rx) <= 10
    ensures var t := Lower(text);
      EducationPoints(text, rx) == (if AnyContained(EducationKeywords, t) then 2 else 0)
        + (if rx.graduationYear then 3 else 0) + (if MentionsGpa(t) then 2 else 0)
        + (if AnyContained(CourseKeywords, t) then 3 else 0)
  {
  }

  // ---------------------------------------------------------------------------
  // Skills and keyword match
  // ---------------------------------------------------------------------------

  /** `score_skills(text, field)`: 5 for a skills section plus 1.5 per field keyword
      found in the lower-cased text, the latter capped at 15. */
  function ScoreSkills(table: KeywordTable, text: string, field: string): (r: real)
    ensures 0.0 <= r <= 20.0
  {
    var textLower := Lower(text);
    var baseScore := if Contains(textLower, "skill") then 5.0 else 0.0;
    var skillsFound := |KeywordHits(table.KeywordsFor(field), textLower)|;
    baseScore + RealMin(15.0, skillsFound as real * 1.5)
  }

  /** The skills score grows by 1.5 with each keyword found until 15 is reached,
      is at most 15 without a skills section and is 0 or 5 when nothing is found. */
  lemma ScoreSkillsFacts(table: KeywordTable, text: string, field: string)
    ensures var found := |KeywordHits(table.KeywordsFor(field), Lower(text))|;
      && (found <= 10 ==> ScoreSkills(table, text, field)
                            == (if Contains(Lower(text), "skill") then 5.0 else 0.0) + 1.5 * found as real)
      && (found >= 10 ==> ScoreSkills(table, text, field)
                            == (if Contains(Lower(text), "skill") then 20.0 else 15.0))
  {
  }

  /** `score_keywords_match(text, field)`: the share of the field's keywords found
      in the lower-cased text, times 15; 0 for a field without keywords. */
  function ScoreKeywordsMatch(table: KeywordTable, text: string, field: string): (r: real)
    ensures 0.0 <= r <= 15.0
  {
    var fieldKeywords := table.KeywordsFor(field);
    var matches := |KeywordHits(fieldKeywords, Lower(text))|;
    HitsBound(fieldKeywords, Lower(text));
    var matchPercentage := if |fieldKeywords| > 0 then
      Fraction(matches, |fieldKeywords|);
      matches as real / |fieldKeywords| as real
    else 0.0;
    matchPercentage * 15.0
  }

  /** The keyword-match score lies in [0, 15]; it is 0 for a field without keywords
      or when none is found, and 15 exactly when every keyword is found. */
  lemma ScoreKeywordsMatchRange(table: KeywordTable, text: string, field: string)
    ensures var keys := table.KeywordsFor(field);
      var found := |KeywordHits(keys, Lower(text))|;
      && 0.0 <= ScoreKeywordsMatch(table, text, field) <= 15.0
      && (keys == [] ==> ScoreKeywordsMatch(table, text, field) == 0.0)
      && (ScoreKeywordsMatch(table, text, field) == 0.0 <==> found == 0)
      && (ScoreKeywordsMatch(table, text, field) == 15.0 <==> keys != [] && found == |keys|)
  {
    var keys := table.KeywordsFor(field);
    var found := |KeywordHits(keys, Lower(text))|;
    HitsBound(keys, Lower(text));
    if keys != [] {
      Fraction(found, |keys|);
    }
  }

  /** A count out of a positive total, as a fraction: in [0, 1], 0 only for a
      zero count and 1 only for the full total. */
  lemma Fraction(count: nat, total: nat)
    requires 0 < total && count <= total
    ensures var p := count as real / total as real;
      && 0.0 <= p <= 1.0
      && (p == 0.0 <==> count == 0)
      && (p == 1.0 <==> count == total)
  {
    var p := count as real / total as real;
    DivBounds(count as real, total as real);
    assert p * total as real == count as real;
    if p == 1.0 {
      assert 1.0 * total as real == count as real;
    }
    if p == 0.0 {
      assert 0.0 * total as real == count as real;
    }
  }

  // ---------------------------------------------------------------------------
  // Formatting and length
  // ---------------------------------------------------------------------------

  const SectionNames: seq<string> := ["experience", "education", "skills", "summary"]

  /** `^\s*` before position `j` with MULTILINE: only whitespace between the start
      of a line and `j`. */
  predicate AtLineIndent(s: string, j: nat)
    requires j <= |s|
  {
    j == 0 || s[j - 1] == '\n' || (IsSpace(s[j - 1]) && AtLineIndent(s, j - 1))
  }

  /** `re.search(r'^\s*[-*]\s', text, re.MULTILINE)`. */
  predicate HasBulletLine(s: string) {
    exists j :: 0 <= j < |s| - 1 && (s[j] == '-' || s[j] == '*') && IsSpace(s[j + 1]) && AtLineIndent(s, j)
  }

  /** `re.search(r'[A-Z][a-z]', text)`. */
  predicate HasCapitalisedWord(s: string) {
    exists i :: 0 <= i < |s| - 1 && IsUpper(s[i]) && IsLower(s[i + 1])
  }

  predicate HasBullets(text: string) {
    '•' in text || '·' in text || HasBulletLine(text)
  }

  /** The formatting points before clamping: up to 4 for section names, 2 for
      bullets, 1 for capitalisation, minus 1 for more than five triple newlines. */
  function RawFormattingPoints(text: string): int {
    Min(4, CountContained(SectionNames, Lower(text)))
    + (if HasBullets(text) then 2 else 0)
    + (if HasCapitalisedWord(text) then 1 else 0)
    - (if CountOccurrences(text, "\n\n\n") > 5 then 1 else 0)
  }

  /** `score_formatting(text)`. */
  method ScoreFormatting(text: string) returns (score: int)
    ensures score == Max(0, Min(7, RawFormattingPoints(text)))
  {
    score := 0;
    var sectionCount := CountContained(SectionNames, Lower(text));
    score := score + Min(4, sectionCount);
    if '•' in text || '·' in text || HasBulletLine(text) {
      score := score + 2;
    }
    if HasCapitalisedWord(text) {
      score := score + 1;
    }
    if CountOccurrences(text, "\n\n\n") > 5 {
      score := score - 1;
    }
    score := Max(0, Min(7, score));
  }

  /** The raw formatting points lie in [-1, 7], so the upper clamp never binds and
      the lower one only lifts the single case -1 (no section, bullet or capital
      letter, and more than five triple newlines) to 0. */
  lemma FormattingPointsRange(text: string)
    ensures -1 <= RawFormattingPoints(text) <= 7
    ensures Max(0, Min(7, RawFormattingPoints(text))) == Max(0, RawFormattingPoints(text))
    ensures RawFormattingPoints(text) == -1 <==>
      CountContained(SectionNames, Lower(text)) == 0 && !HasBullets(text) && !HasCapitalisedWord(text)
      && CountOccurrences(text, "\n\n\n") > 5
  {
  }

  /** `score_length(text)`: 5 for 300 to 800 words, 3 for 200 to 299 or 801 to
      1200, 1 below 200 and 2 above 1200. */
  function ScoreLength(text: string): (r: int)
    ensures r in {1, 2, 3, 5}
  {
    var wordCount := WordCount(text);
    if 300 <= wordCount <= 800 then 5
    else if 200 <= wordCount < 300 || 800 < wordCount <= 1200 then 3
    else if wordCount < 200 then 1
    else 2
  }

  /** Each length band, for every text: 5 exactly for 300 to 800 words, 3 exactly
      for 200 to 299 or 801 to 1200, 1 exactly below 200 and 2 exactly above 1200. */
  lemma ScoreLengthBands(text: string)
    ensures var w := WordCount(text);
      && (ScoreLength(text) == 5 <==> 300 <= w <= 800)
      && (ScoreLength(text) == 3 <==> (200 <= w < 300 || 800 < w <= 1200))
      && (ScoreLength(text) == 1 <==> w < 200)
      && (ScoreLength(text) == 2 <==> w > 1200)
  {
  }

  /** Up to the optimum's upper end, a longer resume never scores less. */
  lemma ScoreLengthMonotone(text: string, longer: string)
    requires WordCount(text) <= WordCount(longer) <= 800
    ensures ScoreLength(text) <= ScoreLength(longer)
  {
  }

  // ---------------------------------------------------------------------------
  // Total and breakdown
  // ---------------------------------------------------------------------------

  /** The sub-score of one category. */
  function SubScore(c: Category, table: KeywordTable, text: string, field: string, rx: RegexOutcomes): real {
    match c
    case ContactInfo => ContactPoints(text, rx) as real
    case ProfessionalSummary => SummaryPoints(text) as real
    case WorkExperience =>
      ExperiencePoints(AnyContained(ExperienceKeywords, Lower(text)), NatSum(DateMatchCounts(rx))) as real
    case Education => EducationPoints(text, rx) as real
    case Skills => ScoreSkills(table, text, field)
    case KeywordsMatch => ScoreKeywordsMatch(table, text, field)
    case Formatting => Max(0, Min(7, RawFormattingPoints(text))) as real
    case Length => ScoreLength(text) as real
  }

  /** The `scores` dict: every category mapped to its sub-score. */
  function SubScores(table: KeywordTable, text: string, field: string, rx: RegexOutcomes): (s: map<Category, real>)
    ensures forall c :: c in s <==> c in Categories
  {
    map c | c in Categories :: SubScore(c, table, text, field, rx)
  }

  /** Every sub-score lies between 0 and its category's maximum. */
  lemma SubScoreBounded(c: Category, table: KeywordTable, text: string, field: string, rx: RegexOutcomes)
    ensures c in ScoringCriteria && 0.0 <= SubScore(c, table, text, field, rx) <= ScoringCriteria[c]
  {
    match c
    case ContactInfo => ContactPointsValues(text, rx);
    case ProfessionalSummary => SummaryPointsValues(text);
    case WorkExperience =>
      var jobs := NatSum(DateMatchCounts(rx));
      ExperiencePointsFacts(AnyContained(ExperienceKeywords, Lower(text)), jobs, jobs);
    case Education => EducationPointsRange(text, rx);
    case Skills =>
    case KeywordsMatch => ScoreKeywordsMatchRange(table, text, field);
    case Formatting => FormattingPointsRange(text);
    case Length =>
  }

  /** The total of the sub-scores, in category order, lies in [0, 100]. */
  lemma TotalBounded(table: KeywordTable, text: string, field: string, rx: RegexOutcomes)
    ensures var s := SubScores(table, text, field, rx);
      0.0 <= SumOver(Categories, s) <= 100.0
  {
    var s := SubScores(table, text, field, rx);
    forall c | c in Categories
      ensures c in ScoringCriteria && 0.0 <= s[c] <= ScoringCriteria[c]
    {
      SubScoreBounded(c, table, text, field, rx);
    }
    CriteriaTotal();
    SumMonotone(Categories, s, ScoringCriteria);
    assert NonNegativeOver(Categories, s);
    SumNonNegative(Categories, s);
  }

  /** Lines 21-45 (and 276-285) of the scorer: the `scores` dict, filled one
      category at a time. */
  method ScoreCategories(table: KeywordTable, text: string, field: string, rx: RegexOutcomes)
    returns (scores: map<Category, real>)
    ensures forall c :: c in scores && scores[c] == SubScore(c, table, text, field, rx)
  {
    scores := map[];
    var contact := ScoreContactInfo(text, rx);
    scores := scores[ContactInfo := contact as real];
    var summary := ScoreProfessionalSummary(text);
    scores := scores[ProfessionalSummary := summary as real];
    var experience := ScoreWorkExperience(text, rx);
    scores := scores[WorkExperience := experience as real];
    var education := ScoreEducation(text, rx);
    scores := scores[Education := education as real];
    scores := scores[Skills := ScoreSkills(table, text, field)];
    scores := scores[KeywordsMatch := ScoreKeywordsMatch(table, text, field)];
    var formatting := ScoreFormatting(text);
    scores := scores[Formatting := formatting as real];
    scores := scores[Length := ScoreLength(text) as real];
    forall c
      ensures c in scores && scores[c] == SubScore(c, table, text, field, rx)
    {
      match c
      case ContactInfo =>
      case ProfessionalSummary =>
      case WorkExperience =>
      case Education =>
      case Skills =>
      case KeywordsMatch =>
      case Formatting =>
      case Length =>
    }
  }

  /** A dict holding every category's sub-score is the `scores` dict. */
  lemma ScoresAre(scores: map<Category, real>, table: KeywordTable, text: string, field: string, rx: RegexOutcomes)
    requires forall c :: c in scores && scores[c] == SubScore(c, table, text, field, rx)
    ensures scores == SubScores(table, text, field, rx)
  {
    CategoriesComplete();
  }

  function RealMax(a: real, b: real): real {
    if a >= b then a else b
  }

  /** `calculate_ats_score(text, field)`: the sum of the sub-scores; the final clamp
      to [0, 100] never changes it. */
  method CalculateAtsScore(table: KeywordTable, text: string, field: string, rx: RegexOutcomes)
    returns (score: real)
    ensures score == SumOver(Categories, SubScores(table, text, field, rx))
    ensures 0.0 <= score <= 100.0
  {
    var scores := ScoreCategories(table, text, field, rx);
    ScoresAre(scores, table, text, field, rx);
    var totalScore := SumOver(Categories, scores);
    TotalBounded(table, text, field, rx);
    score := RealMin(100.0, RealMax(0.0, totalScore));
  }

  /** One entry of `get_detailed_breakdown`. */
  datatype CategoryBreakdown = CategoryBreakdown(score: real, maxScore: real, percentage: real)
  {
    /** The percentage is the score's share of the maximum, and lies in [0, 100]. */
    predicate Consistent() {
      percentage * maxScore == 100.0 * score && 0.0 <= percentage <= 100.0
    }
  }

  /** The entry for a score between 0 and a positive maximum. */
  function Entry(score: real, maxScore: real): (b: CategoryBreakdown)
    requires 0.0 <= score <= maxScore && maxScore > 0.0
    ensures b.score == score && b.maxScore == maxScore && b.Consistent()
  {
    var percentage := if maxScore > 0.0 then (score / maxScore) * 100.0 else 0.0;
    Percent(score, maxScore);
    CategoryBreakdown(score, maxScore, RealMin(100.0, percentage))
  }

  /** `get_detailed_breakdown(text, field)`: for every category its score, its
      maximum and the score as a percentage of the maximum, which the `min(100, …)`
      never cuts. */
  method GetDetailedBreakdown(table: KeywordTable, text: string, field: string, rx: RegexOutcomes)
    returns (breakdown: map<Category, CategoryBreakdown>)
    ensures forall c :: c in breakdown
    ensures forall c :: c in breakdown ==>
      var b := breakdown[c];
      && b.score == SubScore(c, table, text, field, rx)
      && b.maxScore == ScoringCriteria[c]
      && b.Consistent()
  {
    var scores := ScoreCategories(table, text, field, rx);
    CategoriesComplete();
    forall c
      ensures c in scores && c in ScoringCriteria && 0.0 <= scores[c] <= ScoringCriteria[c]
    {
      SubScoreBounded(c, table, text, field, rx);
    }
    breakdown := Percentages(scores);
  }

  /** The percentage loop of `get_detailed_breakdown` over a `scores` dict whose
      values lie between 0 and their category's maximum. */
  method Percentages(scores: map<Category, real>) returns (breakdown: map<Category, CategoryBreakdown>)
    requires forall c :: c in scores && c in ScoringCriteria && 0.0 <= scores[c] <= ScoringCriteria[c]
    ensures forall c :: c in breakdown
    ensures forall c :: c in breakdown ==>
      var b := breakdown[c];
      && b.score == scores[c]
      && b.maxScore == ScoringCriteria[c]
      && b.Consistent()
  {
    CategoriesComplete();
    breakdown := map[];
    var i := 0;
    while i < |Categories|
      invariant 0 <= i <= |Categories|
      invariant forall j :: 0 <= j < i ==> Categories[j] in breakdown
      invariant forall c :: c in breakdown ==>
        var b := breakdown[c];
        b.score == scores[c] && b.maxScore == ScoringCriteria[c] && b.Consistent()
    {
      var category := Categories[i];
      var score := scores[category];
      var maxScore := ScoringCriteria[category];
      breakdown := breakdown[category := Entry(score, maxScore)];
      i := i + 1;
    }
    EveryCategoryListed(breakdown);
  }

  /** A dict holding every entry of `Categories` holds every category. */
  lemma EveryCategoryListed<V>(m: map<Category, V>)
    requires forall j :: 0 <= j < |Categories| ==> Categories[j] in m
    ensures forall c :: c in m
  {
    forall c
      ensures c in m
    {
      match c
      case ContactInfo => assert Categories[0] == c;
      case ProfessionalSummary => assert Categories[1] == c;
      case WorkExperience => assert Categories[2] == c;
      case Education => assert Categories[3] == c;
      case Skills => assert Categories[4] == c;
      case KeywordsMatch => assert Categories[5] == c;
      case Formatting => assert Categories[6] == c;
      case Length => assert Categories[7] == c;
    }
  }

  lemma Percent(score: real, maxScore: real)
    requires 0.0 <= score <= maxScore && maxScore > 0.0
    ensures var p := (score / maxScore) * 100.0;
      0.0 <= p <= 100.0 && p * maxScore == 100.0 * score
  {
    DivBounds(score, maxScore);
  }
}
