/** The synthetic training-set generator: an existing dataset is reused when it
    looks valid, otherwise every field's sample resumes are repeated cyclically to
    the field's target count, and each row gets a sequential, zero-padded ID with
    a field prefix.

    The sample resume texts are parameters (three non-empty lists), and every
    random draw of a row (experience level, ATS score, skills count, age in days)
    arrives as a `Draw` constrained to the range the generator draws from. */
module DatasetLoader {
  import opened Wrappers
  import opened Text

  // ---------------------------------------------------------------------------
  // Sample repetition
  // ---------------------------------------------------------------------------

  /** `samples * k`. */
  function Repeat(samples: seq<string>, k: nat): (r: seq<string>)
    ensures |r| == |samples| * k
  {
    if k == 0 then [] else Repeat(samples, k - 1) + samples
  }

  /** Entry `i` of `samples * k` is `samples[i % len(samples)]`. */
  lemma {:induction false} RepeatAt(samples: seq<string>, k: nat, i: nat)
    requires |samples| > 0 && i < |samples| * k
    ensures Repeat(samples, k)[i] == samples[i % |samples|]
  {
    var n := |samples|;
    assert n * k == n * (k - 1) + n;
    if i < n * (k - 1) {
      RepeatAt(samples, k - 1, i);
    } else {
      var j := i - n * (k - 1);
      ModUnique(i, n, k - 1, j);
    }
  }

  lemma {:induction false} MulAtLeast(n: int, d: int)
    requires n > 0 && d >= 1
    ensures n * d >= n
  {
    if d > 1 {
      MulAtLeast(n, d - 1);
      assert n * d == n * (d - 1) + n;
    }
  }

  /** Euclidean remainders are unique: `a == n * q + r` with `0 <= r < n` gives `a % n == r`. */
  lemma ModUnique(a: int, n: int, q: int, r: int)
    requires n > 0 && 0 <= r < n && a == n * q + r
    ensures a % n == r
  {
    var q0 := a / n;
    var r0 := a % n;
    assert a == n * q0 + r0;
    var d := q - q0;
    assert n * q == n * q0 + n * d;
    assert n * d == r0 - r;
    if d >= 1 {
      MulAtLeast(n, d);
    } else if d <= -1 {
      MulAtLeast(n, -d);
    }
  }

  /** `(samples * ((target_count // len(samples)) + 1))[:target_count]`. */
  function Extended(samples: seq<string>, targetCount: nat): (r: seq<string>)
    requires |samples| > 0
    ensures |r| == targetCount
    ensures forall i :: 0 <= i < targetCount ==> r[i] == samples[i % |samples|]
  {
    var k := targetCount / |samples| + 1;
    assert targetCount <= |samples| * k;
    var repeated := Repeat(samples, k);
    forall i | 0 <= i < targetCount
      ensures repeated[i] == samples[i % |samples|]
    {
      RepeatAt(samples, k, i);
    }
    repeated[..targetCount]
  }

  // ---------------------------------------------------------------------------
  // Row IDs
  // ---------------------------------------------------------------------------

  /** `s.replace(' ', '')`. */
  function RemoveBlanks(s: string): (r: string)
    ensures ' ' !in r
    ensures |r| <= |s|
  {
    if s == [] then [] else (if s[0] == ' ' then [] else [s[0]]) + RemoveBlanks(s[1..])
  }

  /** The first `k` non-blank characters of `s` (all of them when there are fewer). */
  function TakeNonBlank(s: string, k: nat): string {
    if k == 0 || s == [] then []
    else if s[0] == ' ' then TakeNonBlank(s[1..], k)
    else [s[0]] + TakeNonBlank(s[1..], k - 1)
  }

  /** Taking the first non-blank characters is removing the blanks and slicing. */
  lemma {:induction false} TakeNonBlankSlices(s: string, k: nat)
    ensures TakeNonBlank(s, k) == RemoveBlanks(s)[..Min(k, |RemoveBlanks(s)|)]
  {
    if k != 0 && s != [] {
      TakeNonBlankSlices(s[1..], if s[0] == ' ' then k else k - 1);
    }
  }

  /** `field.replace(' ', '')[:3].upper()`. */
  function FieldPrefix(field: string): string {
    Upper(TakeNonBlank(field, 3))
  }

  /** The prefix is the upper-cased first three characters once blanks are removed. */
  lemma FieldPrefixRemovesBlanks(field: string)
    ensures var squeezed := RemoveBlanks(field);
      FieldPrefix(field) == Upper(squeezed[..Min(3, |squeezed|)])
  {
    TakeNonBlankSlices(field, 3);
  }

  function DigitChar(d: nat): char
    requires d < 10
  {
    ('0' as int + d) as char
  }

  function DigitValue(c: char): int {
    c as int - '0' as int
  }

  /** The decimal digits of `n`, without leading zeros. */
  function Digits(n: nat): (r: string)
    ensures |r| >= 1
    ensures forall i :: 0 <= i < |r| ==> IsDigit(r[i])
    decreases n
  {
    if n < 10 then [DigitChar(n)] else Digits(n / 10) + [DigitChar(n % 10)]
  }

  /** f"{n:0{width}d}": the digits of `n`, left-padded with zeros to `width`. */
  function ZeroPad(n: nat, width: nat): (r: string)
    ensures |r| == if |Digits(n)| < width then width else |Digits(n)|
    ensures forall i :: 0 <= i < |r| ==> IsDigit(r[i])
  {
    var d := Digits(n);
    if |d| < width then seq(width - |d|, _ => '0') + d else d
  }

  /** The value of a string of decimal digits. */
  function ParseDecimal(s: string): int {
    if s == [] then 0 else ParseDecimal(s[..|s| - 1]) * 10 + DigitValue(s[|s| - 1])
  }

  /** Reading back the digits of `n` gives `n`. */
  lemma {:induction false} ParseDigits(n: nat)
    ensures ParseDecimal(Digits(n)) == n
    decreases n
  {
    var d := Digits(n);
    if n < 10 {
      assert d[..0] == [];
    } else {
      ParseDigits(n / 10);
      assert d[..|d| - 1] == Digits(n / 10);
    }
  }

  /** Leading zeros do not change the value. */
  lemma {:induction false} ParseLeadingZeros(k: nat, s: string)
    ensures ParseDecimal(seq(k, _ => '0') + s) == ParseDecimal(s)
    decreases |s|
  {
    var zeros: string := seq(k, _ => '0');
    if s == [] {
      assert zeros + s == zeros;
      ParseZeros(k);
    } else {
      var t := zeros + s;
      assert t[..|t| - 1] == zeros + s[..|s| - 1];
      ParseLeadingZeros(k, s[..|s| - 1]);
    }
  }

  lemma {:induction false} ParseZeros(k: nat)
    ensures ParseDecimal(seq(k, _ => '0')) == 0
  {
    if k > 0 {
      var zeros: string := seq(k, _ => '0');
      assert zeros[..k - 1] == seq(k - 1, _ => '0');
      ParseZeros(k - 1);
    }
  }

  /** Zero padding is undone by reading the number back. */
  lemma ParseZeroPad(n: nat, width: nat)
    ensures ParseDecimal(ZeroPad(n, width)) == n
  {
    var d := Digits(n);
    ParseDigits(n);
    if |d| < width {
      ParseLeadingZeros(width - |d|, d);
    }
  }

  /** f"{prefix}_{id_counter:03d}". */
  function MakeId(field: string, counter: nat): (r: string)
    ensures |r| == |FieldPrefix(field)| + 1 + |ZeroPad(counter, 3)|
  {
    FieldPrefix(field) + "_" + ZeroPad(counter, 3)
  }

  /** The counter is recovered from an ID, so fields with prefixes of equal length
      never share an ID between different counters. */
  lemma IdsDistinct(field1: string, n1: nat, field2: string, n2: nat)
    requires |FieldPrefix(field1)| == |FieldPrefix(field2)|
    requires n1 != n2
    ensures MakeId(field1, n1) != MakeId(field2, n2)
  {
    var p := |FieldPrefix(field1)| + 1;
    var id1 := MakeId(field1, n1);
    var id2 := MakeId(field2, n2);
    assert id1[p..] == ZeroPad(n1, 3);
    assert id2[p..] == ZeroPad(n2, 3);
    ParseZeroPad(n1, 3);
    ParseZeroPad(n2, 3);
  }

  /** Numbers up to 999 take three digits once padded. */
  lemma {:induction false} PadWidth(n: nat)
    requires 1 <= n <= 999
    ensures |ZeroPad(n, 3)| == 3
  {
    DigitsLength(n);
  }

  lemma {:induction false} DigitsLength(n: nat)
    ensures n < 1000 ==> |Digits(n)| <= 3
    ensures n < 100 ==> |Digits(n)| <= 2
    ensures n < 10 ==> |Digits(n)| == 1
    decreases n
  {
    if n >= 10 {
      DigitsLength(n / 10);
    }
  }

  // ---------------------------------------------------------------------------
  // Rows
  // ---------------------------------------------------------------------------

  datatype ExperienceLevel = Junior | Mid | Senior
  {
    /** `random.choice(['Junior', 'Mid', 'Senior'])` yields one of three names. */
    function Name(): (r: string)
      ensures r in ["Junior", "Mid", "Senior"]
    {
      match this
      case Junior => "Junior"
      case Mid => "Mid"
      case Senior => "Senior"
    }
  }

  /** The random draws of one row. */
  datatype Draw = Draw(level: ExperienceLevel, atsScore: int, skillsCount: int, daysAgo: int)
  {
    /** `randint(70, 98)`, `randint(8, 20)` and `randint(1, 90)` are inclusive. */
    predicate InRange() {
      70 <= atsScore <= 98 && 8 <= skillsCount <= 20 && 1 <= daysAgo <= 90
    }
  }

  /** One generated row; `created_date` is kept as the number of days before today. */
  datatype Row = Row(id: string, resumeText: string, jobField: string, experienceLevel: string,
                     atsScore: int, skillsCount: int, daysAgo: int)

  function MakeRow(field: string, text: string, counter: nat, d: Draw): Row {
    Row(MakeId(field, counter), text, field, d.level.Name(), d.atsScore, d.skillsCount, d.daysAgo)
  }

  /** One entry of `sample_sets`. */
  datatype SampleSet = SampleSet(samples: seq<string>, field: string, targetCount: nat)

  predicate NonEmptySamples(sets: seq<SampleSet>) {
    forall f :: 0 <= f < |sets| ==> |sets[f].samples| > 0
  }

  /** The number of rows the sets ask for. */
  function Total(sets: seq<SampleSet>): nat {
    if sets == [] then 0 else Total(sets[..|sets| - 1]) + sets[|sets| - 1].targetCount
  }

  /** The rows of one sample set, its counter starting at `firstId`. */
  function SetRows(s: SampleSet, firstId: nat, draws: seq<Draw>): (r: seq<Row>)
    requires |s.samples| > 0 && |draws| >= s.targetCount
    ensures |r| == s.targetCount
  {
    var texts := Extended(s.samples, s.targetCount);
    seq(s.targetCount, i requires 0 <= i < s.targetCount => MakeRow(s.field, texts[i], firstId + i, draws[i]))
  }

  /** The rows of all sets in order, the counter running on across sets from 1. */
  function AllRows(sets: seq<SampleSet>, draws: seq<Draw>): (r: seq<Row>)
    requires NonEmptySamples(sets) && |draws| >= Total(sets)
    ensures |r| == Total(sets)
  {
    if sets == [] then []
    else
      var prefix := sets[..|sets| - 1];
      AllRows(prefix, draws) + SetRows(sets[|sets| - 1], 1 + Total(prefix), draws[Total(prefix)..])
  }

  /** The seven column lists of `comprehensive_data`. */
  datatype Columns = Columns(ids: seq<string>, resumeTexts: seq<string>, jobFields: seq<string>,
                             experienceLevels: seq<string>, atsScores: seq<int>,
                             skillsCounts: seq<int>, createdDaysAgo: seq<int>)
  {
    /** The lists have one entry per row, and row `k` is `rows[k]`. */
    predicate Tabulates(rows: seq<Row>) {
      && |ids| == |rows| && |resumeTexts| == |rows| && |jobFields| == |rows|
      && |experienceLevels| == |rows| && |atsScores| == |rows| && |skillsCounts| == |rows|
      && |createdDaysAgo| == |rows|
      && forall k :: 0 <= k < |rows| ==>
           rows[k] == Row(ids[k], resumeTexts[k], jobFields[k], experienceLevels[k],
                          atsScores[k], skillsCounts[k], createdDaysAgo[k])
    }
  }

  /** The lists after one more row is appended to each of them. */
  function Append(data: Columns, row: Row): Columns {
    Columns(data.ids + [row.id], data.resumeTexts + [row.resumeText], data.jobFields + [row.jobField],
            data.experienceLevels + [row.experienceLevel], data.atsScores + [row.atsScore],
            data.skillsCounts + [row.skillsCount], data.createdDaysAgo + [row.daysAgo])
  }

  lemma AppendTabulates(data: Columns, rows: seq<Row>, row: Row)
    requires data.Tabulates(rows)
    ensures Append(data, row).Tabulates(rows + [row])
  {
    var next := Append(data, row);
    var all := rows + [row];
    forall k | 0 <= k < |all|
      ensures all[k] == Row(next.ids[k], next.resumeTexts[k], next.jobFields[k], next.experienceLevels[k],
                            next.atsScores[k], next.skillsCounts[k], next.createdDaysAgo[k])
    {
      if k < |rows| {
        assert all[k] == rows[k];
      }
    }
  }

  /** The rows of one more set follow the rows of the sets before it. */
  lemma AllRowsSnoc(sets: seq<SampleSet>, draws: seq<Draw>, f: nat)
    requires NonEmptySamples(sets) && |draws| >= Total(sets) && f < |sets|
    ensures Total(sets[..f]) + sets[f].targetCount == Total(sets[..f + 1]) <= Total(sets)
    ensures NonEmptySamples(sets[..f]) && NonEmptySamples(sets[..f + 1])
    ensures AllRows(sets[..f + 1], draws)
         == AllRows(sets[..f], draws) + SetRows(sets[f], 1 + Total(sets[..f]), draws[Total(sets[..f])..])
  {
    TotalSnoc(sets, f);
    assert NonEmptySamples(sets[..f]) && NonEmptySamples(sets[..f + 1]);
    RowsSnoc(sets, draws, f);
  }

  lemma TotalSnoc(sets: seq<SampleSet>, f: nat)
    requires f < |sets|
    ensures Total(sets[..f]) + sets[f].targetCount == Total(sets[..f + 1]) <= Total(sets)
  {
    assert sets[..f + 1][..f] == sets[..f];
    TotalPrefix(sets, f + 1);
  }

  lemma RowsSnoc(sets: seq<SampleSet>, draws: seq<Draw>, f: nat)
    requires f < |sets| && NonEmptySamples(sets[..f + 1])
    requires Total(sets[..f]) + sets[f].targetCount == Total(sets[..f + 1]) <= |draws|
    ensures NonEmptySamples(sets[..f])
    ensures AllRows(sets[..f + 1], draws)
         == AllRows(sets[..f], draws) + SetRows(sets[f], 1 + Total(sets[..f]), draws[Total(sets[..f])..])
  {
    assert sets[..f + 1][..f] == sets[..f];
  }

  /** The generation loop over `sample_sets`: for every set, its extended samples
      in order, each appended to the seven lists with the running `id_counter`. */
  method Generate(sets: seq<SampleSet>, draws: seq<Draw>) returns (data: Columns)
    requires NonEmptySamples(sets) && |draws| >= Total(sets)
    ensures data.Tabulates(AllRows(sets, draws))
  {
    data := Columns([], [], [], [], [], [], []);
    var idCounter := 1;
    var f := 0;
    assert sets[..0] == [];
    while f < |sets|
      invariant 0 <= f <= |sets|
      invariant NonEmptySamples(sets[..f]) && Total(sets[..f]) <= Total(sets)
      invariant idCounter == 1 + Total(sets[..f])
      invariant data.Tabulates(AllRows(sets[..f], draws))
    {
      AllRowsSnoc(sets, draws, f);
      data, idCounter := AppendSet(data, AllRows(sets[..f], draws), sets[f], idCounter, draws[idCounter - 1..]);
      f := f + 1;
    }
    assert sets[..f] == sets;
  }

  /** The inner loop: the extended samples of one set, appended row by row, the
      counter advancing by one per row. */
  method AppendSet(data0: Columns, rows: seq<Row>, s: SampleSet, firstId: nat, draws: seq<Draw>)
    returns (data: Columns, idCounter: nat)
    requires |s.samples| > 0 && |draws| >= s.targetCount
    requires data0.Tabulates(rows)
    ensures data.Tabulates(rows + SetRows(s, firstId, draws))
    ensures idCounter == firstId + s.targetCount
  {
    data := data0;
    idCounter := firstId;
    var extended := Extended(s.samples, s.targetCount);
    ghost var own := SetRows(s, firstId, draws);
    var i := 0;
    while i < |extended|
      invariant 0 <= i <= |extended|
      invariant idCounter == firstId + i
      invariant data.Tabulates(rows + own[..i])
    {
      var text := extended[i];
      var d := draws[i];
      ghost var before := data;
      data := data.(ids := data.ids + [MakeId(s.field, idCounter)]);
      data := data.(resumeTexts := data.resumeTexts + [text]);
      data := data.(jobFields := data.jobFields + [s.field]);
      data := data.(experienceLevels := data.experienceLevels + [d.level.Name()]);
      data := data.(atsScores := data.atsScores + [d.atsScore]);
      data := data.(skillsCounts := data.skillsCounts + [d.skillsCount]);
      data := data.(createdDaysAgo := data.createdDaysAgo + [d.daysAgo]);
      assert own[i] == MakeRow(s.field, text, idCounter, d);
      assert data == Append(before, own[i]);
      AppendTabulates(before, rows + own[..i], own[i]);
      assert (rows + own[..i]) + [own[i]] == rows + own[..i + 1];
      idCounter := idCounter + 1;
      i := i + 1;
    }
    assert own[..i] == own;
  }

  /** A prefix of the sets asks for no more rows than all of them. */
  lemma {:induction false} TotalPrefix(sets: seq<SampleSet>, f: nat)
    requires f <= |sets|
    ensures Total(sets[..f]) <= Total(sets)
    decreases |sets|
  {
    if f < |sets| {
      var n := |sets| - 1;
      assert sets[..n][..f] == sets[..f];
      TotalPrefix(sets[..n], f);
    } else {
      assert sets[..f] == sets;
    }
  }

  // ---------------------------------------------------------------------------
  // The dataset
  // ---------------------------------------------------------------------------

  const FieldNames: seq<string> := ["Software Engineering", "Data Analyst", "Consultant"]

  /** The number of rows generated per field. */
  const PerField: nat := 80

  /** `sample_sets`: every field with its samples and 80 rows. */
  function SampleSets(se: seq<string>, da: seq<string>, con: seq<string>): (sets: seq<SampleSet>)
    requires |se| > 0 && |da| > 0 && |con| > 0
    ensures |sets| == 3 && NonEmptySamples(sets) && Total(sets) == 240
    ensures forall f :: 0 <= f < 3 ==> sets[f].field == FieldNames[f] && sets[f].targetCount == PerField
  {
    var sets := [SampleSet(se, FieldNames[0], PerField), SampleSet(da, FieldNames[1], PerField),
                 SampleSet(con, FieldNames[2], PerField)];
    SampleTotals(sets);
    sets
  }

  /** A field whose first three characters are not blanks takes them as its prefix. */
  lemma PrefixOfFirstThree(field: string)
    requires |field| >= 3 && field[0] != ' ' && field[1] != ' ' && field[2] != ' '
    ensures FieldPrefix(field) == [UpperChar(field[0]), UpperChar(field[1]), UpperChar(field[2])]
  {
    var t := field[1..];
    assert t[0] == field[1] && t[1..][0] == field[2];
    assert TakeNonBlank(t[1..], 1) == [field[2]] + TakeNonBlank(t[1..][1..], 0);
    assert TakeNonBlank(field, 3) == [field[0], field[1], field[2]];
  }

  /** The three fields' prefixes: SOF, DAT and CON. */
  lemma FieldPrefixes()
    ensures FieldPrefix(FieldNames[0]) == "SOF"
    ensures FieldPrefix(FieldNames[1]) == "DAT"
    ensures FieldPrefix(FieldNames[2]) == "CON"
  {
    PrefixOfFirstThree(FieldNames[0]);
    PrefixOfFirstThree(FieldNames[1]);
    PrefixOfFirstThree(FieldNames[2]);
  }

  /** Row `i` of a set: the `i % len(samples)`-th sample with counter `firstId + i`. */
  lemma SetRowsAt(s: SampleSet, firstId: nat, draws: seq<Draw>, i: nat)
    requires |s.samples| > 0 && |draws| >= s.targetCount && i < s.targetCount
    ensures SetRows(s, firstId, draws)[i] == MakeRow(s.field, s.samples[i % |s.samples|], firstId + i, draws[i])
  {
  }

  /** Row `i` of set `f` sits at `Total(sets[..f]) + i` among all rows. */
  lemma AllRowsAt(sets: seq<SampleSet>, draws: seq<Draw>, f: nat, i: nat)
    requires NonEmptySamples(sets) && |draws| >= Total(sets)
    requires f < |sets| && i < sets[f].targetCount
    ensures Total(sets[..f]) + sets[f].targetCount <= Total(sets)
    ensures AllRows(sets, draws)[Total(sets[..f]) + i]
         == SetRows(sets[f], 1 + Total(sets[..f]), draws[Total(sets[..f])..])[i]
  {
    AllRowsSnoc(sets, draws, f);
    AllRowsPrefix(sets, draws, f + 1);
    IndexThroughPrefix(AllRows(sets, draws), AllRows(sets[..f + 1], draws), AllRows(sets[..f], draws),
                       SetRows(sets[f], 1 + Total(sets[..f]), draws[Total(sets[..f])..]), Total(sets[..f + 1]), i);
  }

  /** An element of the second part of a prefix is an element of the whole. */
  lemma IndexThroughPrefix(all: seq<Row>, upTo: seq<Row>, head: seq<Row>, own: seq<Row>, t: nat, i: nat)
    requires t <= |all| && upTo == all[..t] && upTo == head + own && i < |own|
    ensures all[|head| + i] == own[i]
  {
    assert upTo[|head| + i] == own[i];
  }

  /** The rows of the first `m` sets are the first rows of all the sets. */
  lemma {:induction false} AllRowsPrefix(sets: seq<SampleSet>, draws: seq<Draw>, m: nat)
    requires NonEmptySamples(sets) && |draws| >= Total(sets) && m <= |sets|
    ensures NonEmptySamples(sets[..m]) && Total(sets[..m]) <= Total(sets)
    ensures AllRows(sets[..m], draws) == AllRows(sets, draws)[..Total(sets[..m])]
    decreases |sets|
  {
    TotalPrefix(sets, m);
    assert NonEmptySamples(sets[..m]);
    if m == |sets| {
      assert sets[..m] == sets;
    } else {
      var n := |sets| - 1;
      var prefix := sets[..n];
      assert prefix[..m] == sets[..m];
      TotalPrefix(sets, n);
      AllRowsPrefix(prefix, draws, m);
      TotalPrefix(prefix, m);
      PrefixOfConcat(AllRows(prefix, draws), SetRows(sets[n], 1 + Total(prefix), draws[Total(prefix)..]),
                     Total(sets[..m]));
    }
  }

  lemma PrefixOfConcat(a: seq<Row>, b: seq<Row>, t: nat)
    requires t <= |a|
    ensures (a + b)[..t] == a[..t]
  {
  }

  /** The three sets ask for 80 rows each. */
  lemma SampleTotals(sets: seq<SampleSet>)
    requires |sets| == 3 && forall f :: 0 <= f < 3 ==> sets[f].targetCount == PerField
    ensures Total(sets) == 240
    ensures Total(sets[..0]) == 0 && Total(sets[..1]) == 80 && Total(sets[..2]) == 160
    ensures forall f :: 0 <= f < 3 ==> Total(sets[..f]) == 80 * f
  {
    assert sets[..0] == [] && sets[..3] == sets;
    TotalSnoc(sets, 0);
    TotalSnoc(sets, 1);
    TotalSnoc(sets, 2);
  }

  /** Row `i` of set `f` of three sets of 80 rows is row `80 * f + i`. */
  lemma RowAt(sets: seq<SampleSet>, draws: seq<Draw>, f: nat, i: nat)
    requires |sets| == 3 && NonEmptySamples(sets) && forall g :: 0 <= g < 3 ==> sets[g].targetCount == PerField
    requires |draws| >= 240 && f < 3 && i < 80
    ensures Total(sets) == 240
    ensures var samples := sets[f].samples;
      AllRows(sets, draws)[80 * f + i] == MakeRow(sets[f].field, samples[i % |samples|], 80 * f + i + 1, draws[80 * f + i])
  {
    SampleTotals(sets);
    AllRowsAt(sets, draws, f, i);
    SetRowsAt(sets[f], 1 + 80 * f, draws[80 * f..], i);
  }

  /** The generated dataset: 240 rows, 80 per field in field order, row `k` holding
      the `(k % 80) % len(samples)`-th sample of its field, the ID counter `k + 1`
      and the `k`-th draws. */
  lemma ComprehensiveRows(se: seq<string>, da: seq<string>, con: seq<string>, draws: seq<Draw>)
    requires |se| > 0 && |da| > 0 && |con| > 0 && |draws| >= 3 * PerField
    ensures var sets := SampleSets(se, da, con);
      var rows := AllRows(sets, draws);
         forall k :: 0 <= k < 240 ==>
           var f := k / 80;
           var samples := sets[f].samples;
           rows[k] == MakeRow(FieldNames[f], samples[(k % 80) % |samples|], k + 1, draws[k])
  {
    var sets := SampleSets(se, da, con);
    forall k | 0 <= k < 240
      ensures var f := k / 80;
        var samples := sets[f].samples;
        AllRows(sets, draws)[k] == MakeRow(FieldNames[f], samples[(k % 80) % |samples|], k + 1, draws[k])
    {
      var f, i := k / 80, k % 80;
      assert 80 * f + i == k;
      assert sets[f].field == FieldNames[f];
      RowAt(sets, draws, f, i);
    }
  }

  /** Row `k`'s ID is its field's three-letter prefix with the counter `k + 1`. */
  lemma RowIdAt(se: seq<string>, da: seq<string>, con: seq<string>, draws: seq<Draw>, k: nat)
    requires |se| > 0 && |da| > 0 && |con| > 0 && |draws| >= 3 * PerField && k < 240
    ensures var field := FieldNames[k / 80];
      && AllRows(SampleSets(se, da, con), draws)[k].id == MakeId(field, k + 1)
      && |FieldPrefix(field)| == 3
  {
    var sets := SampleSets(se, da, con);
    var f, i := k / 80, k % 80;
    assert 80 * f + i == k;
    RowAt(sets, draws, f, i);
    FieldPrefixes();
  }

  /** Every generated ID is a three-letter prefix, `_` and three digits, and no
      two rows share an ID. */
  lemma ComprehensiveIds(se: seq<string>, da: seq<string>, con: seq<string>, draws: seq<Draw>)
    requires |se| > 0 && |da| > 0 && |con| > 0 && |draws| >= 3 * PerField
    ensures var rows := AllRows(SampleSets(se, da, con), draws);
      && (forall k :: 0 <= k < 240 ==> |rows[k].id| == 7 && rows[k].id[3] == '_')
      && forall j, k :: 0 <= j < k < 240 ==> rows[j].id != rows[k].id
  {
    var rows := AllRows(SampleSets(se, da, con), draws);
    forall k | 0 <= k < 240
      ensures |rows[k].id| == 7 && rows[k].id[3] == '_'
    {
      RowIdAt(se, da, con, draws, k);
      PadWidth(k + 1);
    }
    forall j, k | 0 <= j < k < 240
      ensures rows[j].id != rows[k].id
    {
      RowIdAt(se, da, con, draws, j);
      RowIdAt(se, da, con, draws, k);
      IdsDistinct(FieldNames[j / 80], j + 1, FieldNames[k / 80], k + 1);
    }
  }

  /** Every row's job field is one of the three fields, with 80 rows each, and
      every drawn value lies in its range. */
  lemma ComprehensiveValues(se: seq<string>, da: seq<string>, con: seq<string>, draws: seq<Draw>)
    requires |se| > 0 && |da| > 0 && |con| > 0 && |draws| >= 3 * PerField
    requires forall k :: 0 <= k < |draws| ==> draws[k].InRange()
    ensures var rows := AllRows(SampleSets(se, da, con), draws);
      forall k :: 0 <= k < 240 ==>
           && rows[k].jobField == FieldNames[k / 80]
           && rows[k].experienceLevel == draws[k].level.Name()
           && rows[k].experienceLevel in ["Junior", "Mid", "Senior"]
           && 70 <= rows[k].atsScore <= 98 && 8 <= rows[k].skillsCount <= 20
           && 1 <= rows[k].daysAgo <= 90
  {
    var sets := SampleSets(se, da, con);
    var rows := AllRows(sets, draws);
    forall k | 0 <= k < 240
      ensures && rows[k].jobField == FieldNames[k / 80]
              && rows[k].experienceLevel == draws[k].level.Name()
              && rows[k].experienceLevel in ["Junior", "Mid", "Senior"]
              && 70 <= rows[k].atsScore <= 98 && 8 <= rows[k].skillsCount <= 20
              && 1 <= rows[k].daysAgo <= 90
    {
      var f, i := k / 80, k % 80;
      assert 80 * f + i == k;
      RowAt(sets, draws, f, i);
      assert draws[k].InRange();
    }
  }

  // ---------------------------------------------------------------------------
  // ensure_comprehensive_dataset
  // ---------------------------------------------------------------------------

  /** What reading the existing CSV file gave: its columns and its number of rows. */
  datatype ExistingCsv = ExistingCsv(columns: seq<string>, rowCount: nat)

  /** An existing dataset is reused when it has rows and both training columns. */
  predicate Reusable(csv: ExistingCsv) {
    csv.rowCount > 0 && "resume_text" in csv.columns && "job_field" in csv.columns
  }

  datatype Dataset = Reused(csv: ExistingCsv) | Created(data: Columns)

  /** `ensure_comprehensive_dataset()`: `existing` is the file as read (None when it
      is missing or unreadable), `saved` whether writing the new file succeeded. */
  method EnsureComprehensiveDataset(existing: Option<ExistingCsv>, se: seq<string>, da: seq<string>,
                                    con: seq<string>, draws: seq<Draw>, saved: bool)
    returns (r: Option<Dataset>)
    requires |se| > 0 && |da| > 0 && |con| > 0 && |draws| == 3 * PerField
    ensures existing.Some? && Reusable(existing.value) ==> r == Some(Reused(existing.value))
    ensures !(existing.Some? && Reusable(existing.value)) ==>
      if saved then r.Some? && r.value.Created? && r.value.data.Tabulates(AllRows(SampleSets(se, da, con), draws))
      else r.None?
  {
    if existing.Some? && Reusable(existing.value) {
      return Some(Reused(existing.value));
    }
    var sets := SampleSets(se, da, con);
    ComprehensiveRows(se, da, con, draws);
    var data := Generate(sets, draws);
    if !saved {
      return None;
    }
    r := Some(Created(data));
  }
}
