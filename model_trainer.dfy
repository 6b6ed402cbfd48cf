/** The model trainer: text normalisation, row filtering of the training frame, and
    the bookkeeping of `train_models`, which remembers on the trainer object the
    best classifier seen so far.

    Fitting, prediction and the metric computations of scikit-learn are not
    interpreted: each classifier's outcome on the training data arrives as an
    `Evaluation` (its metrics, or the message of the exception it raised). */
module Trainer {
  import opened Wrappers
  import opened Text
  import RA = ResumeAnalyzer

  // ---------------------------------------------------------------------------
  // Text normalisation
  // ---------------------------------------------------------------------------

  /** `preprocess_text(text)` of the trainer: `str`, lower-case, every character
      outside `[a-zA-Z0-9\s]` to a blank, whitespace runs to one blank, strip.
      It agrees with the analyser's own `preprocess_text`, so the classifier is
      trained on the text the analyser later feeds it. */
  function PreprocessText(v: RA.PyValue): (r: string)
    ensures r == RA.PreprocessText(v)
    ensures RA.Normalized(r)
  {
    Strip(Collapse(RA.ReplaceSpecial(Lower(RA.ToStr(v)))))
  }

  // ---------------------------------------------------------------------------
  // The training frame
  // ---------------------------------------------------------------------------

  /** A column name of a frame: the three the trainer uses, or any other. */
  datatype Column = ResumeText | JobField | CleanedText | Other(name: string)
  {
    function Name(): string {
      match this
      case ResumeText => "resume_text"
      case JobField => "job_field"
      case CleanedText => "cleaned_text"
      case Other(name) => name
    }

    /** A column is named one way only: `Other` never spells one of the three. */
    predicate Canonical() {
      !Other? || (name != "resume_text" && name != "job_field" && name != "cleaned_text")
    }
  }

  /** One row of a frame: its value in each column. */
  type Row = map<Column, RA.PyValue>

  /** A pandas data frame: its column names and its rows. */
  class DataFrame {
    var columns: seq<Column>
    var rows: seq<Row>

    /** Every column is named one way only, and every row has a value in exactly
        the frame's columns. */
    predicate Valid()
      reads this
    {
      && (forall c :: c in columns ==> c.Canonical())
      && forall i :: 0 <= i < |rows| ==> rows[i].Keys == set c | c in columns
    }

    constructor (columns: seq<Column>, rows: seq<Row>)
      ensures this.columns == columns && this.rows == rows
    {
      this.columns := columns;
      this.rows := rows;
    }
  }

  /** The columns `prepare_data` demands, in the order it checks them. */
  const RequiredColumns: seq<Column> := [ResumeText, JobField]

  /** The first required column the frame lacks, if any. */
  function MissingColumn(columns: seq<Column>): (r: Option<Column>)
    ensures r.None? <==> forall c :: c in RequiredColumns ==> c in columns
    ensures r.Some? ==> r.value in RequiredColumns && r.value !in columns
    ensures r == Some(JobField) ==> ResumeText in columns
  {
    if ResumeText !in columns then Some(ResumeText)
    else if JobField !in columns then Some(JobField)
    else None
  }

  predicate HasResumeText(rows: seq<Row>) {
    forall i :: 0 <= i < |rows| ==> ResumeText in rows[i]
  }

  /** The normalised resume text of a row. */
  function Cleaned(row: Row): string
    requires ResumeText in row
  {
    PreprocessText(row[ResumeText])
  }

  /** A row with its `cleaned_text` column set. */
  function WithCleaned(row: Row): (r: Row)
    requires ResumeText in row
    ensures r.Keys == row.Keys + {CleanedText}
    ensures r[CleanedText] == RA.PyStr(Cleaned(row))
    ensures forall c :: c in row && c != CleanedText ==> r[c] == row[c]
  {
    row[CleanedText := RA.PyStr(Cleaned(row))]
  }

  /** `df['cleaned_text'] = df['resume_text'].apply(preprocess_text)`. */
  function AddCleaned(rows: seq<Row>): (r: seq<Row>)
    requires HasResumeText(rows)
    ensures |r| == |rows|
    ensures forall i :: 0 <= i < |rows| ==> r[i] == WithCleaned(rows[i])
  {
    seq(|rows|, i requires 0 <= i < |rows| => WithCleaned(rows[i]))
  }

  /** The filter of `df['cleaned_text'].str.len() > 0`. */
  predicate HasText(row: Row) {
    CleanedText in row && row[CleanedText].PyStr? && |row[CleanedText].s| > 0
  }

  /** `df[df['cleaned_text'].str.len() > 0]`. */
  function KeptRows(rows: seq<Row>): (r: seq<Row>)
    ensures |r| <= |rows|
  {
    if rows == [] then []
    else (if HasText(rows[0]) then [rows[0]] else []) + KeptRows(rows[1..])
  }

  /** Filtering a concatenation filters each part and keeps their order. */
  lemma {:induction false} KeptAppend(a: seq<Row>, b: seq<Row>)
    ensures KeptRows(a + b) == KeptRows(a) + KeptRows(b)
  {
    if a == [] {
      assert a + b == b;
    } else {
      assert (a + b)[0] == a[0];
      assert (a + b)[1..] == a[1..] + b;
      KeptAppend(a[1..], b);
    }
  }

  /** A single row is kept exactly when its cleaned text is non-empty. */
  lemma KeptSingle(row: Row)
    ensures KeptRows([row]) == if HasText(row) then [row] else []
  {
    assert [row][1..] == [];
  }

  /** Every kept row is an input row with a non-empty `cleaned_text`. */
  lemma {:induction false} KeptSound(rows: seq<Row>)
    ensures forall r :: r in KeptRows(rows) ==> r in rows && HasText(r)
  {
    if rows != [] {
      KeptSound(rows[1..]);
    }
  }

  /** Every input row with a non-empty `cleaned_text` is kept. */
  lemma {:induction false} KeptComplete(rows: seq<Row>, i: nat)
    requires i < |rows| && HasText(rows[i])
    ensures rows[i] in KeptRows(rows)
  {
    if i > 0 {
      assert rows[1..][i - 1] == rows[i];
      KeptComplete(rows[1..], i - 1);
    }
  }

  /** After `cleaned_text` is added, a row survives the filter exactly when its
      normalised resume text is non-empty, and that text is in normal form. */
  lemma PreparedRow(row: Row)
    requires ResumeText in row
    ensures HasText(WithCleaned(row)) <==> |Cleaned(row)| > 0
    ensures RA.Normalized(WithCleaned(row)[CleanedText].s)
  {
  }

  /** `prepare_data(df)`: a `ValueError` naming the first missing required column;
      otherwise `cleaned_text` is added to the caller's frame in place and the rows
      with a non-empty cleaned text are returned, in their original order. */
  method PrepareData(df: DataFrame) returns (r: Result<seq<Row>>)
    requires df.Valid()
    modifies df
    ensures df.Valid()
    ensures MissingColumn(old(df.columns)).Some? ==>
      && r == Err("Missing required column: " + MissingColumn(old(df.columns)).value.Name())
      && unchanged(df)
    ensures MissingColumn(old(df.columns)).None? ==>
      && HasResumeText(old(df.rows))
      && df.rows == AddCleaned(old(df.rows))
      && df.columns == (if CleanedText in old(df.columns) then old(df.columns)
                        else old(df.columns) + [CleanedText])
      && r == Ok(KeptRows(AddCleaned(old(df.rows))))
  {
    var missing := MissingColumn(df.columns);
    if missing.Some? {
      return Err("Missing required column: " + missing.value.Name());
    }
    var rows := df.rows;
    assert HasResumeText(rows);
    df.rows := AddCleaned(rows);
    if CleanedText !in df.columns {
      df.columns := df.columns + [CleanedText];
    }
    r := Ok(KeptRows(df.rows));
  }

  // ---------------------------------------------------------------------------
  // Best-model selection
  // ---------------------------------------------------------------------------

  /** The classifiers of `self.models`. */
  datatype Classifier = RandomForest | LogisticRegression | Svm
  {
    function Name(): string {
      match this
      case RandomForest => "Random Forest"
      case LogisticRegression => "Logistic Regression"
      case Svm => "SVM"
    }
  }

  /** `self.models`, in insertion order. */
  const Models: seq<Classifier> := [RandomForest, LogisticRegression, Svm]

  /** The scores of one fitted classifier on the held-out rows. */
  datatype Metrics = Metrics(accuracy: real, precision: real, recall: real)
  {
    /** Each score of scikit-learn lies in [0, 1]. */
    predicate Valid() {
      0.0 <= accuracy <= 1.0 && 0.0 <= precision <= 1.0 && 0.0 <= recall <= 1.0
    }
  }

  /** A classifier's outcome: its metrics, or the message of the exception that
      fitting, predicting or scoring raised. */
  type Evaluation = Result<Metrics>

  /** The best score so far and the classifier that reached it. */
  datatype Best = Best(score: real, model: Option<Classifier>)

  /** A classifier together with the accuracy it reached. */
  datatype Candidate = Candidate(model: Classifier, accuracy: real)

  /** One step of the selection: `if accuracy > self.best_score` replaces the best. */
  function Step(b: Best, c: Candidate): Best {
    if c.accuracy > b.score then Best(c.accuracy, Some(c.model)) else b
  }

  /** The best state after trying the candidates in order, starting from `init`. */
  function Select(cands: seq<Candidate>, init: Best): Best
    decreases |cands|
  {
    if cands == [] then init else Step(Select(cands[..|cands| - 1], init), cands[|cands| - 1])
  }

  /** The selection keeps its starting state when no candidate beats it, and
      otherwise picks the FIRST candidate reaching the maximum accuracy, which
      exceeds the starting score. */
  lemma {:induction false} SelectFirstMaximum(cands: seq<Candidate>, init: Best)
    ensures var r := Select(cands, init);
      && init.score <= r.score
      && (forall i :: 0 <= i < |cands| ==> cands[i].accuracy <= r.score)
      && ((r == init && forall i :: 0 <= i < |cands| ==> cands[i].accuracy <= init.score)
          || exists k :: 0 <= k < |cands| && r == Best(cands[k].accuracy, Some(cands[k].model))
               && cands[k].accuracy > init.score
               && forall j :: 0 <= j < k ==> cands[j].accuracy < cands[k].accuracy)
  {
    if cands != [] {
      var n := |cands| - 1;
      var prefix := cands[..n];
      SelectFirstMaximum(prefix, init);
      var p := Select(prefix, init);
      var c := cands[n];
      assert forall i :: 0 <= i < n ==> cands[i] == prefix[i];
      if c.accuracy > p.score {
        assert forall j :: 0 <= j < n ==> cands[j].accuracy < c.accuracy;
      } else if p != init {
        var k :| 0 <= k < |prefix| && p == Best(prefix[k].accuracy, Some(prefix[k].model))
          && prefix[k].accuracy > init.score
          && forall j :: 0 <= j < k ==> prefix[j].accuracy < prefix[k].accuracy;
        assert cands[k] == prefix[k];
      }
    }
  }

  /** When no candidate beats the starting score, the starting state survives:
      a later `train_models` call keeps an earlier best unless it is beaten. */
  lemma SelectKeepsUnbeaten(cands: seq<Candidate>, init: Best)
    requires forall i :: 0 <= i < |cands| ==> cands[i].accuracy <= init.score
    ensures Select(cands, init) == init
  {
    SelectFirstMaximum(cands, init);
  }

  /** A beaten starting state is replaced by a candidate reaching the maximum. */
  lemma SelectReplacesBeaten(cands: seq<Candidate>, init: Best, i: nat)
    requires i < |cands| && cands[i].accuracy > init.score
    ensures var r := Select(cands, init);
      r.score >= cands[i].accuracy && r.model.Some? && r.score > init.score
  {
    SelectFirstMaximum(cands, init);
  }

  /** On a fresh trainer (`best_score = 0`), accuracies that are all 0 leave the
      best model at `None`. */
  lemma FreshAllZero(cands: seq<Candidate>)
    requires forall i :: 0 <= i < |cands| ==> cands[i].accuracy == 0.0
    ensures Select(cands, Best(0.0, None)).model == None
  {
    SelectKeepsUnbeaten(cands, Best(0.0, None));
  }

  /** The index of the first classifier whose evaluation raised, or the number of
      evaluations when none did. */
  function FirstError(evals: seq<Evaluation>): (n: nat)
    ensures n <= |evals|
    ensures forall j :: 0 <= j < n ==> evals[j].Ok?
    ensures n < |evals| ==> evals[n].Err?
  {
    if evals == [] || evals[0].Err? then 0 else 1 + FirstError(evals[1..])
  }

  /** The candidates of the classifiers evaluated without an exception. */
  function Candidates(evals: seq<Evaluation>): (r: seq<Candidate>)
    requires |evals| <= |Models|
    requires forall j :: 0 <= j < |evals| ==> evals[j].Ok?
    ensures |r| == |evals|
    ensures forall j :: 0 <= j < |evals| ==> r[j] == Candidate(Models[j], evals[j].value.accuracy)
  {
    seq(|evals|, j requires 0 <= j < |evals| => Candidate(Models[j], evals[j].value.accuracy))
  }

  /** One entry of `all_results`. */
  datatype ModelResult = ModelResult(name: string, metrics: Metrics)

  /** The `all_results` entries, in model order, of the evaluations that succeeded. */
  function Results(evals: seq<Evaluation>): (r: seq<ModelResult>)
    requires |evals| <= |Models|
    requires forall j :: 0 <= j < |evals| ==> evals[j].Ok?
    ensures |r| == |evals|
    ensures forall j :: 0 <= j < |evals| ==> r[j] == ModelResult(Models[j].Name(), evals[j].value)
  {
    seq(|evals|, j requires 0 <= j < |evals| => ModelResult(Models[j].Name(), evals[j].value))
  }

  /** The `training_metadata.json` record, without its date. */
  datatype Metadata = Metadata(bestModel: Option<string>, bestAccuracy: real, modelsTrained: seq<string>)

  /** What `save_models_and_results` writes: the best classifier (when there is one),
      the per-model metrics and the metadata. */
  datatype Artifacts = Artifacts(classifier: Option<Classifier>, metrics: seq<ModelResult>, metadata: Metadata)

  /** The names of `self.models`, in order. */
  function ModelNames(): (r: seq<string>)
    ensures |r| == |Models|
    ensures forall j :: 0 <= j < |Models| ==> r[j] == Models[j].Name()
  {
    seq(|Models|, j requires 0 <= j < |Models| => Models[j].Name())
  }

  /** The result dict of `train_models`. */
  datatype TrainResult =
    | Completed(bestModel: Option<string>, bestAccuracy: real, allResults: seq<ModelResult>)
    | Failed(error: string)

  const NoTrainingData: string := "No training data available"

  // ---------------------------------------------------------------------------
  // The trainer
  // ---------------------------------------------------------------------------

  class ModelTrainer {
    var bestModel: Option<Classifier>
    var bestScore: real
    var bestModelName: Option<string>

    /** The best model and its name are set together, and a best model has a
        positive score, since it beat a score that started at 0. */
    predicate Valid()
      reads this
    {
      && 0.0 <= bestScore <= 1.0
      && (bestModel.None? <==> bestModelName.None?)
      && (bestModel.Some? ==> bestModelName == Some(bestModel.value.Name()) && bestScore > 0.0)
    }

    /** `__init__`: no best model yet, `best_score = 0`. */
    constructor ()
      ensures Valid()
      ensures bestModel == None && bestScore == 0.0 && bestModelName == None
    {
      bestModel := None;
      bestScore := 0.0;
      bestModelName := None;
    }

    /** The selection loop of `train_models`: each classifier in turn is scored
        and becomes the best when its accuracy strictly exceeds `best_score`.
        The first exception stops the loop; the updates made before it stay. */
    method EvaluateModels(evals: seq<Evaluation>) returns (results: seq<ModelResult>, error: Option<string>)
      requires Valid()
      requires |evals| == |Models|
      requires forall j :: 0 <= j < |evals| && evals[j].Ok? ==> evals[j].value.Valid()
      modifies this
      ensures Valid()
      ensures var n := FirstError(evals);
        && Best(bestScore, bestModel) == Select(Candidates(evals[..n]), Best(old(bestScore), old(bestModel)))
        && (error.Some? <==> n < |evals|)
        && (error.Some? ==> error.value == evals[n].message)
        && (error.None? ==> results == Results(evals))
    {
      results := [];
      var i := 0;
      while i < |Models|
        invariant 0 <= i <= |Models|
        invariant forall j :: 0 <= j < i ==> evals[j].Ok?
        invariant Valid()
        invariant results == Results(evals[..i])
        invariant Best(bestScore, bestModel) == Select(Candidates(evals[..i]), Best(old(bestScore), old(bestModel)))
      {
        var model := Models[i];
        if evals[i].Err? {
          assert FirstError(evals) == i by {
            FirstErrorAt(evals, i);
          }
          return results, Some(evals[i].message);
        }
        var m := evals[i].value;
        results := results + [ModelResult(model.Name(), m)];
        ghost var before := Best(bestScore, bestModel);
        if m.accuracy > bestScore {
          bestScore := m.accuracy;
          bestModel := Some(model);
          bestModelName := Some(model.Name());
        }
        assert Candidates(evals[..i + 1])[..i] == Candidates(evals[..i]);
        assert Best(bestScore, bestModel) == Step(before, Candidate(model, m.accuracy));
        assert Results(evals[..i + 1]) == Results(evals[..i]) + [ModelResult(model.Name(), m)];
        i := i + 1;
      }
      assert evals[..i] == evals;
      FirstErrorAt(evals, i);
      error := None;
    }

    /** `save_models_and_results(results)`: with no results nothing is written;
        otherwise the best classifier (when set), every model's metrics and the
        metadata listing all configured models in order. */
    method SaveModelsAndResults(results: seq<ModelResult>) returns (written: Option<Artifacts>)
      ensures results == [] <==> written.None?
      ensures written.Some? ==>
        && written.value.classifier == bestModel
        && written.value.metrics == results
        && written.value.metadata == Metadata(bestModelName, bestScore, ModelNames())
    {
      if results == [] {
        return None;
      }
      written := Some(Artifacts(bestModel, results, Metadata(bestModelName, bestScore, ModelNames())));
    }

    /** `train_models(df)`: `frame` is `df`, or the loaded dataset when `df` is
        None. A missing or empty frame, a missing column, an exception while
        vectorising or splitting (`fitError`), while evaluating a classifier
        (`evals`), or while saving (`saveError`) gives a failed result; otherwise
        the best classifier over this and earlier calls, its accuracy and every
        classifier's metrics. */
    method TrainModels(df: DataFrame?, loaded: DataFrame?, fitError: Option<string>,
                       evals: seq<Evaluation>, saveError: Option<string>)
      returns (result: TrainResult, written: Option<Artifacts>)
      requires Valid()
      requires df != null ==> df.Valid()
      requires df == null && loaded != null ==> loaded.Valid()
      requires |evals| == |Models|
      requires forall j :: 0 <= j < |evals| && evals[j].Ok? ==> evals[j].value.Valid()
      modifies this, df, loaded
      ensures Valid()
      ensures var frame := if df != null then df else loaded;
        frame == null || |old(frame.rows)| == 0 || MissingColumn(old(frame.columns)).Some? ==>
          && written == None && unchanged(this) && (frame != null ==> unchanged(frame))
          && result == Failed(
               if frame == null || |old(frame.rows)| == 0 then NoTrainingData
               else "Missing required column: " + MissingColumn(old(frame.columns)).value.Name())
      ensures df != null && loaded != null && loaded != df ==> unchanged(loaded)
      ensures var frame := if df != null then df else loaded;
        frame != null && |old(frame.rows)| > 0 && MissingColumn(old(frame.columns)).None? ==>
          && HasResumeText(old(frame.rows))
          && frame.rows == AddCleaned(old(frame.rows))
          && frame.columns == (if CleanedText in old(frame.columns) then old(frame.columns)
                               else old(frame.columns) + [CleanedText])
          && (fitError.Some? ==> result == Failed(fitError.value) && written == None && unchanged(this))
          && (fitError.None? ==>
               var n := FirstError(evals);
               && Best(bestScore, bestModel) == Select(Candidates(evals[..n]), Best(old(bestScore), old(bestModel)))
               && (n < |evals| ==> result == Failed(evals[n].message) && written == None)
               && (n == |evals| ==>
                    && written == Some(Artifacts(bestModel, Results(evals), Metadata(bestModelName, bestScore, ModelNames())))
                    && result == (if saveError.Some? then Failed(saveError.value)
                                  else Completed(bestModelName, bestScore, Results(evals)))))
    {
      written := None;
      var frame := if df != null then df else loaded;
      if frame == null || |frame.rows| == 0 {
        return Failed(NoTrainingData), None;
      }
      var prepared := PrepareData(frame);
      if prepared.Err? {
        return Failed(prepared.message), None;
      }
      if fitError.Some? {
        return Failed(fitError.value), None;
      }
      var results, error := EvaluateModels(evals);
      if error.Some? {
        return Failed(error.value), None;
      }
      written := SaveModelsAndResults(results);
      if saveError.Some? {
        return Failed(saveError.value), written;
      }
      result := Completed(bestModelName, bestScore, results);
    }
  }

  /** `FirstError` is the first index that holds an exception. */
  lemma {:induction false} FirstErrorAt(evals: seq<Evaluation>, i: nat)
    requires i <= |evals|
    requires forall j :: 0 <= j < i ==> evals[j].Ok?
    requires i < |evals| ==> evals[i].Err?
    ensures FirstError(evals) == i
  {
    if i > 0 {
      FirstErrorAt(evals[1..], i - 1);
    }
  }
}
