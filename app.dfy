/** The web front end's use of the trained classifier: `predict_with_best_model`,
    which turns the classifier's answer for a resume into a field and a probability
    per field, and the fallback to the analyzer's own recommendations when there is
    no usable model. */
module App {
  import opened Wrappers
  import opened Text
  import opened Sums
  import RA = ResumeAnalyzer

  // ---------------------------------------------------------------------------
  // The classifier, seen from outside
  // ---------------------------------------------------------------------------

  /** A loaded classifier: its `classes_` and whether it has `predict_proba`. */
  datatype TrainedModel = TrainedModel(classes: seq<string>, hasProba: bool)

  /** What vectorising one document and asking the classifier gives: the label of
      `predict(X)[0]` and the row `predict_proba(X)[0]` (unused without
      `predict_proba`). */
  datatype Answer = Answer(predicted: string, proba: seq<real>)

  /** The returned dict: the predicted field and the probabilities, whose keys the
      dict holds in the order `order`. */
  datatype Prediction = Prediction(predictedField: string, probabilities: map<string, real>, order: seq<string>)

  predicate Distinct<K(==)>(s: seq<K>) {
    forall i, j :: 0 <= i < j < |s| ==> s[i] != s[j]
  }

  /** The order in which a dict built from `keys`, one after the other, holds its
      keys: each key at its first occurrence. */
  function KeyOrder(keys: seq<string>): (r: seq<string>)
    ensures forall k :: k in r <==> k in keys
    ensures Distinct(r)
  {
    if keys == [] then []
    else
      var d := KeyOrder(keys[..|keys| - 1]);
      var last := keys[|keys| - 1];
      assert keys == keys[..|keys| - 1] + [last];
      if last in d then d else d + [last]
  }

  /** The pairs `zip(classes, probs)` keep: the first `min(len(classes), len(probs))`
      classes. */
  function Paired(classes: seq<string>, probs: seq<real>): seq<string> {
    classes[..if |classes| <= |probs| then |classes| else |probs|]
  }

  /** `[1.0 if c == pred_label else 0.0 for c in classes]`. */
  function OneHot(classes: seq<string>, predicted: string): (p: seq<real>)
    ensures |p| == |classes|
  {
    seq(|classes|, i requires 0 <= i < |classes| => if classes[i] == predicted then 1.0 else 0.0)
  }

  /** `{k: v / s for k, v in prob_dict.items()}` when the sum `s` is positive, the
      dict itself otherwise. */
  function Renormalise<K>(keys: seq<K>, d: map<K, real>): (r: map<K, real>)
    requires forall k :: k in keys ==> k in d
    ensures r.Keys == d.Keys
  {
    var s := SumOver(keys, d);
    if s > 0.0 then Scale(d, s) else d
  }

  /** The probabilities the classifier gives: `predict_proba(X)[0]`, or one-hot on
      the predicted label without `predict_proba`. */
  function Probs(model: TrainedModel, answer: Answer): seq<real> {
    if model.hasProba then answer.proba else OneHot(model.classes, answer.predicted)
  }

  /** `prob_dict = {cls: float(p) for cls, p in zip(classes, probs)}`. */
  function Raw(model: TrainedModel, answer: Answer): map<string, real> {
    RA.ZipMap(model.classes, Probs(model, answer))
  }

  /** The key order of `prob_dict`. */
  function RawOrder(model: TrainedModel, answer: Answer): (order: seq<string>)
    ensures Distinct(order)
    ensures forall k :: k in order <==> k in Raw(model, answer)
  {
    KeyOrder(Paired(model.classes, Probs(model, answer)))
  }

  /** The dict returned once the classifier has answered. */
  function Answered(model: TrainedModel, answer: Answer): (p: Prediction)
    ensures p.predictedField == answer.predicted
    ensures p.order == RawOrder(model, answer)
    ensures p.probabilities.Keys == Raw(model, answer).Keys
  {
    var order := RawOrder(model, answer);
    Prediction(answer.predicted, Renormalise(order, Raw(model, answer)), order)
  }

  /** `predict_with_best_model(text, model, vectorizer)`. `vectorizerLoaded` says
      whether the vectorizer is not None; `classify` is what transforming a
      document and predicting on it gives, `Err` when any of those calls raises. */
  function PredictWithBestModel(text: string, model: Option<TrainedModel>, vectorizerLoaded: bool,
                                classify: string -> Result<Answer>): (r: Option<Prediction>)
    ensures r.None? <==> (model.None? || !vectorizerLoaded || text == [] || classify(Lower(text)).Err?)
    ensures r.Some? ==> r.value == Answered(model.value, classify(Lower(text)).value)
  {
    if model.None? || !vectorizerLoaded || text == [] then None
    else
      match classify(Lower(text))
      case Err(_) => None
      case Ok(answer) => Some(Answered(model.value, answer))
  }

  // ---------------------------------------------------------------------------
  // What a prediction holds
  // ---------------------------------------------------------------------------

  /** With `predict_proba`, a class paired at index `i` (and at no later index)
      gets `predict_proba(X)[0][i]` divided by the sum of the dict's values, or
      the value itself when that sum is not positive. */
  lemma AnsweredProba(model: TrainedModel, answer: Answer, i: nat)
    requires model.hasProba
    requires i < |model.classes| && i < |answer.proba|
    requires forall j :: i < j < |model.classes| && j < |answer.proba| ==> model.classes[j] != model.classes[i]
    ensures var p := Answered(model, answer);
      var s := SumOver(p.order, Raw(model, answer));
      && model.classes[i] in p.probabilities
      && p.probabilities[model.classes[i]] == if s > 0.0 then answer.proba[i] / s else answer.proba[i]
  {
    RA.ZipMapAt(model.classes, answer.proba, i);
    var order := RawOrder(model, answer);
    var raw := Raw(model, answer);
    if SumOver(order, raw) > 0.0 {
      RenormalisePositive(order, raw);
    }
  }

  /** Renormalising by a positive sum: the values sum to 1, each is its old value
      divided by the old sum (so ratios between fields are kept), and when the old
      values were non-negative each new one lies in [0, 1]. */
  lemma RenormalisePositive<K>(keys: seq<K>, d: map<K, real>)
    requires forall k :: k in d <==> k in keys
    requires SumOver(keys, d) > 0.0
    ensures var r := Renormalise(keys, d);
      && SumOver(keys, r) == 1.0
      && (forall k :: k in r ==> r[k] == d[k] / SumOver(keys, d))
      && (NonNegativeOver(keys, d) ==> forall k :: k in r ==> 0.0 <= r[k] <= 1.0)
  {
    var s := SumOver(keys, d);
    var r := Scale(d, s);
    assert Renormalise(keys, d) == r;
    SumNormalised(keys, d);
    if NonNegativeOver(keys, d) {
      Shares(keys, d);
    }
  }

  /** The dict of one-hot values holds 1 for the predicted label and 0 for every
      other class. */
  lemma {:induction false} ZipOneHot(classes: seq<string>, predicted: string)
    ensures var m := RA.ZipMap(classes, OneHot(classes, predicted));
      forall k :: k in m ==> m[k] == if k == predicted then 1.0 else 0.0
  {
    if classes != [] {
      var n := |classes|;
      var p := OneHot(classes, predicted);
      assert p[..n - 1] == OneHot(classes[..n - 1], predicted);
      ZipOneHot(classes[..n - 1], predicted);
      assert RA.ZipMap(classes, p) == RA.ZipMap(classes[..n - 1], p[..n - 1])[classes[n - 1] := p[n - 1]];
    }
  }

  /** Summing one-hot values over distinct keys gives 1 when the label is among them
      and 0 otherwise. */
  lemma {:induction false} SumOneHot<K>(keys: seq<K>, m: map<K, real>, predicted: K)
    requires Distinct(keys)
    requires forall k :: k in keys ==> k in m && m[k] == if k == predicted then 1.0 else 0.0
    ensures SumOver(keys, m) == if predicted in keys then 1.0 else 0.0
  {
    if keys != [] {
      SumOneHot(keys[1..], m, predicted);
      if keys[0] == predicted {
        assert predicted !in keys[1..] by {
          forall i | 0 <= i < |keys| - 1 ensures keys[1..][i] != predicted {
            assert keys[1..][i] == keys[i + 1];
          }
        }
      } else {
        assert predicted in keys <==> predicted in keys[1..] by {
          assert keys == [keys[0]] + keys[1..];
        }
      }
    }
  }

  /** Once the classifier has answered, the keys of the probabilities are the
      classes paired with a probability; with a positive total the probabilities
      sum to 1 and keep the classifier's ratios, and with non-negative
      probabilities to begin with they lie in [0, 1]; with no positive total they
      are the classifier's own. */
  lemma AnsweredDistribution(model: TrainedModel, answer: Answer)
    ensures var p := Answered(model, answer); var raw := Raw(model, answer);
      var s := SumOver(p.order, raw);
      && (forall k :: k in p.probabilities <==> k in Paired(model.classes, Probs(model, answer)))
      && (s > 0.0 ==> SumOver(p.order, p.probabilities) == 1.0
                      && forall k :: k in p.probabilities ==> p.probabilities[k] == raw[k] / s)
      && (s > 0.0 && NonNegativeOver(p.order, raw) ==>
            forall k :: k in p.probabilities ==> 0.0 <= p.probabilities[k] <= 1.0)
      && (s <= 0.0 ==> p.probabilities == raw)
  {
    var order := RawOrder(model, answer);
    var raw := Raw(model, answer);
    if SumOver(order, raw) > 0.0 {
      RenormalisePositive(order, raw);
    }
  }

  /** Renormalising one-hot values over distinct keys leaves them as they are. */
  lemma OneHotRenormalised<K>(keys: seq<K>, m: map<K, real>, predicted: K)
    requires Distinct(keys)
    requires forall k :: k in m <==> k in keys
    requires forall k :: k in m ==> m[k] == if k == predicted then 1.0 else 0.0
    ensures Renormalise(keys, m) == m
    ensures SumOver(keys, m) == if predicted in keys then 1.0 else 0.0
  {
    SumOneHot(keys, m, predicted);
    if predicted in keys {
      var r := Scale(m, 1.0);
      forall k | k in r ensures r[k] == m[k] {
        assert r[k] == m[k] / 1.0;
      }
    }
  }

  /** Without `predict_proba` the probabilities are one-hot: 1 for the predicted
      field and 0 for every other class, summing to 1 exactly when the predicted
      label is one of the classes. */
  lemma OneHotPrediction(model: TrainedModel, answer: Answer)
    requires !model.hasProba
    ensures var p := Answered(model, answer);
      && (forall k :: k in p.probabilities <==> k in model.classes)
      && (forall k :: k in p.probabilities ==>
            p.probabilities[k] == if k == p.predictedField then 1.0 else 0.0)
      && SumOver(p.order, p.probabilities) == if p.predictedField in model.classes then 1.0 else 0.0
  {
    var classes := model.classes;
    var probs := OneHot(classes, answer.predicted);
    assert Paired(classes, probs) == classes;
    var order := RawOrder(model, answer);
    var raw := Raw(model, answer);
    assert raw == RA.ZipMap(classes, probs);
    ZipOneHot(classes, answer.predicted);
    OneHotRenormalised(order, raw, answer.predicted);
  }

  /** Lower-casing the text first changes nothing: the model only sees `text.lower()`. */
  lemma PredictIgnoresCase(text: string, model: Option<TrainedModel>, vectorizerLoaded: bool,
                           classify: string -> Result<Answer>)
    ensures PredictWithBestModel(Lower(text), model, vectorizerLoaded, classify)
         == PredictWithBestModel(text, model, vectorizerLoaded, classify)
  {
    var t := Lower(text);
    assert Lower(t) == t by {
      forall i | 0 <= i < |t| ensures Lower(t)[i] == t[i] {
        assert t[i] == LowerChar(text[i]);
      }
    }
  }

  // ---------------------------------------------------------------------------
  // Choosing the field shown for a resume
  // ---------------------------------------------------------------------------

  /** `max(d, key=d.get)` over a dict whose keys, in order, are `keys`: the first key
      holding the largest value. */
  function ArgMax(keys: seq<string>, m: map<string, real>): (k: string)
    requires keys != []
    requires forall k :: k in keys ==> k in m
    ensures k in keys
    ensures forall j :: 0 <= j < |keys| ==> m[keys[j]] <= m[k]
    ensures exists i :: 0 <= i < |keys| && keys[i] == k && forall j :: 0 <= j < i ==> m[keys[j]] < m[k]
  {
    if |keys| == 1 then keys[0]
    else
      var rest := ArgMax(keys[1..], m);
      if m[rest] > m[keys[0]] then rest else keys[0]
  }

  /** The key `max` returns holds the largest value, and every key before it holds
      a strictly smaller one. */
  lemma {:induction false} ArgMaxFirst(keys: seq<string>, m: map<string, real>) returns (i: nat)
    requires keys != []
    requires forall k :: k in keys ==> k in m
    ensures i < |keys| && keys[i] == ArgMax(keys, m)
    ensures forall j :: 0 <= j < |keys| ==> m[keys[j]] <= m[keys[i]]
    ensures forall j :: 0 <= j < i ==> m[keys[j]] < m[keys[i]]
  {
    if |keys| == 1 {
      i := 0;
    } else {
      var i' := ArgMaxFirst(keys[1..], m);
      assert forall j :: 1 <= j < |keys| ==> keys[j] == keys[1..][j - 1];
      if m[keys[1..][i']] > m[keys[0]] {
        i := i' + 1;
      } else {
        i := 0;
      }
    }
  }

  /** The recommendations the page shows, the order their dict holds them in, and
      the predicted field. */
  datatype FieldChoice = FieldChoice(recommendations: map<string, real>, order: seq<string>, predictedField: string)

  /** The order of the dict `get_field_recommendations` returns. */
  function RecommendationOrder(table: RA.KeywordTable, classifier: RA.FieldClassifier): (order: seq<string>)
    requires table.Valid() && table.fields != []
    ensures Distinct(order)
    ensures classifier.Predicts? ==>
      forall k :: k in order <==> k in RA.ZipMap(classifier.classes, classifier.probabilities)
    ensures !classifier.Predicts? ==> forall k :: k in order <==> k in table.keywords
  {
    match classifier
    case Predicts(classes, probabilities) => KeyOrder(Paired(classes, probabilities))
    case _ => table.fields
  }

  /** The branch after the analysis step: a prediction's probabilities and field
      when `predict_with_best_model` answered, otherwise the analyzer's field
      recommendations and the first field holding the largest of them; `max` raises
      on an empty dict. */
  function ChooseField(prediction: Option<Prediction>, table: RA.KeywordTable, text: string,
                       classifier: RA.FieldClassifier): (r: Result<FieldChoice>)
    requires table.Valid() && table.fields != []
    requires prediction.Some? ==> forall k :: k in prediction.value.probabilities <==> k in prediction.value.order
    ensures prediction.Some? ==> r.Ok? && r.value.predictedField == prediction.value.predictedField
                                 && r.value.recommendations == prediction.value.probabilities
    ensures prediction.None? ==> (r.Err? <==> RecommendationOrder(table, classifier) == [])
    ensures prediction.None? && r.Ok? ==> r.value.recommendations == RA.FieldRecommendations(table, text, classifier)
    ensures r.Ok? ==> forall k :: k in r.value.recommendations <==> k in r.value.order
    ensures r.Ok? ==> r.value.predictedField in r.value.order || prediction.Some?
  {
    match prediction
    case Some(p) => Ok(FieldChoice(p.probabilities, p.order, p.predictedField))
    case None =>
      var recommendations := RA.FieldRecommendations(table, text, classifier);
      var order := RecommendationOrder(table, classifier);
      if order == [] then Err("max() arg is an empty sequence")
      else Ok(FieldChoice(recommendations, order, ArgMax(order, recommendations)))
  }

  /** Without a prediction, the shown field holds the largest recommendation and is
      the first field in the dict to do so; with the keyword recommendations it is
      a field of the table. */
  lemma FallbackPicksFirstMaximum(table: RA.KeywordTable, text: string, classifier: RA.FieldClassifier)
    requires table.Valid() && table.fields != []
    requires RecommendationOrder(table, classifier) != []
    ensures var c := ChooseField(None, table, text, classifier).value;
      && c.predictedField in c.recommendations
      && (!classifier.Predicts? ==> c.predictedField in table.fields)
      && (forall k :: k in c.recommendations ==> c.recommendations[k] <= c.recommendations[c.predictedField])
      && exists i :: 0 <= i < |c.order| && c.order[i] == c.predictedField
                     && forall j :: 0 <= j < i ==> c.recommendations[c.order[j]] < c.recommendations[c.predictedField]
  {
    var c := ChooseField(None, table, text, classifier).value;
    forall k | k in c.recommendations ensures c.recommendations[k] <= c.recommendations[c.predictedField] {
      var j :| 0 <= j < |c.order| && c.order[j] == k;
    }
  }
}
