/** `DelayModel`: preprocessing, class-weighted training and lazily trained
    prediction, over a classifier treated as a black box. */
module Model {
  import opened Wrappers
  import opened Encoding

  // ------------------------------------------------------------ class weights

  function Occurrences<T(==)>(s: seq<T>, x: T): (n: nat)
    ensures n <= |s|
  {
    if s == [] then 0 else (if s[0] == x then 1 else 0) + Occurrences(s[1..], x)
  }

  /** `len(target[target.iloc[:, 0] == v])`: text, timestamp and period cells
      never equal a number. */
  function CountEqual(c: Column, v: int): (n: nat)
    ensures n <= ColumnLength(c)
  {
    match c
    case Ints(s) => Occurrences(s, v)
    case Reals(s) => Occurrences(s, v as real)
    case _ => 0
  }

  /** One class weight, `numerator / denominator`, kept as the two counts
      the source divides. */
  datatype Weight = Weight(numerator: nat, denominator: nat)

  /** The `class_weight` given to the classifier: the weight of class 0 and of class 1. */
  datatype Weights = Weights(forZero: Weight, forOne: Weight)

  /** `{1: n_y0/len(target), 0: n_y1/len(target)}`, or the ZeroDivisionError
      of an empty target. */
  function ClassWeights(target: Column): (r: Result<Weights, Exception>)
    ensures r.Err? <==> ColumnLength(target) == 0
    ensures r.Err? ==> r.error.kind == ZeroDivisionError
    ensures r.Ok? ==>
      && r.value.forOne.denominator == r.value.forZero.denominator == ColumnLength(target) > 0
      && r.value.forOne.numerator == CountEqual(target, 0)
      && r.value.forZero.numerator == CountEqual(target, 1)
  {
    var n := ColumnLength(target);
    if n == 0 then Err(Exception(ZeroDivisionError, "division by zero"))
    else Ok(Weights(Weight(CountEqual(target, 1), n), Weight(CountEqual(target, 0), n)))
  }

  lemma {:induction false} BinaryOccurrences(s: seq<int>)
    requires forall i :: 0 <= i < |s| ==> s[i] == 0 || s[i] == 1
    ensures Occurrences(s, 0) + Occurrences(s, 1) == |s|
  {
    if s != [] {
      assert forall i :: 0 <= i < |s[1..]| ==> s[1..][i] == s[i + 1];
      BinaryOccurrences(s[1..]);
    }
  }

  /** On non-empty 0/1 labels the two weights share a denominator and their
      numerators add up to it (they sum to 1), and the rarer class gets the
      larger weight. */
  lemma {:induction false} WeightsBalance(labels: seq<int>)
    requires |labels| > 0
    requires forall i :: 0 <= i < |labels| ==> labels[i] == 0 || labels[i] == 1
    ensures ClassWeights(Ints(labels)).Ok?
    ensures var w := ClassWeights(Ints(labels)).value;
      && w.forZero.denominator == w.forOne.denominator
      && w.forZero.numerator + w.forOne.numerator == w.forOne.denominator
      && (w.forOne.numerator > w.forZero.numerator <==> Occurrences(labels, 1) < Occurrences(labels, 0))
  {
    BinaryOccurrences(labels);
  }

  // ---------------------------------------------------------- the classifier

  /** The scikit-learn estimator as a black box: the exception its `fit`
      raises on given weights and data, if any; the exception its `predict`
      raises after such a refused `fit` (a NotFittedError, which is a
      ValueError, or an AttributeError for the missing `coef_`, depending on
      how far the refused `fit` got); and the label (true for 1) its
      `predict` gives a feature row once fitted on that data. */
  datatype Classifier = Classifier(
    refusal: (Weights, FeatureTable, Column) -> Option<Exception>,
    unfitted: Exception,
    decide: (Weights, FeatureTable, Column, seq<int>) -> bool)

  /** The data an estimator was fitted on. */
  datatype Training = Training(features: FeatureTable, target: Column)

  /** The value of `_model`: an estimator built with its class weights, and
      the data its `fit` accepted, if it returned. */
  datatype Estimator = Estimator(weights: Weights, fittedOn: Option<Training>)

  /** What the estimator's `predict` raises on a table without rows. */
  const EmptyInput := Exception(ValueError,
    "Found array with 0 sample(s) (shape=(0, 10)) while a minimum of 1 is required by LogisticRegression.")

  const UnpackError := Exception(ValueError, "too many values to unpack (expected 2)")

  /** What `predict` trains on when `_model` is unset: the result of reading
      the reference data set, preprocessed with `target_column="delay"` and
      unpacked into features and target. When the data set has no 'Fecha-O'
      column only the ten-column feature table comes back, and unpacking it
      into two names raises. */
  function TrainingData(reference: Result<Table, Exception>): (r: Result<Training, Exception>)
    ensures r.Ok? ==> reference.Ok? && PreprocessError(reference.value).None?
  {
    match reference
    case Err(e) => Err(e)
    case Ok(t) =>
      if PreprocessError(t).Some? then Err(PreprocessError(t).value)
      else match TargetOf(t, Some("delay"))
        case None => Err(UnpackError)
        case Some(y) => Ok(Training(FeatureTable(Top10, Encode(t.rows)), y))
  }

  /** The training data of a reference set with a 'Fecha-O' column is one
      0/1 label per row, so its class weights are balanced as
      `WeightsBalance` states, unless the set is empty. */
  lemma {:induction false} LazyTrainingLabels(reference: Result<Table, Exception>)
    requires TrainingData(reference).Ok?
    ensures var d := TrainingData(reference).value;
      && d.target.Ints?
      && |d.target.ints| == |d.features.rows| == |reference.value.rows|
      && forall i :: 0 <= i < |d.target.ints| ==> d.target.ints[i] == 0 || d.target.ints[i] == 1
    ensures var d := TrainingData(reference).value;
      |d.target.ints| > 0 ==>
        var w := ClassWeights(d.target);
        w.Ok? && w.value.forZero.numerator + w.value.forOne.numerator == w.value.forOne.denominator
  {
    var t := reference.value;
    DelayTarget(t);
    var d := TrainingData(reference).value;
    if |d.target.ints| > 0 {
      WeightsBalance(d.target.ints);
    }
  }

  // ------------------------------------------------------------ the features

  /** `pd.concat` of the three `get_dummies` frames, then a zero column for
      every entry of `top_10_features` the batch lacks. */
  method OneHotColumns(rows: seq<Row>) returns (features: map<string, seq<int>>)
    ensures features.Keys == Wide(rows).Keys + SelectedNames(|Top10|)
    ensures forall j :: 0 <= j < |Top10| ==> Top10[j] in features
    ensures forall name :: name in features ==> features[name] == CellColumn(rows, name)
  {
    WideColumns(rows);
    features := FillMissing(rows, Wide(rows));
  }

  /** The first `k` names of `top_10_features`, as a set. */
  function SelectedNames(k: nat): set<string>
    requires k <= |Top10|
  {
    set j | 0 <= j < k :: Top10[j]
  }

  lemma SelectedNamesStep(k: nat)
    requires k < |Top10|
    ensures SelectedNames(k + 1) == SelectedNames(k) + {Top10[k]}
  {
  }

  /** The loop over `top_10_features` that adds each missing column as zeros. */
  method FillMissing(rows: seq<Row>, wide: map<string, seq<int>>) returns (features: map<string, seq<int>>)
    requires forall name :: name in wide ==> wide[name] == CellColumn(rows, name)
    requires forall name :: name !in wide ==> CellColumn(rows, name) == seq(|rows|, i => 0)
    ensures features.Keys == wide.Keys + SelectedNames(|Top10|)
    ensures wide.Keys <= features.Keys
    ensures forall j :: 0 <= j < |Top10| ==> Top10[j] in features
    ensures forall name :: name in features ==> features[name] == CellColumn(rows, name)
  {
    features := wide;
    var k := 0;
    while k < |Top10|
      invariant 0 <= k <= |Top10|
      invariant features.Keys == wide.Keys + SelectedNames(k)
      invariant forall j :: 0 <= j < k ==> Top10[j] in features
      invariant forall name :: name in features ==> features[name] == CellColumn(rows, name)
      invariant forall name :: name !in features ==> CellColumn(rows, name) == seq(|rows|, i => 0)
    {
      var feature := Top10[k];
      ghost var before := features.Keys;
      if feature !in features {
        features := features[feature := seq(|rows|, i => 0)];
      }
      assert features.Keys == before + {feature};
      SelectedNamesStep(k);
      assert features.Keys == wide.Keys + SelectedNames(k + 1);
      k := k + 1;
    }
  }

  /** `features[top_10_features]`, row by row. */
  method SelectTop10(rows: seq<Row>, features: map<string, seq<int>>) returns (selected: seq<seq<int>>)
    requires forall j :: 0 <= j < |Top10| ==> Top10[j] in features
    requires forall name :: name in features ==> features[name] == CellColumn(rows, name)
    ensures selected == Encode(rows)
  {
    selected := seq(|rows|, i requires 0 <= i < |rows| =>
      seq(|Top10|, j requires 0 <= j < |Top10| => features[Top10[j]][i]));
    forall i | 0 <= i < |rows|
      ensures selected[i] == EncodeRow(rows[i])
    {
      forall j | 0 <= j < |Top10|
        ensures selected[i][j] == EncodeRow(rows[i])[j]
      {
        assert features[Top10[j]] == CellColumn(rows, Top10[j]);
      }
    }
  }

  // ------------------------------------------------------------- DelayModel

  class DelayModel {
    /** `self._model`; `None` until the first `fit`. */
    var estimator: Option<Estimator>
    const classifier: Classifier

    constructor (classifier: Classifier)
      ensures estimator == None && this.classifier == classifier
    {
      this.classifier := classifier;
      estimator := None;
    }

    /** The copy `processed_data` of the input with `period_day` and
        `high_season` added, and `min_diff` and `delay` when 'Fecha-O' is present. */
    method AddDerivedColumns(data: Table) returns (processed: map<string, Column>)
      requires PreprocessError(data).None?
      ensures processed.Keys == ProcessedColumns(data)
      ensures forall name :: name in processed ==> processed[name] == ProcessedColumn(data, name)
    {
      processed := map name | name in data.columns * InputColumns :: ProcessedColumn(data, name);
      processed := processed["period_day" := ProcessedColumn(data, "period_day")];
      processed := processed["high_season" := ProcessedColumn(data, "high_season")];
      if "Fecha-O" in data.columns {
        processed := processed["min_diff" := ProcessedColumn(data, "min_diff")];
        processed := processed["delay" := ProcessedColumn(data, "delay")];
      }
    }

    /** `preprocess`: the ten selected one-hot features of every row and, when
        asked for and present, the target column. */
    method Preprocess(data: Table, targetColumn: Option<string>) returns (r: Result<Preprocessed, Exception>)
      ensures r.Err? <==> PreprocessError(data).Some?
      ensures r.Err? ==> r.error == PreprocessError(data).value
      ensures r.Ok? ==> r.value.features == FeatureTable(Top10, Encode(data.rows))
      ensures r.Ok? ==> PreprocessError(data).None? && r.value.target == TargetOf(data, targetColumn)
    {
      var raised := PreprocessError(data);
      if raised.Some? {
        return Err(raised.value);
      }
      var processed := AddDerivedColumns(data);

      var features := OneHotColumns(data.rows);
      var selected := SelectTop10(data.rows, features);

      var target := None;
      if targetColumn.Some? && targetColumn.value != "" && targetColumn.value in processed {
        target := Some(processed[targetColumn.value]);
      }
      r := Ok(Preprocessed(FeatureTable(Top10, selected), target));
    }

    /** The new `_model` and the exception `fit` raises, if any. The weights
        are computed before `_model` is assigned, so an empty target leaves it
        as it was; the estimator is assigned before its own `fit` runs, so a
        refusal leaves an estimator that was never fitted. */
    function AfterFit(previous: Option<Estimator>, data: Training): (r: (Option<Estimator>, Option<Exception>))
      ensures r.1.None? ==> ClassWeights(data.target).Ok? && r.0 == Some(Estimator(ClassWeights(data.target).value, Some(data)))
      ensures ColumnLength(data.target) == 0 ==> r.0 == previous && r.1.Some? && r.1.value.kind == ZeroDivisionError
      ensures ColumnLength(data.target) > 0 ==> r.0.Some? && r.0.value.weights == ClassWeights(data.target).value
      ensures ColumnLength(data.target) > 0 ==>
        && r.1 == classifier.refusal(ClassWeights(data.target).value, data.features, data.target)
        && (r.1.Some? ==> r.0.value.fittedOn.None?)
    {
      match ClassWeights(data.target)
      case Err(e) => (previous, Some(e))
      case Ok(w) =>
        var refused := classifier.refusal(w, data.features, data.target);
        (Some(Estimator(w, if refused.None? then Some(data) else None)), refused)
    }

    /** `fit`: build the class-weighted estimator into `_model` and fit it. */
    method Fit(features: FeatureTable, target: Column) returns (raised: Option<Exception>)
      modifies this
      ensures (estimator, raised) == AfterFit(old(estimator), Training(features, target))
    {
      var weights := ClassWeights(target);
      if weights.Err? {
        return Some(weights.error);
      }
      estimator := Some(Estimator(weights.value, None));
      raised := classifier.refusal(weights.value, features, target);
      if raised.None? {
        estimator := Some(Estimator(weights.value, Some(Training(features, target))));
      }
    }

    /** `self._model.predict(features)`, as a list of ints: an estimator that
        was never fitted raises the classifier's `unfitted` exception first,
        then an empty table is refused. */
    function Classify(e: Estimator, features: FeatureTable): (r: Result<seq<int>, Exception>)
      ensures r.Ok? <==> e.fittedOn.Some? && |features.rows| > 0
      ensures e.fittedOn.None? ==> r == Err(classifier.unfitted)
      ensures e.fittedOn.Some? && |features.rows| == 0 ==> r == Err(EmptyInput)
      ensures r.Ok? ==> |r.value| == |features.rows|
      ensures r.Ok? ==> forall i :: 0 <= i < |features.rows| ==>
        && (r.value[i] == 0 || r.value[i] == 1)
        && (r.value[i] == 1 <==> classifier.decide(e.weights, e.fittedOn.value.features, e.fittedOn.value.target, features.rows[i]))
    {
      match e.fittedOn
      case None => Err(classifier.unfitted)
      case Some(data) =>
        if |features.rows| == 0 then Err(EmptyInput)
        else Ok(seq(|features.rows|, i requires 0 <= i < |features.rows| =>
          if classifier.decide(e.weights, data.features, data.target, features.rows[i]) then 1 else 0))
    }

    /** `predict`: train on the reference data set first when `_model` is
        unset, then label every row. */
    method Predict(features: FeatureTable, reference: Result<Table, Exception>) returns (r: Result<seq<int>, Exception>)
      modifies this
      ensures old(estimator).Some? ==> estimator == old(estimator) && r == Classify(estimator.value, features)
      ensures old(estimator).None? && TrainingData(reference).Err? ==>
        estimator == None && r == Err(TrainingData(reference).error)
      ensures old(estimator).None? && TrainingData(reference).Ok? ==>
        var (after, raised) := AfterFit(None, TrainingData(reference).value);
        && estimator == after
        && r == if raised.Some? then Err(raised.value) else Classify(after.value, features)
      ensures r.Ok? ==> estimator.Some? && estimator.value.fittedOn.Some? && |r.value| == |features.rows|
    {
      if estimator.None? {
        match reference {
          case Err(e) =>
            return Err(e);
          case Ok(data) =>
            var prepared := Preprocess(data, Some("delay"));
            if prepared.Err? {
              return Err(prepared.error);
            }
            if prepared.value.target.None? {
              return Err(UnpackError);
            }
            var raised := Fit(prepared.value.features, prepared.value.target.value);
            if raised.Some? {
              return Err(raised.value);
            }
        }
      }
      r := Classify(estimator.value, features);
    }
  }

  /** Once trained, `predict` is deterministic: a second call without a
      `fit` in between gives the same labels and does not retrain. */
  method PredictTwice(m: DelayModel, features: FeatureTable, reference: Result<Table, Exception>)
    returns (first: Result<seq<int>, Exception>, second: Result<seq<int>, Exception>)
    modifies m
    ensures first.Ok? ==> second == first
  {
    first := m.Predict(features, reference);
    second := m.Predict(features, reference);
  }
}
