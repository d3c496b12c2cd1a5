/**
  One press of the prediction button: stop when the artifacts did not
  load, otherwise normalise the form, project it onto the canonical
  columns, run the four fitted stages in order and present the label.
 */
module Inference {
  import opened Wrappers
  import opened Dict
  import opened Vocabulary
  import opened FeatureRecord
  import opened Projection
  import opened Presentation

  /**
    The loaded artifacts: the four fitted stages, whose internals are not
    modelled, and the canonical column list. X, Y and C are the types of
    the transformed features, the scaled features and the encoded
    prediction; only the order transformer, scaler, model, encoder
    type-checks.
   */
  datatype Bundle<!X, !Y, !C> = Bundle(
    model: Y -> C,
    transformer: Frame -> X,
    scaler: X -> Y,
    encoder: C -> seq<string>,
    featureColumns: seq<string>)

  /** Why a press gives no result, one constructor per way the script stops or raises. */
  datatype Failure =
    | ModelNotLoaded                      // the artifacts failed to load; the script stops
    | UnknownChoice(choice: string)       // KeyError in a lookup table
    | MissingColumns(names: seq<string>)  // KeyError selecting the canonical columns
    | NoLabel                             // IndexError taking the first decoded label

  /** What the result screen shows: the decoded label, its rendered text, the branch and its tier. */
  datatype Prediction = Prediction(decoded: string, text: string, category: Category, tier: Tier)

  /** The frame handed to the transformer: the assembled record, projected onto the canonical columns. */
  function ModelInput(featureColumns: seq<string>, f: Form): (r: Result<Frame, Failure>)
    ensures r.Ok? <==> Assemble(f).Ok? && forall n :: n in featureColumns ==> n in RecordKeys
    ensures r.Ok? ==> r.value.columns == featureColumns && |r.value.row| == |featureColumns|
    ensures r.Ok? ==> forall i :: 0 <= i < |featureColumns| ==>
      Get(Assemble(f).value, featureColumns[i]) == Some(r.value.row[i])
    ensures Assemble(f).Err? ==> r == Err(UnknownChoice(Assemble(f).error))
    ensures Assemble(f).Ok? && r.Err? ==>
      (r.error.MissingColumns? && forall n :: n in r.error.names <==> n in featureColumns && n !in RecordKeys)
  {
    match Assemble(f)
    case Err(choice) => Err(UnknownChoice(choice))
    case Ok(rec) =>
      match Project(rec, featureColumns)
      case Err(names) => Err(MissingColumns(names))
      case Ok(frame) => Ok(frame)
  }

  /** The fixed chain: transformer, then scaler, then model, then the encoder's inverse mapping. */
  function Infer<X, Y, C>(b: Bundle<X, Y, C>, frame: Frame): seq<string>
  {
    b.encoder(b.model(b.scaler(b.transformer(frame))))
  }

  /** The first decoded label, rendered and classified. */
  function Present(labels: seq<string>): (r: Result<Prediction, Failure>)
    ensures r.Err? <==> labels == []
    ensures r.Err? ==> r.error == NoLabel
    ensures r.Ok? ==> r.value.decoded == labels[0]
    ensures r.Ok? ==> r.value.text == Render(labels[0])
    ensures r.Ok? ==> '_' !in r.value.text && |r.value.text| == |labels[0]|
    ensures r.Ok? ==> r.value.category == Classify(labels[0]) && r.value.tier == TierOf(r.value.category)
  {
    if labels == [] then Err(NoLabel)
    else
      var text := Render(labels[0]);
      RenderKeepsCategory(labels[0]);
      Ok(Prediction(labels[0], text, Classify(text), Severity(text)))
  }

  /** The prediction button. */
  function Predict<X, Y, C>(loaded: Option<Bundle<X, Y, C>>, f: Form): (r: Result<Prediction, Failure>)
    ensures loaded.None? ==> r == Err(ModelNotLoaded)
    ensures loaded.Some? && ModelInput(loaded.value.featureColumns, f).Err? ==>
      r == Err(ModelInput(loaded.value.featureColumns, f).error)
    ensures r.Ok? ==>
      && loaded.Some?
      && ModelInput(loaded.value.featureColumns, f).Ok?
      && Infer(loaded.value, ModelInput(loaded.value.featureColumns, f).value) != []
      && r.value.decoded == Infer(loaded.value, ModelInput(loaded.value.featureColumns, f).value)[0]
    ensures loaded.Some? && ModelInput(loaded.value.featureColumns, f).Ok? ==>
      (r.Ok? <==> Infer(loaded.value, ModelInput(loaded.value.featureColumns, f).value) != [])
    ensures (loaded.Some? && ModelInput(loaded.value.featureColumns, f).Ok? &&
             Infer(loaded.value, ModelInput(loaded.value.featureColumns, f).value) == []) ==>
      r == Err(NoLabel)
    ensures r.Err? && r.error == NoLabel ==>
      loaded.Some? && ModelInput(loaded.value.featureColumns, f).Ok? &&
      Infer(loaded.value, ModelInput(loaded.value.featureColumns, f).value) == []
    ensures r.Ok? ==> r.value.text == Render(r.value.decoded)
    ensures r.Ok? ==> r.value.category == Classify(r.value.decoded) && r.value.tier == TierOf(r.value.category)
  {
    match loaded
    case None => Err(ModelNotLoaded)
    case Some(b) =>
      match ModelInput(b.featureColumns, f)
      case Err(e) => Err(e)
      case Ok(frame) => Present(Infer(b, frame))
  }

  /**
    For answers the widgets can give and a canonical column list drawn from
    the record's keys, the transformer receives exactly the canonical
    columns, each holding the normalised answer, and the press fails only
    when the encoder yields no label.
   */
  lemma WidgetInputReachesModel<X, Y, C>(b: Bundle<X, Y, C>, f: Form)
    requires FromWidgets(f)
    requires forall n :: n in b.featureColumns ==> n in RecordKeys
    ensures ModelInput(b.featureColumns, f).Ok?
    ensures var frame := ModelInput(b.featureColumns, f).value;
      && frame.columns == b.featureColumns
      && InDomain(Assemble(f).value)
      && (Predict(Some(b), f).Ok? <==> Infer(b, frame) != [])
      && (Predict(Some(b), f).Err? ==> Predict(Some(b), f).error == NoLabel)
  {
    AssembleInDomain(f);
  }

  /**
    Whatever model is loaded, a press whose first decoded label is a known
    label shows that label's tier: success for the two lightest, warning
    for the two overweight labels and error for the three obesity labels.
   */
  lemma KnownLabelPrediction<X, Y, C>(b: Bundle<X, Y, C>, f: Form, i: nat)
    requires i < |KnownLabels|
    requires ModelInput(b.featureColumns, f).Ok?
    requires var labels := Infer(b, ModelInput(b.featureColumns, f).value); labels != [] && labels[0] == KnownLabels[i]
    ensures Predict(Some(b), f).Ok?
    ensures Predict(Some(b), f).value.tier == if i <= 1 then Success else if i <= 3 then Warning else Error
  {
    KnownLabelTiers(i);
  }

  /** The age slider has no influence on the prediction. */
  lemma PredictIgnoresAge<X, Y, C>(loaded: Option<Bundle<X, Y, C>>, f: Form, age: int)
    ensures Predict(loaded, f.(ageVal := age)) == Predict(loaded, f)
  {
    AssembleIgnoresAge(f, age);
  }
}
