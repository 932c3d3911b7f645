/** The `/predict` endpoint: request validation, conversion of flights to
    model rows, and the mapping of outcomes to status codes and bodies. */
module Api {
  import opened Wrappers
  import opened Calendar
  import opened Features
  import opened Encoding
  import opened Model

  /** One entry of `flights`, with the field types the request schema enforces. */
  datatype Flight = Flight(opera: string, tipoVuelo: string, mes: int)

  datatype Body = Detail(detail: string) | Predictions(predict: seq<int>)

  datatype Response = Response(status: int, body: Body)

  // ---------------------------------------------------------------- validation

  /** `Flight.validate_mes`. */
  function ValidateMes(v: int): (r: Result<int, string>)
    ensures r.Ok? <==> 1 <= v <= 12
    ensures r.Ok? ==> r.value == v
  {
    if v < 1 || v > 12 then Err("MES must be between 1 and 12") else Ok(v)
  }

  /** `Flight.validate_tipovuelo`. */
  function ValidateTipoVuelo(v: string): (r: Result<string, string>)
    ensures r.Ok? <==> v == "I" || v == "N"
    ensures r.Ok? ==> r.value == v
  {
    if v !in ["I", "N"] then Err("TIPOVUELO must be I or N") else Ok(v)
  }

  function ErrorsOf<T>(r: Result<T, string>): seq<string> {
    match r
    case Ok(_) => []
    case Err(m) => [m]
  }

  /** The validator messages for one flight, in field order; OPERA accepts any string. */
  function FlightErrors(f: Flight): seq<string> {
    ErrorsOf(ValidateTipoVuelo(f.tipoVuelo)) + ErrorsOf(ValidateMes(f.mes))
  }

  function RequestErrors(flights: seq<Flight>): seq<string> {
    if flights == [] then [] else FlightErrors(flights[0]) + RequestErrors(flights[1..])
  }

  /** Parsing a `FlightRequest`: every error of every flight, or the flights as given. */
  function ValidateRequest(flights: seq<Flight>): (r: Result<seq<Flight>, seq<string>>)
    ensures r.Ok? ==> r.value == flights
    ensures r.Err? ==> |r.error| > 0
  {
    var errors := RequestErrors(flights);
    if errors == [] then Ok(flights) else Err(errors)
  }

  predicate ValidFlight(f: Flight) {
    (f.tipoVuelo == "I" || f.tipoVuelo == "N") && 1 <= f.mes <= 12
  }

  /** A request is accepted exactly when every flight is valid, and then
      unchanged: one invalid flight anywhere rejects the whole batch. */
  lemma {:induction false} ValidateRequestAccepts(flights: seq<Flight>)
    ensures ValidateRequest(flights).Ok? <==> forall i :: 0 <= i < |flights| ==> ValidFlight(flights[i])
    ensures ValidateRequest(flights).Ok? ==> ValidateRequest(flights).value == flights
  {
    if flights != [] {
      ValidateRequestAccepts(flights[1..]);
      assert forall i :: 1 <= i < |flights| ==> flights[i] == flights[1..][i - 1];
      assert FlightErrors(flights[0]) == [] <==> ValidFlight(flights[0]);
    }
  }

  /** `validation_exception_handler`: the same body whatever failed. */
  const ValidationErrorResponse := Response(400, Detail("Validation error"))

  // ------------------------------------------------------------------ handling

  /** The `except` clauses of `post_predict`. */
  function ExceptionResponse(e: Exception): (r: Response)
    ensures r.status == 400 <==> e.kind == ValueError
    ensures r.status == 400 || r.status == 500
    ensures r.status == 400 ==> r.body == Detail(e.message)
    ensures r.status == 500 ==> r.body == Detail("Internal server error: " + e.message)
  {
    if e.kind == ValueError then Response(400, Detail(e.message))
    else Response(500, Detail("Internal server error: " + e.message))
  }

  /** '2017-01-01 12:00:00', the 'Fecha-I' every request row is given. */
  const DummyFechaI := DateTime(2017, 1, 1, 12, 0, 0)

  /** The rows `post_predict` builds, in request order. */
  function RequestRows(flights: seq<Flight>): (rows: seq<Row>)
    ensures |rows| == |flights|
  {
    seq(|flights|, i requires 0 <= i < |flights| =>
      Row(flights[i].opera, flights[i].tipoVuelo, flights[i].mes, Some(DummyFechaI), None))
  }

  /** The columns of `pd.DataFrame(flights_data)` after 'Fecha-I' is added: a
      DataFrame built from an empty list has no columns at all. */
  function RequestColumns(flights: seq<Flight>): set<string> {
    (if flights == [] then {} else {"OPERA", "TIPOVUELO", "MES"}) + {"Fecha-I"}
  }

  /** Every request row falls in the 'tarde' period and in high season. */
  lemma DummyFechaIFeatures()
    ensures WellFormed(DummyFechaI) && HighSeasonParses(DummyFechaI)
    ensures PeriodDay(DummyFechaI) == Some(Afternoon)
    ensures IsHighSeason(DummyFechaI) == 1
  {
    var d := DummyFechaI;
    assert WellFormed(d);
    PeriodDayByHour(d);
    assert InHighSeasonDates(d);
    HighSeasonByDate(d);
  }

  /** `flights_data` and `flights_df`: one row per flight, fields copied. */
  method FlightsToTable(flights: seq<Flight>) returns (t: Table)
    ensures t.columns == RequestColumns(flights)
    ensures |t.rows| == |flights|
    ensures forall i :: 0 <= i < |flights| ==>
      t.rows[i] == Row(flights[i].opera, flights[i].tipoVuelo, flights[i].mes, Some(DummyFechaI), None)
  {
    var records: seq<Row> := [];
    var i := 0;
    while i < |flights|
      invariant 0 <= i <= |flights|
      invariant |records| == i
      invariant forall k :: 0 <= k < i ==> records[k] == Row(flights[k].opera, flights[k].tipoVuelo, flights[k].mes, None, None)
    {
      records := records + [Row(flights[i].opera, flights[i].tipoVuelo, flights[i].mes, None, None)];
      i := i + 1;
    }
    var columns: set<string> := if records == [] then {} else {"OPERA", "TIPOVUELO", "MES"};
    // flights_df['Fecha-I'] = '2017-01-01 12:00:00'
    t := Table(columns + {"Fecha-I"},
      seq(|records|, k requires 0 <= k < |records| => records[k].(fechaI := Some(DummyFechaI))));
  }

  /** A non-empty request table preprocesses without error; an empty one
      lacks the 'OPERA' column. */
  lemma {:induction false} RequestTablePreprocess(flights: seq<Flight>)
    ensures flights != [] ==> PreprocessError(Table(RequestColumns(flights), RequestRows(flights))).None?
    ensures flights == [] ==> PreprocessError(Table(RequestColumns(flights), RequestRows(flights))) == Some(MissingColumn("OPERA"))
  {
    var t := Table(RequestColumns(flights), RequestRows(flights));
    assert WellFormed(DummyFechaI) && HighSeasonParses(DummyFechaI);
    assert forall i :: 0 <= i < |t.rows| ==> FechaI(t.rows)[i] == Some(DummyFechaI);
    assert FirstParseError(FechaI(t.rows)).None?;
    assert FirstYearError(FechaI(t.rows)).None?;
    assert "Fecha-I" in t.columns && "Fecha-O" !in t.columns;
    if flights != [] {
      assert "OPERA" in t.columns && "TIPOVUELO" in t.columns && "MES" in t.columns;
    } else {
      assert "OPERA" !in t.columns;
    }
  }

  /** The response to a successful `model.predict`, or to the exception it raised. */
  function PredictResponse(r: Result<seq<int>, Exception>): (response: Response)
    ensures r.Ok? <==> response.status == 200
    ensures r.Ok? ==> response.body == Predictions(r.value)
  {
    match r
    case Ok(p) => Response(200, Predictions(p))
    case Err(e) => ExceptionResponse(e)
  }

  /** What `post_predict` leaves in `_model` and answers, given the estimator
      it starts from: an empty request has no 'OPERA' column; a set estimator
      labels the encoded request rows; an unset one is first trained on the
      reference data set, and a failure there is the answer. */
  function Outcome(model: DelayModel, previous: Option<Estimator>, flights: seq<Flight>, reference: Result<Table, Exception>)
    : (r: (Option<Estimator>, Response))
    ensures r.1.status == 200 || r.1.status == 400 || r.1.status == 500
    ensures flights == [] ==> r == (previous, Response(500, Detail("Internal server error: 'OPERA'")))
    ensures r.1.status == 200 ==>
      && r.1.body.Predictions?
      && |r.1.body.predict| == |flights|
      && r.0.Some? && r.0.value.fittedOn.Some?
    ensures r.1.status != 200 ==> exists e :: r.1 == ExceptionResponse(e)
    ensures previous.Some? ==> r.0 == previous
  {
    if flights == [] then
      assert "Internal server error: " + ("'" + "OPERA" + "'") == "Internal server error: 'OPERA'";
      (previous, ExceptionResponse(MissingColumn("OPERA")))
    else
      var features := FeatureTable(Top10, Encode(RequestRows(flights)));
      match previous
      case Some(e) => (previous, PredictResponse(model.Classify(e, features)))
      case None =>
        match TrainingData(reference)
        case Err(err) => (None, ExceptionResponse(err))
        case Ok(data) =>
          var (after, raised) := model.AfterFit(None, data);
          if raised.Some? then (after, ExceptionResponse(raised.value))
          else (after, PredictResponse(model.Classify(after.value, features)))
  }

  /** `post_predict` on a request that passed validation. */
  method PostPredict(model: DelayModel, flights: seq<Flight>, reference: Result<Table, Exception>) returns (response: Response)
    modifies model
    ensures response.status == 200 || response.status == 400 || response.status == 500
    ensures flights == [] ==>
      response == Response(500, Detail("Internal server error: 'OPERA'")) && model.estimator == old(model.estimator)
    ensures response.status == 200 ==>
      && response.body.Predictions?
      && |response.body.predict| == |flights|
      && model.estimator.Some? && model.estimator.value.fittedOn.Some?
    ensures response.status != 200 ==> exists e :: response == ExceptionResponse(e)
    ensures flights != [] && old(model.estimator).Some? ==>
      && model.estimator == old(model.estimator)
      && response == PredictResponse(model.Classify(model.estimator.value, FeatureTable(Top10, Encode(RequestRows(flights)))))
    ensures (model.estimator, response) == Outcome(model, old(model.estimator), flights, reference)
  {
    var table := FlightsToTable(flights);
    assert table.rows == RequestRows(flights);
    RequestTablePreprocess(flights);
    var prepared := model.Preprocess(table, None);
    if prepared.Err? {
      return ExceptionResponse(prepared.error);
    }
    var predictions := model.Predict(prepared.value.features, reference);
    response := PredictResponse(predictions);
  }

  /** The whole endpoint: schema validation, then `post_predict`. */
  method Handle(model: DelayModel, flights: seq<Flight>, reference: Result<Table, Exception>) returns (response: Response)
    modifies model
    ensures (exists i :: 0 <= i < |flights| && !ValidFlight(flights[i])) ==>
      response == ValidationErrorResponse && model.estimator == old(model.estimator)
    ensures response.status == 200 ==>
      (forall i :: 0 <= i < |flights| ==> ValidFlight(flights[i]))
      && response.body.Predictions? && |response.body.predict| == |flights|
    ensures (forall i :: 0 <= i < |flights| ==> ValidFlight(flights[i])) ==>
      (model.estimator, response) == Outcome(model, old(model.estimator), flights, reference)
  {
    ValidateRequestAccepts(flights);
    match ValidateRequest(flights) {
      case Err(_) =>
        response := ValidationErrorResponse;
      case Ok(accepted) =>
        response := PostPredict(model, accepted, reference);
    }
  }
}
