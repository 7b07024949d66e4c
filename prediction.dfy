/**
 * The input validation and output clamping of `predict_weight`. The
 * trained regression model is an opaque function of the four inputs.
 */
module Prediction {
  import opened Wrappers
  import opened Schema

  /** The request fields, in the order the handler lists them. */
  const RequiredFields: seq<string> := ["current_weight", "daily_calories", "weekly_workout_minutes", "weeks_ahead"]

  /** `field not in data or data[field] == ''` */
  predicate IsMissing(data: map<string, Json>, field: string)
  {
    field !in data || data[field] == JString("")
  }

  /** `[field for field in fields if field not in data or data[field] == '']` */
  function MissingFrom(fields: seq<string>, data: map<string, Json>): (r: seq<string>)
    ensures forall f :: f in r <==> f in fields && IsMissing(data, f)
    ensures |r| <= |fields|
  {
    if |fields| == 0 then []
    else (if IsMissing(data, fields[0]) then [fields[0]] else []) + MissingFrom(fields[1..], data)
  }

  /** The comprehension keeps the order of the field list. */
  lemma {:induction false} MissingFromAppend(a: seq<string>, b: seq<string>, data: map<string, Json>)
    ensures MissingFrom(a + b, data) == MissingFrom(a, data) + MissingFrom(b, data)
  {
    if |a| == 0 {
      assert a + b == b;
    } else {
      assert (a + b)[1..] == a[1..] + b;
      MissingFromAppend(a[1..], b, data);
    }
  }

  /** The outcome of Python's `float(x)` or `int(x)`. */
  datatype Parsed<T> = Parsed(value: T) | ValueErr | TypeErr

  /** How `float()` and `int()` read a string; `None` stands for the ValueError. */
  datatype TextParsers = TextParsers(toFloat: string -> Option<real>, toInt: string -> Option<int>)

  /** `float(j)` for a decoded JSON value. */
  function PyFloat(j: Json, p: TextParsers): (r: Parsed<real>)
    ensures j.JNumber? ==> r == Parsed(j.n)
    ensures j.JBool? ==> r == Parsed(if j.b then 1.0 else 0.0)
    ensures j.JString? && p.toFloat(j.s).Some? ==> r == Parsed(p.toFloat(j.s).value)
    ensures j.JString? && p.toFloat(j.s).None? ==> r == ValueErr
    ensures (j.JNull? || j.JArray? || j.JObject?) ==> r == TypeErr
  {
    match j
    case JNumber(n) => Parsed(n)
    case JBool(b) => Parsed(if b then 1.0 else 0.0)
    case JString(s) => (match p.toFloat(s) case Some(v) => Parsed(v) case None => ValueErr)
    case JNull => TypeErr
    case JArray(_) => TypeErr
    case JObject(_) => TypeErr
  }

  /** `int(x)` of a number: truncation toward zero. */
  function Truncate(x: real): (r: int)
    ensures x >= 0.0 ==> r as real <= x < r as real + 1.0
    ensures x < 0.0 ==> r as real - 1.0 < x <= r as real
  {
    if x >= 0.0 then x.Floor else -((-x).Floor)
  }

  /** `int(j)` for a decoded JSON value. */
  function PyInt(j: Json, p: TextParsers): (r: Parsed<int>)
    ensures j.JNumber? ==> r == Parsed(Truncate(j.n))
    ensures j.JBool? ==> r == Parsed(if j.b then 1 else 0)
    ensures j.JString? && p.toInt(j.s).Some? ==> r == Parsed(p.toInt(j.s).value)
    ensures j.JString? && p.toInt(j.s).None? ==> r == ValueErr
    ensures (j.JNull? || j.JArray? || j.JObject?) ==> r == TypeErr
  {
    match j
    case JNumber(n) => Parsed(Truncate(n))
    case JBool(b) => Parsed(if b then 1 else 0)
    case JString(s) => (match p.toInt(s) case Some(v) => Parsed(v) case None => ValueErr)
    case JNull => TypeErr
    case JArray(_) => TypeErr
    case JObject(_) => TypeErr
  }

  /** The handler's error for a failed conversion: ValueError is caught as bad input, anything else as a prediction error. */
  function ParseError<T>(p: Parsed<T>): (e: Error)
    requires !p.Parsed?
    ensures p.ValueErr? ==> e == InvalidInputData
    ensures p.TypeErr? ==> e == PredictionFailed
  {
    if p.ValueErr? then InvalidInputData else PredictionFailed
  }

  datatype Inputs = Inputs(currentWeight: real, dailyCalories: real, weeklyWorkoutMinutes: real, weeksAhead: int)

  /** The four conversions, in the handler's order; the first that raises decides the error. */
  function ParseInputs(data: map<string, Json>, p: TextParsers): (r: Result<Inputs, Error>)
    requires forall f :: f in RequiredFields ==> f in data
    ensures r.Success? <==>
              PyFloat(data["current_weight"], p).Parsed? && PyFloat(data["daily_calories"], p).Parsed? &&
              PyFloat(data["weekly_workout_minutes"], p).Parsed? && PyInt(data["weeks_ahead"], p).Parsed?
    ensures r.Success? ==>
              r.value == Inputs(PyFloat(data["current_weight"], p).value, PyFloat(data["daily_calories"], p).value,
                                PyFloat(data["weekly_workout_minutes"], p).value, PyInt(data["weeks_ahead"], p).value)
    ensures !PyFloat(data["current_weight"], p).Parsed? ==> r == Failure(ParseError(PyFloat(data["current_weight"], p)))
    ensures PyFloat(data["current_weight"], p).Parsed? && !PyFloat(data["daily_calories"], p).Parsed? ==>
              r == Failure(ParseError(PyFloat(data["daily_calories"], p)))
    ensures PyFloat(data["current_weight"], p).Parsed? && PyFloat(data["daily_calories"], p).Parsed? &&
            !PyFloat(data["weekly_workout_minutes"], p).Parsed? ==>
              r == Failure(ParseError(PyFloat(data["weekly_workout_minutes"], p)))
    ensures PyFloat(data["current_weight"], p).Parsed? && PyFloat(data["daily_calories"], p).Parsed? &&
            PyFloat(data["weekly_workout_minutes"], p).Parsed? && !PyInt(data["weeks_ahead"], p).Parsed? ==>
              r == Failure(ParseError(PyInt(data["weeks_ahead"], p)))
    ensures r.Failure? ==> r.error in {InvalidInputData, PredictionFailed}
  {
    var w := PyFloat(data["current_weight"], p);
    var c := PyFloat(data["daily_calories"], p);
    var m := PyFloat(data["weekly_workout_minutes"], p);
    var k := PyInt(data["weeks_ahead"], p);
    if !w.Parsed? then Failure(ParseError(w))
    else if !c.Parsed? then Failure(ParseError(c))
    else if !m.Parsed? then Failure(ParseError(m))
    else if !k.Parsed? then Failure(ParseError(k))
    else Success(Inputs(w.value, c.value, m.value, k.value))
  }

  /** The four closed ranges the handler accepts. */
  predicate InRange(x: Inputs)
  {
    && 20.0 <= x.currentWeight <= 300.0
    && 800.0 <= x.dailyCalories <= 5000.0
    && 0.0 <= x.weeklyWorkoutMinutes <= 2000.0
    && 1 <= x.weeksAhead <= 52
  }

  /** The first range check that fails, in the order weight, calories, minutes, weeks. */
  function RangeError(x: Inputs): (r: Option<Error>)
    ensures r.None? <==> InRange(x)
    ensures !(20.0 <= x.currentWeight <= 300.0) ==> r == Some(WeightOutOfRange)
    ensures 20.0 <= x.currentWeight <= 300.0 && !(800.0 <= x.dailyCalories <= 5000.0) ==>
              r == Some(CaloriesOutOfRange)
    ensures (20.0 <= x.currentWeight <= 300.0 && 800.0 <= x.dailyCalories <= 5000.0 &&
             !(0.0 <= x.weeklyWorkoutMinutes <= 2000.0)) ==> r == Some(MinutesOutOfRange)
    ensures (20.0 <= x.currentWeight <= 300.0 && 800.0 <= x.dailyCalories <= 5000.0 &&
             0.0 <= x.weeklyWorkoutMinutes <= 2000.0 && !(1 <= x.weeksAhead <= 52)) ==> r == Some(WeeksOutOfRange)
  {
    if !(20.0 <= x.currentWeight <= 300.0) then Some(WeightOutOfRange)
    else if !(800.0 <= x.dailyCalories <= 5000.0) then Some(CaloriesOutOfRange)
    else if !(0.0 <= x.weeklyWorkoutMinutes <= 2000.0) then Some(MinutesOutOfRange)
    else if !(1 <= x.weeksAhead <= 52) then Some(WeeksOutOfRange)
    else None
  }

  /**
   * Everything the handler checks after the model's presence: a JSON
   * body, no missing field, four conversions, four ranges.
   */
  function CheckedInputs(body: Option<map<string, Json>>, p: TextParsers): (r: Result<Inputs, Error>)
    ensures body.None? ==> r == Failure(NotJson)
    ensures body.Some? && MissingFrom(RequiredFields, body.value) != [] ==>
              r == Failure(MissingFields(MissingFrom(RequiredFields, body.value)))
    ensures body.Some? && MissingFrom(RequiredFields, body.value) == [] ==>
              (forall f :: f in RequiredFields ==> f in body.value) &&
              (ParseInputs(body.value, p).Failure? ==> r == Failure(ParseInputs(body.value, p).error)) &&
              (ParseInputs(body.value, p).Success? && RangeError(ParseInputs(body.value, p).value).Some? ==>
                 r == Failure(RangeError(ParseInputs(body.value, p).value).value)) &&
              (ParseInputs(body.value, p).Success? && RangeError(ParseInputs(body.value, p).value).None? ==>
                 r == Success(ParseInputs(body.value, p).value))
    ensures r.Success? ==> InRange(r.value) && body.Some? && MissingFrom(RequiredFields, body.value) == []
  {
    match body
    case None => Failure(NotJson)
    case Some(data) =>
      var missing := MissingFrom(RequiredFields, data);
      if missing != [] then Failure(MissingFields(missing))
      else
        assert forall f :: f in RequiredFields ==> f in data by {
          forall f | f in RequiredFields ensures f in data {
            assert !IsMissing(data, f);
          }
        }
        match ParseInputs(data, p)
        case Failure(e) => Failure(e)
        case Success(x) =>
          match RangeError(x)
          case Some(e) => Failure(e)
          case None => Success(x)
  }

  /** What `prediction_model.predict` does: yield a value, or raise. */
  datatype ModelOutput = Output(value: real) | RaisedValueError | RaisedOther

  /** `max(30.0, min(300.0, x))` */
  function Clamp(x: real): (r: real)
    ensures 30.0 <= r <= 300.0
    ensures 30.0 <= x <= 300.0 ==> r == x
    ensures x < 30.0 ==> r == 30.0
    ensures x > 300.0 ==> r == 300.0
  {
    var m := if x < 300.0 then x else 300.0;
    if 30.0 < m then m else 30.0
  }

  /** The JSON body of a successful prediction. */
  datatype Prediction = Prediction(predictedWeight: real, weightChange: real)

  /** The whole `predict_weight` handler once `login_required` has let the request through. */
  function PredictWeight(model: Option<Inputs -> ModelOutput>, body: Option<map<string, Json>>,
                         p: TextParsers): (r: Result<Prediction, Error>)
    ensures model.None? ==> r == Failure(ModelUnavailable)
    ensures model.Some? && CheckedInputs(body, p).Failure? ==> r == Failure(CheckedInputs(body, p).error)
    ensures model.Some? && CheckedInputs(body, p).Success? ==>
              var x := CheckedInputs(body, p).value;
              match model.value(x)
              case Output(v) => r == Success(Prediction(Clamp(v), Clamp(v) - x.currentWeight))
              case RaisedValueError => r == Failure(InvalidInputData)
              case RaisedOther => r == Failure(PredictionFailed)
    ensures r.Success? ==> 30.0 <= r.value.predictedWeight <= 300.0
    ensures r.Success? ==>
              (model.Some? && CheckedInputs(body, p).Success? && InRange(CheckedInputs(body, p).value) &&
               r.value.weightChange == r.value.predictedWeight - CheckedInputs(body, p).value.currentWeight)
  {
    match model
    case None => Failure(ModelUnavailable)
    case Some(predict) =>
      match CheckedInputs(body, p)
      case Failure(e) => Failure(e)
      case Success(x) =>
        match predict(x)
        case Output(v) =>
          var predicted := Clamp(v);
          Success(Prediction(predicted, predicted - x.currentWeight))
        case RaisedValueError => Failure(InvalidInputData)
        case RaisedOther => Failure(PredictionFailed)
  }

  /** The model's answer passes through unchanged whenever it is already in [30, 300]. */
  lemma RawValueKeptInRange(model: Inputs -> ModelOutput, body: Option<map<string, Json>>, p: TextParsers)
    requires CheckedInputs(body, p).Success?
    requires model(CheckedInputs(body, p).value).Output?
    requires 30.0 <= model(CheckedInputs(body, p).value).value <= 300.0
    ensures PredictWeight(Some(model), body, p).Success?
    ensures PredictWeight(Some(model), body, p).value.predictedWeight == model(CheckedInputs(body, p).value).value
  {
  }

  /** Whatever the model, input the checks refuse gets the same answer: the model is not consulted. */
  lemma ModelNotConsultedOnInvalidInput(m1: Inputs -> ModelOutput, m2: Inputs -> ModelOutput,
                                        body: Option<map<string, Json>>, p: TextParsers)
    requires CheckedInputs(body, p).Failure?
    ensures PredictWeight(Some(m1), body, p) == PredictWeight(Some(m2), body, p)
  {
  }

  /**
   * An accepted prediction's weight change is measured from the request's own
   * `current_weight`, as `float()` read it.
   */
  lemma WeightChangeFromRequest(model: Option<Inputs -> ModelOutput>, data: map<string, Json>, p: TextParsers)
    requires PredictWeight(model, Some(data), p).Success?
    ensures "current_weight" in data && PyFloat(data["current_weight"], p).Parsed?
    ensures PredictWeight(model, Some(data), p).value.weightChange ==
            PredictWeight(model, Some(data), p).value.predictedWeight - PyFloat(data["current_weight"], p).value
    ensures 20.0 <= PyFloat(data["current_weight"], p).value <= 300.0
  {
    assert "current_weight" in RequiredFields;
  }

  /** `weeks_ahead` of 0 or 53 is never accepted, whatever the other fields and the model. */
  lemma WeeksBoundaryRefused(model: Option<Inputs -> ModelOutput>, data: map<string, Json>, p: TextParsers)
    requires forall f :: f in RequiredFields ==> f in data
    requires ParseInputs(data, p).Success? && ParseInputs(data, p).value.weeksAhead in {0, 53}
    ensures PredictWeight(model, Some(data), p).Failure?
  {
  }
}
