/**
 * The database models of the application (the SQLAlchemy classes `User`,
 * `UserWorkout`, `FoodItem`, `NutritionLog` and `ProgressLog`), the JSON
 * values that requests carry, the Flask session and the errors handlers report.
 */
module Schema {
  import opened Wrappers

  /** A calendar day, as a day number: only its order matters to the core. */
  type Date = int

  /** A creation timestamp (`datetime.utcnow()`), supplied by the caller. */
  type Timestamp = int

  /** A decoded JSON value as Flask's `request.json` yields it. */
  datatype Json =
    | JNull
    | JBool(b: bool)
    | JNumber(n: real)
    | JString(s: string)
    | JArray(items: seq<Json>)
    | JObject(fields: map<string, Json>)

  datatype User = User(
    id: nat,
    username: string,
    email: string,
    passwordHash: string,
    name: string,
    age: int,
    gender: string,
    height: real,          // centimetres
    currentWeight: real,   // kilograms
    fitnessGoal: string,
    createdAt: Timestamp)

  /** A row of the workout-assignment table. */
  datatype UserWorkout = UserWorkout(
    id: nat,
    userId: nat,
    templateId: int,
    customPlan: Option<Json>,
    createdAt: Timestamp,
    isActive: bool)

  datatype FoodItem = FoodItem(
    id: int,
    name: string,
    caloriesPer100g: real,
    proteinPer100g: real,
    carbsPer100g: real,
    fatPer100g: real)

  datatype NutritionLog = NutritionLog(
    id: nat,
    userId: nat,
    foodId: int,
    quantityGrams: real,
    date: Date,
    mealType: string)

  datatype ProgressLog = ProgressLog(
    id: nat,
    userId: nat,
    weight: real,
    bodyFatPercentage: Option<real>,
    notes: Option<string>,   // NULL when the request sent `null`
    date: Date)

  /**
   * An optional field of a JSON request body: left out, sent as `null`,
   * or sent with a value.
   */
  datatype Field<+T> = Absent | Null | Given(value: T)

  /** The two keys the application keeps in the Flask session. */
  datatype Session = Session(userId: Option<nat>, username: Option<string>)

  /** The session after `session.clear()`, and before any login. */
  const EmptySession := Session(None, None)

  /** Every way a modelled handler can refuse a request. */
  datatype Error =
    | Unauthenticated          // login_required: redirect to the login page
    | UsernameExists           // register: 400
    | EmailExists              // register: 400
    | InvalidFormValue         // register: int()/float() of a form field raised
    | InvalidCredentials       // login: 401
    | MissingKey(key: string)  // data['key'] raised KeyError
    | NullTemplate             // select-template: NOT NULL constraint on commit
    | ModelUnavailable         // predict-weight: 500
    | NotJson                  // predict-weight: 400
    | MissingFields(fields: seq<string>)  // predict-weight: 400
    | InvalidInputData         // predict-weight: a ValueError, 400
    | WeightOutOfRange         // predict-weight: 400
    | CaloriesOutOfRange       // predict-weight: 400
    | MinutesOutOfRange        // predict-weight: 400
    | WeeksOutOfRange          // predict-weight: 400
    | PredictionFailed         // predict-weight: any other exception, 500

  /**
   * The `login_required` decorator: a handler runs only when the session
   * holds a `user_id`, and then runs for that user.
   */
  function LoginRequired(s: Session): (r: Result<nat, Error>)
    ensures r.Success? <==> s.userId.Some?
    ensures r.Success? ==> r.value == s.userId.value
    ensures r.Failure? ==> r.error == Unauthenticated
  {
    match s.userId
    case None => Failure(Unauthenticated)
    case Some(uid) => Success(uid)
  }

  /**
   * Row `i` of a table without deletions has primary key `i + 1`;
   * `id` selects a row's primary key.
   */
  predicate SequentialIds<T>(rows: seq<T>, id: T -> nat)
  {
    forall i :: 0 <= i < |rows| ==> id(rows[i]) == i + 1
  }

  /**
   * The HTTP status a refusal is answered with. For `register` and `login`
   * these are the answers to a JSON request; a form login that fails
   * re-renders the login page instead of answering 401.
   */
  function StatusCode(e: Error): (code: int)
    ensures e == ModelUnavailable || e == PredictionFailed ==> code == 500
    ensures e in {NotJson, InvalidInputData, WeightOutOfRange, CaloriesOutOfRange, MinutesOutOfRange, WeeksOutOfRange} ==> code == 400
    ensures e.MissingFields? ==> code == 400
    ensures e == UsernameExists || e == EmailExists ==> code == 400
    ensures e == InvalidCredentials ==> code == 401
  {
    match e
    case Unauthenticated => 302
    case UsernameExists => 400
    case EmailExists => 400
    case InvalidFormValue => 500
    case InvalidCredentials => 401
    case MissingKey(_) => 500
    case NullTemplate => 500
    case ModelUnavailable => 500
    case NotJson => 400
    case MissingFields(_) => 400
    case InvalidInputData => 400
    case WeightOutOfRange => 400
    case CaloriesOutOfRange => 400
    case MinutesOutOfRange => 400
    case WeeksOutOfRange => 400
    case PredictionFailed => 500
  }
}
