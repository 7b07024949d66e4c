/**
 * The application's tables and session, and the request handlers of the
 * Flask app that read and change them. Each table is a sequence of rows
 * in insertion order; the session holds the logged-in user.
 */
module FitTrack {
  import opened Wrappers
  import opened Schema
  import Accounts
  import Workouts
  import Progress
  import Nutrition
  import Prediction

  class App {
    var users: seq<User>
    var workouts: seq<UserWorkout>
    var foods: seq<FoodItem>
    var nutritionLogs: seq<NutritionLog>
    var progressLogs: seq<ProgressLog>
    var session: Session

    /** The session names a registered user, by primary key and username. */
    ghost predicate SessionValid()
      reads this
    {
      && (session.userId.Some? ==>
            1 <= session.userId.value <= |users| &&
            session.username == Some(users[session.userId.value - 1].username))
      && (session.userId.None? ==> session.username.None?)
    }

    /** The database constraints and the invariants the handlers keep. */
    ghost predicate Valid()
      reads this
    {
      && Accounts.UserTableValid(users)
      && Nutrition.DistinctFoodIds(foods)
      && Workouts.TableValid(workouts, |users|)
      && Nutrition.TableValid(nutritionLogs, |users|)
      && Progress.TableValid(progressLogs, |users|)
      && SessionValid()
    }

    /**
     * A fresh database and no session. The food catalogue is filled outside
     * the application's handlers; the constructor takes its rows as given.
     */
    constructor (foods: seq<FoodItem>)
      requires Nutrition.DistinctFoodIds(foods)
      ensures Valid()
      ensures users == [] && workouts == [] && nutritionLogs == [] && progressLogs == []
      ensures this.foods == foods && session == EmptySession
    {
      users, workouts, nutritionLogs, progressLogs := [], [], [], [];
      this.foods := foods;
      session := EmptySession;
    }

    /**
     * `register`: refuses a taken username, then a taken email, then a
     * form whose numbers do not convert; otherwise inserts one user and
     * logs it in. `passwordHash` is what `generate_password_hash` returned.
     */
    method Register(form: Accounts.RegistrationForm, passwordHash: string, now: Timestamp)
      returns (r: Outcome<Error>)
      requires Valid()
      modifies this
      ensures Valid()
      ensures r.Fail? <==> Accounts.RegistrationError(old(users), form).Some?
      ensures r.Fail? ==> r.error == Accounts.RegistrationError(old(users), form).value && unchanged(this)
      ensures r.Pass? ==>
                && users == old(users) + [Accounts.NewUser(|old(users)| + 1, form, passwordHash, now)]
                && session == Session(Some(|old(users)| + 1), Some(form.username))
      ensures workouts == old(workouts) && foods == old(foods)
      ensures nutritionLogs == old(nutritionLogs) && progressLogs == old(progressLogs)
    {
      var refusal := Accounts.RegistrationError(users, form);
      if refusal.Some? {
        return Fail(refusal.value);
      }
      var id := |users| + 1;
      Accounts.RegistrationKeepsUnique(users, form, id, passwordHash, now);
      users := users + [Accounts.NewUser(id, form, passwordHash, now)];
      session := Session(Some(id), Some(form.username));
      r := Pass;
    }

    /**
     * `login`: logs in the user with that username when
     * `check_password_hash(user.password_hash, password)` holds;
     * otherwise reports bad credentials and leaves the session alone.
     */
    method Login(username: string, password: string, checkPassword: (string, string) -> bool)
      returns (r: Outcome<Error>)
      requires Valid()
      modifies this
      ensures Valid()
      ensures users == old(users) && workouts == old(workouts) && foods == old(foods)
      ensures nutritionLogs == old(nutritionLogs) && progressLogs == old(progressLogs)
      ensures r.Pass? <==> exists k :: 0 <= k < |users| && users[k].username == username &&
                                       checkPassword(users[k].passwordHash, password)
      ensures r.Pass? ==> session.userId.Some? && session.username == Some(username) &&
                          users[session.userId.value - 1].username == username &&
                          checkPassword(users[session.userId.value - 1].passwordHash, password)
      ensures r.Fail? ==> r.error == InvalidCredentials && session == old(session)
    {
      Accounts.AuthenticateIff(users, username, password, checkPassword);
      match Accounts.Authenticate(users, username, password, checkPassword)
      case None =>
        r := Fail(InvalidCredentials);
      case Some(i) =>
        session := Session(Some(users[i].id), Some(users[i].username));
        r := Pass;
    }

    /** `logout`: `session.clear()`. */
    method Logout()
      requires Valid()
      modifies this
      ensures Valid()
      ensures session == EmptySession
      ensures users == old(users) && workouts == old(workouts) && foods == old(foods)
      ensures nutritionLogs == old(nutritionLogs) && progressLogs == old(progressLogs)
    {
      session := EmptySession;
    }

    /**
     * `select_workout_template`: flags every active assignment of the
     * caller inactive and appends one active assignment. A missing
     * `template_id` violates the NOT NULL constraint at commit, and the
     * request's transaction is rolled back.
     */
    method SelectWorkoutTemplate(templateId: Option<int>, customPlan: Option<Json>, now: Timestamp)
      returns (r: Outcome<Error>)
      requires Valid()
      modifies this
      ensures Valid()
      ensures old(session).userId.None? ==> r == Fail(Unauthenticated) && unchanged(this)
      ensures old(session).userId.Some? && templateId.None? ==> r == Fail(NullTemplate) && unchanged(this)
      ensures r.Pass? <==> old(session).userId.Some? && templateId.Some?
      ensures r.Pass? ==>
                var uid := old(session).userId.value;
                && workouts == Workouts.SelectTemplate(old(workouts), uid, templateId.value, customPlan, now)
                && Workouts.ActiveRows(workouts, uid) == [|old(workouts)|]
      ensures users == old(users) && foods == old(foods) && session == old(session)
      ensures nutritionLogs == old(nutritionLogs) && progressLogs == old(progressLogs)
    {
      var gate := LoginRequired(session);
      if gate.Failure? {
        return Fail(gate.error);
      }
      if templateId.None? {
        return Fail(NullTemplate);
      }
      var uid := gate.value;
      Workouts.SelectKeepsInvariants(workouts, uid, templateId.value, customPlan, now, |users|);
      Workouts.SelectLeavesOneActive(workouts, uid, templateId.value, customPlan, now);
      var rows := Workouts.SelectTemplate(workouts, uid, templateId.value, customPlan, now);
      assert Workouts.TableValid(rows, |users|);
      workouts := rows;
      r := Pass;
    }

    /**
     * `log_nutrition`: appends one log for the caller dated today, with
     * meal type "other" unless one is given.
     */
    method LogNutrition(foodId: Option<int>, quantityGrams: Option<real>, mealType: Option<string>, today: Date)
      returns (r: Outcome<Error>)
      requires Valid()
      modifies this
      ensures Valid()
      ensures old(session).userId.None? ==> r == Fail(Unauthenticated) && unchanged(this)
      ensures old(session).userId.Some? && foodId.None? ==> r == Fail(MissingKey("food_id")) && unchanged(this)
      ensures old(session).userId.Some? && foodId.Some? && quantityGrams.None? ==>
                r == Fail(MissingKey("quantity_grams")) && unchanged(this)
      ensures r.Pass? <==> old(session).userId.Some? && foodId.Some? && quantityGrams.Some?
      ensures r.Pass? ==>
                nutritionLogs == old(nutritionLogs) +
                  [Nutrition.NewNutritionLog(|old(nutritionLogs)| + 1, old(session).userId.value,
                                             foodId.value, quantityGrams.value, mealType, today)]
      ensures users == old(users) && workouts == old(workouts) && foods == old(foods)
      ensures progressLogs == old(progressLogs) && session == old(session)
    {
      var gate := LoginRequired(session);
      if gate.Failure? {
        return Fail(gate.error);
      }
      if foodId.None? {
        return Fail(MissingKey("food_id"));
      }
      if quantityGrams.None? {
        return Fail(MissingKey("quantity_grams"));
      }
      var log := Nutrition.NewNutritionLog(|nutritionLogs| + 1, gate.value, foodId.value, quantityGrams.value,
                                           mealType, today);
      nutritionLogs := nutritionLogs + [log];
      r := Pass;
    }

    /**
     * `log_progress`: appends one log for the caller dated today and sets
     * the caller's `current_weight` to the logged weight.
     */
    method LogProgress(weight: Option<real>, bodyFat: Option<real>, notes: Field<string>, today: Date)
      returns (r: Outcome<Error>)
      requires Valid()
      modifies this
      ensures Valid()
      ensures old(session).userId.None? ==> r == Fail(Unauthenticated) && unchanged(this)
      ensures old(session).userId.Some? && weight.None? ==> r == Fail(MissingKey("weight")) && unchanged(this)
      ensures r.Pass? <==> old(session).userId.Some? && weight.Some?
      ensures r.Pass? ==>
                var uid := old(session).userId.value;
                && progressLogs == old(progressLogs) +
                     [Progress.NewLog(|old(progressLogs)| + 1, uid, weight.value, bodyFat, notes, today)]
                && 1 <= uid <= |old(users)|
                && users == Progress.UpdateWeight(old(users), uid, weight.value)
                && users[uid - 1].currentWeight == weight.value
      ensures workouts == old(workouts) && foods == old(foods)
      ensures nutritionLogs == old(nutritionLogs) && session == old(session)
    {
      var gate := LoginRequired(session);
      if gate.Failure? {
        return Fail(gate.error);
      }
      if weight.None? {
        return Fail(MissingKey("weight"));
      }
      var uid := gate.value;
      progressLogs := progressLogs + [Progress.NewLog(|progressLogs| + 1, uid, weight.value, bodyFat, notes, today)];
      users := Progress.UpdateWeight(users, uid, weight.value);
      r := Pass;
    }

    /** `get_progress_data`: the caller's series. */
    function ProgressData(): (r: Result<Progress.Series, Error>)
      reads this
      ensures r.Failure? <==> session.userId.None?
      ensures r.Failure? ==> r.error == Unauthenticated
      ensures r.Success? ==>
                |r.value.dates| == |r.value.weights| == |Progress.UserLogs(progressLogs, session.userId.value)|
      ensures r.Success? ==> forall i, j :: 0 <= i < j < |r.value.dates| ==> r.value.dates[i] <= r.value.dates[j]
      ensures r.Success? ==> r.value == Progress.ProgressSeries(progressLogs, session.userId.value)
    {
      match LoginRequired(session)
      case Failure(e) => Failure(e)
      case Success(uid) => Success(Progress.ProgressSeries(progressLogs, uid))
    }

    /** The rows the nutrition queries join for the caller on `today`. */
    function TodayEntries(uid: nat, today: Date): seq<Nutrition.Entry>
      reads this
    {
      Nutrition.TodayEntries(nutritionLogs, foods, uid, today)
    }

    /** `get_nutrition_summary`: the caller's four totals for `today`. */
    method NutritionSummary(today: Date) returns (r: Result<Nutrition.Totals, Error>)
      ensures r.Failure? <==> session.userId.None?
      ensures r.Failure? ==> r.error == Unauthenticated
      ensures r.Success? ==>
                var es := TodayEntries(session.userId.value, today);
                && r.value.calories == Nutrition.Total(es, Nutrition.Calories)
                && r.value.protein == Nutrition.Total(es, Nutrition.Protein)
                && r.value.carbs == Nutrition.Total(es, Nutrition.Carbs)
                && r.value.fat == Nutrition.Total(es, Nutrition.Fat)
                && r.value.calories == DashboardCalories(today).value
    {
      var gate := LoginRequired(session);
      if gate.Failure? {
        return Failure(gate.error);
      }
      var es := TodayEntries(gate.value, today);
      var totals := Nutrition.Summarize(es);
      r := Success(totals);
    }

    /** The calorie total `dashboard` shows for `today`. */
    function DashboardCalories(today: Date): (r: Result<real, Error>)
      reads this
      ensures r.Failure? <==> session.userId.None?
      ensures r.Success? ==> r.value == Nutrition.Total(TodayEntries(session.userId.value, today), Nutrition.Calories)
    {
      match LoginRequired(session)
      case Failure(e) => Failure(e)
      case Success(uid) =>
        Success(Nutrition.DashboardCalories(TodayEntries(uid, today)))
    }

    /** `predict_weight` behind `login_required`. */
    function PredictWeight(model: Option<Prediction.Inputs -> Prediction.ModelOutput>,
                           body: Option<map<string, Json>>, p: Prediction.TextParsers)
      : (r: Result<Prediction.Prediction, Error>)
      reads this
      ensures session.userId.None? ==> r == Failure(Unauthenticated)
      ensures session.userId.Some? ==> r == Prediction.PredictWeight(model, body, p)
    {
      match LoginRequired(session)
      case Failure(e) => Failure(e)
      case Success(_) => Prediction.PredictWeight(model, body, p)
    }
  }
}
