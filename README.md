# FitTrack-ML core, modelled in Dafny

FitTrack-ML is a Flask fitness tracker. It has user accounts, workout-template
assignment, nutrition and progress logging, and a weight-prediction endpoint
backed by a pre-trained regression model. This project models the rules of its
request handlers (`app.py`) and the pure helpers of its client script
(`static/js/app.js`). The handlers work over an in-memory copy of the database
tables and the Flask session. The project proves what those rules promise.

Files and modules:

- `wrappers.dfy` (`Wrappers`): `Option`, `Result`, `Outcome`.
- `schema.dfy` (`Schema`): the database rows, decoded JSON values, the
  session, the handlers' errors, and `login_required`.
- `accounts.dfy` (`Accounts`): the duplicate checks of `register`, the row it
  inserts, and the credential check of `login`.
- `workouts.dfy` (`Workouts`): the assignment table and the update done by
  `select_workout_template`.
- `progress.dfy` (`Progress`): progress logs, the date-ordered query and the
  series returned by `get_progress_data`.
- `nutrition.dfy` (`Nutrition`): the join of today's logs with their foods,
  the summary loop, and the dashboard's calorie sum.
- `prediction.dfy` (`Prediction`): the ordered checks of `predict_weight` and
  the clamping of the model's output.
- `app.dfy` (`FitTrack`): class `App`. Its fields are the tables (`users`,
  `workouts`, `foods`, `nutritionLogs`, `progressLogs`) and the `session`.
  Its methods are the handlers. `Valid()` holds the database constraints and
  the invariants the handlers keep:
  - primary keys are sequential (there are no deletions);
  - usernames and emails are unique;
  - food ids are distinct;
  - every row belongs to a registered user;
  - no user has two active workout assignments;
  - the session names a registered user.
- `form_validation.dfy` (`FormValidation`): `calculateBMI`,
  `getBMICategory`, `isValidPassword`, `isValidNumber`, and `validateForm`
  over records in place of DOM elements.

The parts of the system outside these two files become parameters:

- password hashing: the hash `register` stores, and the check function
  `login` uses;
- the trained model: a function from the four inputs to a value or an
  exception;
- `float()`/`int()` on text, `parseFloat`, and the email regex: functions;
- the clock: `today` and `now` arguments.

Points of behaviour the model keeps as the code has them:

- No handler checks that progress weights or nutrition quantities are
  positive. The model accepts any real.
- In `predict_weight`, a `TypeError` from `float(None)`, or from a list or an
  object, falls through to the generic `except` and is answered with 500
  "Prediction error". Only a `ValueError` gives 400.
- A `ValueError` raised inside the model's `predict` is also answered with
  400 "Invalid input data", because the `except ValueError` covers the whole
  `try` block.
- Registration refuses a taken username before it looks at the email.
- A failed `int()`/`float()` of a registration field is not caught. The
  request fails (500) and nothing is inserted.

## Model

| member | source | states |
|---|---|---|
| FitTrack.App.constructor | app.py:413-415 | a fresh database has no users, assignments or logs and no session; the food rows, which no modelled code inserts, are taken as given with distinct ids; every invariant holds |
| Schema.LoginRequired | app.py:87-94 | a handler runs, for the session's user, exactly when the session holds `user_id`; otherwise the answer is Unauthenticated |
| Accounts.FindByUsername | app.py:144 | finds the first user row with that username, and finds nothing exactly when no row has it |
| Accounts.FindByEmail | app.py:111 | finds the first user row with that email, and finds nothing exactly when no row has it |
| Accounts.RegistrationError | app.py:109-125 | a taken username is refused as UsernameExists whatever the email; otherwise a taken email as EmailExists; otherwise an unconvertible number as InvalidFormValue; there is no refusal exactly when username and email are both free and the numbers convert |
| Accounts.NewUser | app.py:115-125 | the inserted row carries the submitted username, email, name, gender and fitness goal, the stored hash, the converted age, height and weight, the creation time, and the new id |
| Accounts.RegistrationKeepsUnique | app.py:19-20 | a registration the checks accept keeps usernames and emails unique |
| Accounts.Authenticate | app.py:144-146 | a login picks a row with that username whose password check passes; no such username means no login |
| Accounts.AuthenticateIff | app.py:144-146 | with unique usernames, login succeeds exactly when some user has that username and passes the password check |
| FitTrack.App.Register | app.py:103-136 | refusals insert nothing and leave the session alone; success appends exactly one user with id count+1 and sets `user_id` and `username` in the session to it; the invariants are kept |
| FitTrack.App.Login | app.py:140-159 | the session is set exactly when a user with that username passes the password check, and then names that user; on failure the error is InvalidCredentials and the session is unchanged; no table changes |
| FitTrack.App.Logout | app.py:163-166 | the session is cleared and no table changes |
| Workouts.ActiveRows | app.py:232 | lists, in increasing order, exactly the indices of the user's active rows |
| Workouts.Deactivate | app.py:232 | length and row order are kept; afterwards the user has no active row; other users' rows are unchanged; no field other than `is_active` changes |
| Workouts.SelectTemplate | app.py:231-243 | the table grows by one; the new last row is active, owned by the caller and carries the template id; every earlier row of the caller is inactive and keeps every other field; inactive rows and other users' rows are unchanged |
| Workouts.SelectLeavesOneActive | app.py:231-243 | after the update the caller has exactly one active row, the appended one |
| Workouts.SelectKeepsInvariants | app.py:231-243 | the update keeps "at most one active row per user", sequential ids and row ownership |
| Workouts.AtMostOnePreviouslyActive | app.py:232 | under the invariant the caller has at most one active row before the update, so at most one row is deactivated |
| Workouts.ChangedRowsAreActiveRows | app.py:232 | the rows the update changes are exactly the caller's active rows |
| FitTrack.App.SelectWorkoutTemplate | app.py:225-245 | without a session, or with a null `template_id` (rolled back at commit), nothing changes; otherwise the table becomes the update above and the caller's only active row is the new one; no other table changes |
| Nutrition.NewNutritionLog | app.py:252-257 | the new log carries the caller, food, quantity and today's date; the meal type is the given one, or "other" when none is given |
| FitTrack.App.LogNutrition | app.py:247-262 | without a session, `food_id` or `quantity_grams` nothing changes; otherwise exactly one log is appended and no other table changes |
| Progress.NewLog | app.py:269-274 | the new log carries the caller, the given weight and body fat, today's date, and the notes: "" when the field is left out, NULL when it is sent as `null`, the text otherwise |
| Progress.UpdateWeight | app.py:279-280 | only the caller's row changes, and only its current weight, which becomes the logged weight |
| FitTrack.App.LogProgress | app.py:264-284 | without a session or a weight nothing changes; otherwise exactly one log with that weight is appended and the caller's `current_weight` becomes that weight; no other user and no earlier log changes |
| Progress.UserLogs | app.py:289 | holds exactly the logs of that user |
| Progress.NewLogOnlyInOwnSeries | app.py:269-289 | an appended log joins the end of its owner's logs and no other user's |
| Progress.InsertByDate | app.py:289 | insertion adds exactly one element and keeps every element |
| Progress.InsertKeepsSorted | app.py:289 | inserting into a date-sorted sequence keeps it date-sorted |
| Progress.SortByDate | app.py:289 | the result is sorted by ascending date and is a permutation of the input |
| Progress.OrderedLogs | app.py:289 | the query result is ascending by date and is a permutation of the user's logs |
| Progress.BodyFatValues | app.py:294 | the filter is never longer than its input and keeps no zero |
| Progress.BodyFatValuesAppend | app.py:294 | the filter keeps order: filtering a concatenation concatenates the filtered parts |
| Progress.BodyFatValuesSingle | app.py:294 | a single log contributes its body fat exactly when it is present and non-zero |
| Progress.ProgressSeries | app.py:289-295 | `dates` and `weights` are as long as the user's logs, are ascending by date and come pairwise from the same log; `body_fat` is the order-preserving filter of truthy values and is no longer |
| FitTrack.App.ProgressData | app.py:286-297 | refused exactly when the session holds no user; otherwise the series of the caller's logs: date-ascending dates and weights of the same length, and the filtered body fat |
| Prediction.MissingFrom | app.py:318 | lists exactly the required fields that are absent or the empty string |
| Prediction.MissingFromAppend | app.py:318 | the missing-field list keeps the order of the required-field list |
| Prediction.PyFloat | app.py:326-328 | a JSON number converts to itself and a boolean to 1 or 0; a string converts as the text parser reads it, and text it rejects raises a ValueError; null, arrays and objects raise a TypeError |
| Prediction.Truncate | app.py:329 | `int()` of a number truncates toward zero |
| Prediction.PyInt | app.py:329 | a JSON number converts by truncation and a boolean to 1 or 0; a string converts as the text parser reads it, and text it rejects raises a ValueError; null, arrays and objects raise a TypeError |
| Prediction.ParseError | app.py:374-384 | a ValueError is reported as invalid input data (400), any other exception as a prediction error (500) |
| Prediction.ParseInputs | app.py:324-329 | succeeds exactly when all four conversions succeed, with the converted values; otherwise the first conversion that raises, in the order weight, calories, minutes, weeks, decides between 400 and 500 |
| Prediction.RangeError | app.py:333-341 | no error exactly when all four values lie in their closed ranges; otherwise the first failing check, in the order weight, calories, minutes, weeks, decides the error |
| Prediction.CheckedInputs | app.py:308-341 | non-JSON is refused first, then the missing-field list, then a conversion error, then a range error; input that passes every check is accepted with its converted values, which lie in range |
| Prediction.Clamp | app.py:362 | the result lies in [30, 300] and equals the input whenever the input does |
| Prediction.PredictWeight | app.py:304-384 | a missing model is reported first; invalid input is refused without consulting the model; an accepted prediction lies in [30, 300] and its weight change is the prediction minus the current weight |
| Prediction.RawValueKeptInRange | app.py:361-363 | a model value already in [30, 300] is returned unchanged |
| Prediction.ModelNotConsultedOnInvalidInput | app.py:304-356 | for refused input any two models give the same answer |
| Prediction.WeightChangeFromRequest | app.py:326-364 | an accepted prediction's weight change is the prediction minus the request's own `current_weight`, which lies in [20, 300] |
| Prediction.WeeksBoundaryRefused | app.py:340-341 | `weeks_ahead` of 0 or 53 never yields a prediction |
| Schema.StatusCode | app.py:304-341 | a missing model and a prediction error answer 500; non-JSON, missing fields, bad input and range errors answer 400; a taken username or email answers 400 and bad JSON credentials 401 |
| FitTrack.App.PredictWeight | app.py:299-301 | without a session the request is refused; otherwise the handler's answer |
| Nutrition.FoodById | app.py:389 | finds a food with that id, and nothing exactly when none has it |
| Nutrition.FoodByIdUnique | app.py:389 | with distinct food ids, the food found for an id is the one row carrying it |
| Nutrition.TodayEntries | app.py:389-392 | every joined row is a log of the caller dated today with its own food, and every such log with an existing food is joined |
| Nutrition.TodayEntriesAppend | app.py:389-392 | the join of a concatenated log table is the concatenation of the joins: every log is joined on its own, in table order |
| Nutrition.TodayEntriesSingle | app.py:389-392 | a single log is joined exactly once when it is the caller's, dated today and its food exists, and otherwise not at all |
| Nutrition.TotalAppend | app.py:399-404 | a total over concatenated rows is the sum of the totals |
| Nutrition.TotalNonNegative | app.py:399-404 | with non-negative nutrient values and quantities, a total is non-negative |
| Nutrition.Summarize | app.py:394-404 | each of the four totals equals the sum over the rows of `per_100g * quantity / 100`; no rows give all zeros |
| Nutrition.CalorieSumIsTotal | app.py:182-185 | summing the dashboard's per-row calorie terms gives the summary's calorie total over the same rows |
| Nutrition.DashboardCalories | app.py:182-185 | the dashboard's calorie sum equals the summary's calorie total over the same rows, and is 0 with no rows |
| Nutrition.SummaryExample | app.py:399-404 | 100 g at 50 kcal per 100 g and 200 g at 30 kcal per 100 g total 110 kcal |
| FitTrack.App.NutritionSummary | app.py:386-411 | refused exactly when the session holds no user; otherwise the four totals over the caller's rows for today, the calorie total being the dashboard's |
| FitTrack.App.DashboardCalories | app.py:168-185 | refused exactly when the session holds no user; otherwise the calorie total over the caller's rows for today |
| FormValidation.CalculateBMI | static/js/app.js:83-86 | defined exactly for a non-zero height; BMI times the squared height in metres is the weight; positive for positive weight and height |
| FormValidation.GetBMICategory | static/js/app.js:89-94 | Underweight below 18.5, Normal in [18.5, 25), Overweight in [25, 30), Obese from 30 on |
| FormValidation.GetBMILabel | static/js/app.js:89-94 | the returned object pairs the category's name with its fixed colour |
| FormValidation.CategoryMonotone | static/js/app.js:89-94 | a larger BMI never yields an earlier category |
| FormValidation.LabelsDistinct | static/js/app.js:90-93 | different categories have different names and different colours |
| FormValidation.IsValidPassword | static/js/app.js:212-214 | a password is valid exactly when it has at least six characters |
| FormValidation.IsValidNumber | static/js/app.js:217-220 | true exactly when value, min and max are numbers and min <= value <= max, so always false when min > max |
| FormValidation.CheckInput | static/js/app.js:251-267 | a blank value is "required"; otherwise an email input fails exactly on a bad address, a password input exactly when shorter than 6, a number input exactly when out of range; other inputs pass |
| FormValidation.PasswordFieldIff | static/js/app.js:257-259 | a non-blank password input fails exactly when it is shorter than six characters |
| FormValidation.ValidateForm | static/js/app.js:244-270 | every input gets exactly its own check's result, at most one error each; the form is valid exactly when every input passes |

## Left out

- Flask routing, redirects, `render_template`, `flash`, and the JSON and HTTP
  plumbing. Results are `Result`/`Outcome` values. HTTP status codes are
  stated only for the prediction endpoint. `StatusCode` also maps the other
  errors, giving the answer to a JSON request. A failed form login
  re-renders the page with a flashed message instead of answering 401. `flash` also adds a `_flashes`
  entry to the session after a failed form login; the model's session holds
  only `user_id` and `username`.
- SQLAlchemy and SQLite persistence, transactions and commit. Tables are
  sequences, and each handler is one atomic step. Concurrent requests are not
  modelled.
- `generate_password_hash` and `check_password_hash`: the stored hash is an
  argument, and the check is a function argument.
- `pickle` loading of the model and `prediction_model.predict`: an opaque
  function returning a value or raising.
- The pandas DataFrame construction, and all `print` and traceback output.
- `round(..., 1)` and `round(..., 2)`, and IEEE floats (NaN, infinities,
  overflow). Numbers are `real`. In the client script, `None` stands for NaN,
  and for the non-finite BMI of a zero height.
- `float()`/`int()` of text, `parseFloat`, and the email regex: function
  arguments.
- `date.today()` and `datetime.utcnow()`: arguments. Dates are day numbers.
  `strftime('%Y-%m-%d')` formatting of the series dates is not modelled.
- `ProgressSeries`: SQLite does not fix the order of logs with equal dates.
  The model picks one order for them, and no contract says which.
- Missing keys in the registration form and login form (a KeyError or
  BadRequestKeyError) are not modelled: every field is present.
- A JSON body that is not an object, or that is malformed, is not modelled
  for the API handlers.
- `select_workout_template`: only a null or absent `template_id` is modelled
  as an error. The id is not checked against the template table, as SQLite
  does not enforce foreign keys by default. The `WorkoutTemplate` table is
  read only by the planner page and is not modelled.
- Food rows with NULL carbohydrate or fat values would make the summary
  raise. Food values are always reals here.
- `log_progress` and `log_nutrition`: JSON values of the wrong type are not
  modelled. A `null` weight, which the NOT NULL column refuses at commit, is
  one example; text where a number is expected is another. Numeric fields
  are reals or absent. Only `notes` distinguishes an explicit `null`.
- Filling the `FoodItem` table: no modelled code inserts food rows. The
  constructor takes them as given, with distinct ids.
- Pages that only query and render (`index`, `workout_planner`,
  `nutrition_tracker`, `progress_tracker`, `prediction_tool`), and the
  dashboard's five most recent progress logs.
- `load_prediction_model`, the startup `db.create_all()`, and `test_model.py`
  (an exploratory script that only prints).
- In `static/js/app.js`: toasts, spinners, `animateCounter`, local storage,
  `fetch` helpers, chart helpers, `formatNumber`, the page initialisation, and
  the DOM side effects of `showFieldError`/`clearFieldError`. The model
  records the one error each input ends with.
- FormValidation.IsValidPassword: JavaScript's `length` counts UTF-16 code
  units. Here it counts characters, which differs for characters outside the
  Basic Multilingual Plane.
