/**
 * The account rules of `register` and `login`: the duplicate checks, the
 * user row a registration inserts, and the credential check.
 */
module Accounts {
  import opened Wrappers
  import opened Schema

  /** The `unique=True` constraint on `User.username`. */
  predicate UniqueUsernames(users: seq<User>)
  {
    forall i, j :: 0 <= i < j < |users| ==> users[i].username != users[j].username
  }

  /** The `unique=True` constraint on `User.email`. */
  predicate UniqueEmails(users: seq<User>)
  {
    forall i, j :: 0 <= i < j < |users| ==> users[i].email != users[j].email
  }

  /** The user table's constraints: sequential primary keys, unique usernames and emails. */
  predicate UserTableValid(users: seq<User>)
  {
    SequentialIds(users, (u: User) => u.id) && UniqueUsernames(users) && UniqueEmails(users)
  }

  /** `User.query.filter_by(username=name).first()`, as a row index. */
  function FindByUsername(users: seq<User>, name: string): (r: Option<nat>)
    ensures r.Some? ==> r.value < |users| && users[r.value].username == name
    ensures r.Some? ==> forall k :: 0 <= k < r.value ==> users[k].username != name
    ensures r.None? <==> forall k :: 0 <= k < |users| ==> users[k].username != name
  {
    if |users| == 0 then None
    else if users[0].username == name then Some(0)
    else
      match FindByUsername(users[1..], name)
      case None => None
      case Some(k) => Some(k + 1)
  }

  /** `User.query.filter_by(email=email).first()`, as a row index. */
  function FindByEmail(users: seq<User>, email: string): (r: Option<nat>)
    ensures r.Some? ==> r.value < |users| && users[r.value].email == email
    ensures r.Some? ==> forall k :: 0 <= k < r.value ==> users[k].email != email
    ensures r.None? <==> forall k :: 0 <= k < |users| ==> users[k].email != email
  {
    if |users| == 0 then None
    else if users[0].email == email then Some(0)
    else
      match FindByEmail(users[1..], email)
      case None => None
      case Some(k) => Some(k + 1)
  }

  /**
   * What `register` receives. The numeric fields are the results of
   * `int(data['age'])`, `float(data['height'])` and
   * `float(data['current_weight'])`: `None` stands for the ValueError.
   */
  datatype RegistrationForm = RegistrationForm(
    username: string,
    email: string,
    password: string,
    name: string,
    age: Option<int>,
    gender: string,
    height: Option<real>,
    currentWeight: Option<real>,
    fitnessGoal: string)

  /** True when every numeric field of the form converted. */
  predicate FormParses(form: RegistrationForm)
  {
    form.age.Some? && form.height.Some? && form.currentWeight.Some?
  }

  /**
   * The reason `register` refuses `form`, in the order the handler checks:
   * the username first, then the email, then the numeric conversions.
   */
  function RegistrationError(users: seq<User>, form: RegistrationForm): (r: Option<Error>)
    ensures (exists k :: 0 <= k < |users| && users[k].username == form.username) ==> r == Some(UsernameExists)
    ensures ((forall k :: 0 <= k < |users| ==> users[k].username != form.username) &&
             (exists k :: 0 <= k < |users| && users[k].email == form.email)) ==> r == Some(EmailExists)
    ensures ((forall k :: 0 <= k < |users| ==> users[k].username != form.username && users[k].email != form.email) &&
             !FormParses(form)) ==> r == Some(InvalidFormValue)
    ensures r.None? <==>
            (forall k :: 0 <= k < |users| ==> users[k].username != form.username && users[k].email != form.email) &&
            FormParses(form)
    ensures r.Some? ==> r.value in {UsernameExists, EmailExists, InvalidFormValue}
  {
    if FindByUsername(users, form.username).Some? then Some(UsernameExists)
    else if FindByEmail(users, form.email).Some? then Some(EmailExists)
    else if !FormParses(form) then Some(InvalidFormValue)
    else None
  }

  /**
   * The row `register` inserts: `passwordHash` is what
   * `generate_password_hash(form.password)` returned.
   */
  function NewUser(id: nat, form: RegistrationForm, passwordHash: string, now: Timestamp): (u: User)
    requires FormParses(form)
    ensures u.id == id && u.username == form.username && u.email == form.email
    ensures u.passwordHash == passwordHash && u.name == form.name && u.age == form.age.value
    ensures u.gender == form.gender && u.height == form.height.value
    ensures u.currentWeight == form.currentWeight.value && u.fitnessGoal == form.fitnessGoal
    ensures u.createdAt == now
  {
    User(id, form.username, form.email, passwordHash, form.name, form.age.value,
         form.gender, form.height.value, form.currentWeight.value, form.fitnessGoal, now)
  }

  /** A registration the checks let through keeps both columns unique. */
  lemma RegistrationKeepsUnique(users: seq<User>, form: RegistrationForm, id: nat, passwordHash: string, now: Timestamp)
    requires UniqueUsernames(users) && UniqueEmails(users)
    requires RegistrationError(users, form).None?
    ensures UniqueUsernames(users + [NewUser(id, form, passwordHash, now)])
    ensures UniqueEmails(users + [NewUser(id, form, passwordHash, now)])
  {
    var users' := users + [NewUser(id, form, passwordHash, now)];
    forall i, j | 0 <= i < j < |users'|
      ensures users'[i].username != users'[j].username && users'[i].email != users'[j].email
    {
      if j < |users| {
        assert users'[i] == users[i] && users'[j] == users[j];
      } else {
        assert users'[i] == users[i];
      }
    }
  }

  /**
   * `login`'s test: the first user named `username`, provided
   * `check_password_hash(user.password_hash, password)` holds for it.
   */
  function Authenticate(users: seq<User>, username: string, password: string,
                        checkPassword: (string, string) -> bool): (r: Option<nat>)
    ensures r.Some? ==> r.value < |users| && users[r.value].username == username &&
                        checkPassword(users[r.value].passwordHash, password)
    ensures (forall k :: 0 <= k < |users| ==> users[k].username != username) ==> r.None?
  {
    match FindByUsername(users, username)
    case None => None
    case Some(i) => if checkPassword(users[i].passwordHash, password) then Some(i) else None
  }

  /** Under unique usernames, login succeeds exactly for the owner of the name whose password checks. */
  lemma AuthenticateIff(users: seq<User>, username: string, password: string,
                        checkPassword: (string, string) -> bool)
    requires UniqueUsernames(users)
    ensures Authenticate(users, username, password, checkPassword).Some? <==>
            exists k :: 0 <= k < |users| && users[k].username == username &&
                        checkPassword(users[k].passwordHash, password)
  {
    var r := FindByUsername(users, username);
    if r.Some? {
      forall k | 0 <= k < |users| && users[k].username == username ensures k == r.value {
        assert users[r.value].username == users[k].username;
      }
    }
  }
}
