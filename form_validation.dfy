/**
 * The pure helpers of the client script: `FitTrackML.calculateBMI`,
 * `FitTrackML.getBMICategory` and the `FormValidation` checks, with
 * `validateForm` abstracted from DOM elements to a list of input records.
 */
module FormValidation {
  import opened Wrappers

  /**
   * `weight / ((height / 100) * (height / 100))`. A zero height makes
   * the script divide by zero; `None` stands for the non-finite result.
   */
  function CalculateBMI(weight: real, height: real): (bmi: Option<real>)
    ensures bmi.Some? <==> height != 0.0
    ensures bmi.Some? ==> bmi.value * ((height / 100.0) * (height / 100.0)) == weight
    ensures weight > 0.0 && height > 0.0 ==> bmi.Some? && bmi.value > 0.0
  {
    if height == 0.0 then None
    else
      var metres := height / 100.0;
      SquarePositive(metres);
      Some(weight / (metres * metres))
  }

  /** A non-zero real has a positive square. */
  lemma SquarePositive(x: real)
    requires x != 0.0
    ensures x * x > 0.0
  {
    var a := if x > 0.0 then x else -x;
    assert a > 0.0 && a * a == x * x;
    assert a * a > 0.0;
  }

  datatype BmiCategory = Underweight | Normal | Overweight | Obese

  /** The `category` string the script shows. */
  function CategoryName(c: BmiCategory): string
  {
    match c
    case Underweight => "Underweight"
    case Normal => "Normal"
    case Overweight => "Overweight"
    case Obese => "Obese"
  }

  /** The Bootstrap colour class paired with each category. */
  function CategoryColor(c: BmiCategory): string
  {
    match c
    case Underweight => "text-info"
    case Normal => "text-success"
    case Overweight => "text-warning"
    case Obese => "text-danger"
  }

  /** The position of a category from lightest to heaviest. */
  function Rank(c: BmiCategory): nat
  {
    match c
    case Underweight => 0
    case Normal => 1
    case Overweight => 2
    case Obese => 3
  }

  /** The if-chain of `getBMICategory`: thresholds 18.5, 25 and 30. */
  function GetBMICategory(bmi: real): (c: BmiCategory)
    ensures c == Underweight <==> bmi < 18.5
    ensures c == Normal <==> 18.5 <= bmi < 25.0
    ensures c == Overweight <==> 25.0 <= bmi < 30.0
    ensures c == Obese <==> 30.0 <= bmi
  {
    if bmi < 18.5 then Underweight
    else if bmi < 25.0 then Normal
    else if bmi < 30.0 then Overweight
    else Obese
  }

  /** The object `getBMICategory` returns. */
  datatype BmiLabel = BmiLabel(category: string, color: string)

  function GetBMILabel(bmi: real): (l: BmiLabel)
    ensures l.category == CategoryName(GetBMICategory(bmi)) && l.color == CategoryColor(GetBMICategory(bmi))
  {
    var c := GetBMICategory(bmi);
    BmiLabel(CategoryName(c), CategoryColor(c))
  }

  /** A larger BMI never yields an earlier category. */
  lemma CategoryMonotone(b1: real, b2: real)
    requires b1 <= b2
    ensures Rank(GetBMICategory(b1)) <= Rank(GetBMICategory(b2))
  {
  }

  /** Each category has its own name and its own colour, so the label determines the category. */
  lemma LabelsDistinct(c1: BmiCategory, c2: BmiCategory)
    requires c1 != c2
    ensures CategoryName(c1) != CategoryName(c2) && CategoryColor(c1) != CategoryColor(c2)
  {
  }

  /** `FormValidation.isValidPassword`: at least six characters. */
  function IsValidPassword(password: string): (ok: bool)
    ensures ok <==> |password| >= 6
  {
    |password| >= 6
  }

  /**
   * `!isNaN(num) && num >= min && num <= max` where `num = parseFloat(value)`;
   * `None` stands for NaN, which fails every comparison.
   */
  function IsValidNumber(num: Option<real>, min: Option<real>, max: Option<real>): (ok: bool)
    ensures ok <==> num.Some? && min.Some? && max.Some? && min.value <= num.value <= max.value
    ensures min.Some? && max.Some? && min.value > max.value ==> !ok
  {
    match (num, min, max)
    case (Some(n), Some(lo), Some(hi)) => n >= lo && n <= hi
    case _ => false
  }

  /** The characters `String.prototype.trim` removes: white space and line terminators. */
  predicate IsJsWhitespace(c: char)
  {
    c in {'\U{9}', '\U{A}', '\U{B}', '\U{C}', '\U{D}', '\U{20}', '\U{A0}', '\U{1680}',
          '\U{2000}', '\U{2001}', '\U{2002}', '\U{2003}', '\U{2004}', '\U{2005}', '\U{2006}', '\U{2007}',
          '\U{2008}', '\U{2009}', '\U{200A}', '\U{2028}', '\U{2029}', '\U{202F}', '\U{205F}', '\U{3000}',
          '\U{FEFF}'}
  }

  /** `!value.trim()`: the value is empty after trimming. */
  predicate IsBlank(value: string)
  {
    forall i :: 0 <= i < |value| ==> IsJsWhitespace(value[i])
  }

  /** The `type` attribute of a required input, as the checks distinguish it. */
  datatype InputType = EmailInput | PasswordInput | NumberInput | OtherInput

  /**
   * A required `input` or `select`: its value, its type, and its `min`
   * and `max` attributes after `parseFloat` (`None` for NaN).
   */
  datatype Input = Input(value: string, kind: InputType, min: Option<real>, max: Option<real>)

  /** The messages `showFieldError` attaches. */
  datatype FieldError = Required | InvalidEmail | PasswordTooShort | OutOfRange(min: Option<real>, max: Option<real>)

  /** The environment the checks rely on: the email regex and `parseFloat`. */
  datatype Checkers = Checkers(isValidEmail: string -> bool, parseFloat: string -> Option<real>)

  /** The error one input receives, the first failing check winning. */
  function CheckInput(input: Input, env: Checkers): (r: Option<FieldError>)
    ensures IsBlank(input.value) ==> r == Some(Required)
    ensures !IsBlank(input.value) && input.kind == EmailInput ==>
              (r.Some? <==> !env.isValidEmail(input.value)) && (r.Some? ==> r.value == InvalidEmail)
    ensures !IsBlank(input.value) && input.kind == PasswordInput ==>
              (r.Some? <==> !IsValidPassword(input.value)) && (r.Some? ==> r.value == PasswordTooShort)
    ensures !IsBlank(input.value) && input.kind == NumberInput ==>
              (r.Some? <==> !IsValidNumber(env.parseFloat(input.value), input.min, input.max)) &&
              (r.Some? ==> r.value == OutOfRange(input.min, input.max))
    ensures !IsBlank(input.value) && input.kind == OtherInput ==> r.None?
  {
    if IsBlank(input.value) then Some(Required)
    else if input.kind == EmailInput && !env.isValidEmail(input.value) then Some(InvalidEmail)
    else if input.kind == PasswordInput && !IsValidPassword(input.value) then Some(PasswordTooShort)
    else if input.kind == NumberInput && !IsValidNumber(env.parseFloat(input.value), input.min, input.max)
    then Some(OutOfRange(input.min, input.max))
    else None
  }

  /**
   * `validateForm`: visits every required input once, in document order,
   * records at most one error per input and clears the flag on any error.
   */
  method ValidateForm(inputs: seq<Input>, env: Checkers) returns (isValid: bool, errors: seq<Option<FieldError>>)
    ensures |errors| == |inputs|
    ensures forall i :: 0 <= i < |inputs| ==> errors[i] == CheckInput(inputs[i], env)
    ensures isValid <==> forall i :: 0 <= i < |inputs| ==> CheckInput(inputs[i], env).None?
  {
    isValid := true;
    errors := [];
    var i := 0;
    while i < |inputs|
      invariant 0 <= i <= |inputs|
      invariant |errors| == i
      invariant forall k :: 0 <= k < i ==> errors[k] == CheckInput(inputs[k], env)
      invariant isValid <==> forall k :: 0 <= k < i ==> CheckInput(inputs[k], env).None?
    {
      var e := CheckInput(inputs[i], env);
      if e.Some? {
        isValid := false;
      }
      errors := errors + [e];
      i := i + 1;
    }
  }

  /** A non-blank password input fails exactly when it is shorter than six characters. */
  lemma PasswordFieldIff(value: string, env: Checkers)
    requires !IsBlank(value)
    ensures CheckInput(Input(value, PasswordInput, None, None), env) == Some(PasswordTooShort) <==> |value| < 6
  {
  }
}
