/**
 * The settings steps of the scheduling wizard: the validators a setting
 * field is checked with, and `validate` / `onChange`, which record the
 * outcome in the form's validation and error maps.
 *
 * A validator returns an error state: 0 when the value is acceptable,
 * otherwise the 1-based position of the message to show.
 */
module ScheduleSettings {
  import opened JsValues

  datatype Validator = IntegerValidator | DecimalValidator | BooleanValidator

  /** The messages of `_validations.Errors` the validators refer to. */
  datatype ErrorTexts = ErrorTexts(numeric: string, minimumNumeric: string, minimumDecimal: string)

  const BooleanMessage: string := "Kindly indicate Value"

  /** `integerValidator`: not `^\d+$` gives 1; `!Number(value) > 0`, which
      compares the negation with 0 and so holds exactly when the number is
      0 or NaN, gives 2. */
  function IntegerCode(value: Value): (code: nat)
    ensures code <= 2
    ensures code == 0 <==> IsIntegerText(ToString(value)) && NumberTruthy(value)
  {
    if !IsIntegerText(ToString(value)) then 1
    else if !NumberTruthy(value) then 2
    else 0
  }

  /** `decimalValidator`: as `integerValidator`, for `^\d+\.?\d*$`. */
  function DecimalCode(value: Value): (code: nat)
    ensures code <= 2
    ensures code == 0 <==> IsDecimalText(ToString(value)) && NumberTruthy(value)
  {
    if !IsDecimalText(ToString(value)) then 1
    else if !NumberTruthy(value) then 2
    else 0
  }

  /** `booleanValidator`: `!value && value !== true`. */
  function BooleanCode(value: Value): (code: nat)
    ensures code == 1 <==> !Truthy(value)
    ensures code == 0 <==> Truthy(value)
  {
    if !Truthy(value) && value != Bool(true) then 1 else 0
  }

  function ErrorState(v: Validator, value: Value): (code: nat)
    ensures code <= 2
    ensures v == BooleanValidator ==> code <= 1
  {
    match v
    case IntegerValidator => IntegerCode(value)
    case DecimalValidator => DecimalCode(value)
    case BooleanValidator => BooleanCode(value)
  }

  /** The `errors` list each validator comes with. */
  function Errors(v: Validator, texts: ErrorTexts): (errors: seq<string>)
    ensures 0 < |errors| <= 2
  {
    match v
    case IntegerValidator => [texts.numeric, texts.minimumNumeric]
    case DecimalValidator => [texts.numeric, texts.minimumDecimal]
    case BooleanValidator => [BooleanMessage]
  }

  /** Every error state a validator returns names one of its messages. */
  lemma ErrorStateInRange(v: Validator, value: Value, texts: ErrorTexts)
    ensures ErrorState(v, value) <= |Errors(v, texts)|
  {
  }

  // ---------------------------------------------------------------------
  // What the validators accept, stated on the text of the value

  lemma {:induction false} DotIndexOfDigits(s: string)
    requires AllDigits(s)
    ensures DotIndex(s) == |s|
  {
    if s != [] {
      assert IsDigit(s[0]);
      DotIndexOfDigits(s[1..]);
    }
  }

  /** Digits write zero exactly when all of them are '0'. */
  lemma {:induction false} DigitsValueZero(s: string)
    requires AllDigits(s)
    ensures DigitsValue(s) == 0 <==> AllZeros(s)
  {
    if s != [] {
      var init := s[..|s| - 1];
      DigitsValueZero(init);
      if AllZeros(s) {
        assert AllZeros(init);
      } else if AllZeros(init) {
        assert s[|s| - 1] != '0';
      }
    }
  }

  /** An integer text converts to the number its digits write. */
  lemma IntegerTextNumber(s: string)
    requires IsIntegerText(s)
    ensures ToNumber(Str(s)) == Some(DigitsValue(s) as real)
  {
    DotIndexOfDigits(s);
    assert s[..|s|] == s;
  }

  /** On a text, `integerValidator` rejects anything but digits with 1, and
      digits that are all zeros (such as "000") with 2. */
  lemma IntegerCodeOfText(s: string)
    ensures IntegerCode(Str(s)) == if !IsIntegerText(s) then 1 else if AllZeros(s) then 2 else 0
  {
    if IsIntegerText(s) {
      IntegerTextNumber(s);
      DigitsValueZero(s);
    }
  }

  /** On a number, `integerValidator` accepts exactly the positive ones
      below 10^21; 0 gives 2, and a negative number (written with a '-') or
      one from 10^21 up (written in exponent form) gives 1. */
  lemma IntegerCodeOfNumber(n: int)
    ensures IntegerCode(Num(n)) == if n < 0 || n >= ExponentThreshold then 1 else if n == 0 then 2 else 0
  {
    var text := ToString(Num(n));
    if n < 0 {
      assert text[0] == '-';
      assert !IsDigit(text[0]);
    } else if n >= ExponentThreshold {
      var i :| 0 < i < |text| && text[i] == 'e';
      assert !IsDigit(text[i]);
    }
  }

  /** Every digit of the text, on either side of its '.', is '0'. */
  predicate ZeroDigits(s: string)
  {
    var i := DotIndex(s);
    AllZeros(s[..i]) && (i == |s| || AllZeros(s[i + 1..]))
  }

  /** A decimal text is zero exactly when all its digits are '0'. */
  lemma DecimalValueZero(s: string)
    requires IsDecimalText(s)
    ensures DecimalValue(s) == 0.0 <==> ZeroDigits(s)
  {
    var i := DotIndex(s);
    DigitsValueZero(s[..i]);
    if i < |s| {
      DigitsValueZero(s[i + 1..]);
      var frac := (DigitsValue(s[i + 1..]) as real) / (Pow10(|s| - i - 1) as real);
      assert frac >= 0.0;
      assert frac == 0.0 <==> DigitsValue(s[i + 1..]) == 0;
    }
  }

  /** On a text, `decimalValidator` rejects anything but digits, an optional
      '.' and optional digits with 1 (so "12." passes and ".5" does not), and
      a text whose digits are all '0' (such as "0.00") with 2. */
  lemma DecimalCodeOfText(s: string)
    ensures DecimalCode(Str(s)) == if !IsDecimalText(s) then 1
      else if ZeroDigits(s) then 2 else 0
  {
    if IsDecimalText(s) {
      DecimalValueZero(s);
    }
  }

  /** A trailing '.' is accepted. */
  lemma DecimalTrailingDot()
    ensures DecimalCode(Str("12.")) == 0
  {
    DecimalCodeOfText("12.");
    assert DotIndex("12.") == 2;
    assert "12."[..2][1] != '0';
  }

  /** A leading '.' is not: the pattern needs a digit first. */
  lemma DecimalLeadingDot()
    ensures DecimalCode(Str(".5")) == 1
  {
    DecimalCodeOfText(".5");
    assert DotIndex(".5") == 0;
  }

  /** Zeros on both sides of the '.' are a decimal, but not a positive one. */
  lemma DecimalZeros()
    ensures DecimalCode(Str("0.00")) == 2
  {
    DecimalCodeOfText("0.00");
    assert DotIndex("0.00") == 1;
  }

  /** Leading zeros alone are an integer text, but not a positive one. */
  lemma IntegerZeros()
    ensures IntegerCode(Str("000")) == 2
  {
    IntegerCodeOfText("000");
  }

  /** The integer pattern has no '.'. */
  lemma IntegerRejectsDot()
    ensures IntegerCode(Str("1.5")) == 1
  {
    IntegerCodeOfText("1.5");
    assert !IsDigit("1.5"[1]);
  }

  // ---------------------------------------------------------------------
  // The setting component

  class AbstractSetting {
    /** `validators`: the validator of each property the setting edits. */
    const validators: map<string, Validator>
    /** `_validations.Errors`. */
    const texts: ErrorTexts
    /** The schedule store's fields, as the form edits them. */
    var scheduleStore: map<string, Value>
    /** The map `getValidations` returns: whether each property is valid. */
    var validations: map<string, bool>
    /** `_validationsErrors`: the message shown under each property. */
    var validationsErrors: map<string, string>

    constructor(validators: map<string, Validator>, texts: ErrorTexts, scheduleStore: map<string, Value>)
      ensures this.validators == validators && this.texts == texts && this.scheduleStore == scheduleStore
      ensures validations == map[] && validationsErrors == map[]
    {
      this.validators := validators;
      this.texts := texts;
      this.scheduleStore := scheduleStore;
      validations := map[];
      validationsErrors := map[];
    }

    /** The store's value of a property; a missing one is undefined. */
    function StoreValue(property: string): Value
      reads this
    {
      if property in scheduleStore then scheduleStore[property] else Undefined
    }

    /** `validate(property)()`: runs the property's validator on its value;
        error state 0 marks it valid with no message, any other marks it
        invalid with the message at that position. Returns the mark. */
    method Validate(property: string) returns (valid: bool)
      requires property in validators
      modifies this`validations, this`validationsErrors
      ensures var code := ErrorState(validators[property], StoreValue(property));
        && valid == (code == 0)
        && validations == old(validations)[property := valid]
        && validationsErrors
           == old(validationsErrors)[property := if valid then "" else Errors(validators[property], texts)[code - 1]]
    {
      var validator := validators[property];
      var value := StoreValue(property);
      var errorState := ErrorState(validator, value);
      ErrorStateInRange(validator, value, texts);
      if errorState == 0 {
        validations := validations[property := true];
        validationsErrors := validationsErrors[property := ""];
      } else {
        validations := validations[property := false];
        validationsErrors := validationsErrors[property := Errors(validator, texts)[errorState - 1]];
      }
      valid := validations[property];
    }

    /** `onChange(name)(event)`: stores the edited value, then validates it. */
    method OnChange(name: string, value: Value)
      requires name in validators
      modifies this`scheduleStore, this`validations, this`validationsErrors
      ensures scheduleStore == old(scheduleStore)[name := value]
      ensures var code := ErrorState(validators[name], value);
        && validations == old(validations)[name := code == 0]
        && validationsErrors
           == old(validationsErrors)[name := if code == 0 then "" else Errors(validators[name], texts)[code - 1]]
    {
      scheduleStore := scheduleStore[name := value];
      var _ := Validate(name);
    }
  }
}
