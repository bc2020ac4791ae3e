/**
 * Phone validation and display formatting of the lead form
 * (lib/phoneValidation.ts). Both functions look only at the ASCII digits of
 * their input.
 */
module PhoneValidation {
  import opened Wrappers
  import opened Digits

  const TooShortError := "Please enter a valid 10-digit phone number"
  const TooLongError := "Phone number is too long"

  /** `{ valid, error?, formatted? }`; an absent field is `None`. */
  datatype PhoneValidationResult = PhoneValidationResult(valid: bool, error: Option<string>, formatted: Option<string>)

  /** A display string `(xxx) xxx-xxxx`: 14 characters, digits only at the ten digit positions. */
  predicate IsDisplayShape(f: string) {
    && |f| == 14
    && f[0] == '(' && f[4] == ')' && f[5] == ' ' && f[9] == '-'
    && (forall i :: 0 <= i < 14 && i != 0 && i != 4 && i != 5 && i != 9 ==> IsDigit(f[i]))
  }

  /** The template `(${d.slice(0,3)}) ${d.slice(3,6)}-${d.slice(6,10)}`. */
  function DisplayOf(d: string): (f: string)
    requires |d| >= 10 && AllDigits(d)
    ensures IsDisplayShape(f)
    ensures StripNonDigits(f) == d[..10]
  {
    var f := "(" + d[..3] + ") " + d[3..6] + "-" + d[6..10];
    DisplayDigits(d);
    f
  }

  lemma DisplayDigits(d: string)
    requires |d| >= 10 && AllDigits(d)
    ensures StripNonDigits("(" + d[..3] + ") " + d[3..6] + "-" + d[6..10]) == d[..10]
  {
    var a, b, c := d[..3], d[3..6], d[6..10];
    StripFixedPoint(a);
    StripFixedPoint(b);
    StripFixedPoint(c);
    assert StripNonDigits("(") == [] && StripNonDigits(") ") == [] && StripNonDigits("-") == [];
    StripConcat("(", a);
    StripConcat("(" + a, ") ");
    StripConcat("(" + a + ") ", b);
    StripConcat("(" + a + ") " + b, "-");
    StripConcat("(" + a + ") " + b + "-", c);
    assert a + b + c == d[..10];
  }

  /** `validatePhone`: 10 or 11 digits are accepted and shown from the first ten. */
  function ValidatePhone(phone: string): (r: PhoneValidationResult)
    ensures |StripNonDigits(phone)| < 10 ==> r == PhoneValidationResult(false, Some(TooShortError), None)
    ensures |StripNonDigits(phone)| > 11 ==> r == PhoneValidationResult(false, Some(TooLongError), None)
    ensures r.valid <==> 10 <= |StripNonDigits(phone)| <= 11
    ensures r.valid ==> r.error == None && r.formatted.Some?
                        && IsDisplayShape(r.formatted.value)
                        && StripNonDigits(r.formatted.value) == StripNonDigits(phone)[..10]
  {
    var numbers := StripNonDigits(phone);
    if |numbers| < 10 then PhoneValidationResult(false, Some(TooShortError), None)
    else if |numbers| > 11 then PhoneValidationResult(false, Some(TooLongError), None)
    else PhoneValidationResult(true, None, Some(DisplayOf(numbers)))
  }

  /** `formatPhoneNumber`: with ten or more digits, the display string of the first ten; otherwise the input unchanged. */
  function FormatPhoneNumber(value: string): (r: string)
    ensures |StripNonDigits(value)| < 10 ==> r == value
    ensures |StripNonDigits(value)| >= 10 ==> IsDisplayShape(r) && StripNonDigits(r) == StripNonDigits(value)[..10]
  {
    var numbers := StripNonDigits(value);
    if |numbers| >= 10 then DisplayOf(numbers) else value
  }

  /** A display string is determined by its ten digits. */
  lemma DisplayShapeDetermined(f: string)
    requires IsDisplayShape(f)
    ensures |StripNonDigits(f)| == 10
    ensures DisplayOf(StripNonDigits(f)) == f
  {
    var d := f[1..4] + f[6..9] + f[10..14];
    assert f == "(" + f[1..4] + ") " + f[6..9] + "-" + f[10..14];
    assert AllDigits(d);
    DisplayDigits(d);
    assert d[..3] == f[1..4] && d[3..6] == f[6..9] && d[6..10] == f[10..14];
    assert d[..10] == d;
  }

  /** Formatting an already formatted number changes nothing. */
  lemma FormatIdempotent(value: string)
    ensures FormatPhoneNumber(FormatPhoneNumber(value)) == FormatPhoneNumber(value)
  {
    var f := FormatPhoneNumber(value);
    if |StripNonDigits(value)| >= 10 {
      DisplayShapeDetermined(f);
    }
  }

  /** A valid result's `formatted` is what `formatPhoneNumber` shows for the same input. */
  lemma ValidFormattedIsFormat(phone: string)
    ensures ValidatePhone(phone).valid ==> ValidatePhone(phone).formatted == Some(FormatPhoneNumber(phone))
  {
  }
}
