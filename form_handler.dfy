/**
 * The older copy of the phone functions in public/old-backup/form-handler.js.
 * Its `validatePhone` builds `formatted` by calling its own `formatPhoneNumber`
 * on the digit string rather than templating it directly.
 */
module LegacyFormHandler {
  import opened Wrappers
  import opened Digits
  import PV = PhoneValidation

  /** `formatPhoneNumber` of the legacy form handler. */
  function FormatPhoneNumber(value: string): (r: string)
    ensures |StripNonDigits(value)| < 10 ==> r == value
    ensures |StripNonDigits(value)| >= 10 ==> PV.IsDisplayShape(r) && StripNonDigits(r) == StripNonDigits(value)[..10]
  {
    var numbers := StripNonDigits(value);
    if |numbers| >= 10 then PV.DisplayOf(numbers) else value
  }

  /** `validatePhone` of the legacy form handler: `formatted` is `formatPhoneNumber(numbers)`. */
  function ValidatePhone(phone: string): (r: PV.PhoneValidationResult)
    ensures |StripNonDigits(phone)| < 10 ==> r == PV.PhoneValidationResult(false, Some(PV.TooShortError), None)
    ensures |StripNonDigits(phone)| > 11 ==> r == PV.PhoneValidationResult(false, Some(PV.TooLongError), None)
    ensures r.valid <==> 10 <= |StripNonDigits(phone)| <= 11
  {
    var numbers := StripNonDigits(phone);
    if |numbers| < 10 then PV.PhoneValidationResult(false, Some(PV.TooShortError), None)
    else if |numbers| > 11 then PV.PhoneValidationResult(false, Some(PV.TooLongError), None)
    else PV.PhoneValidationResult(true, None, Some(FormatPhoneNumber(numbers)))
  }

  /** The two `formatPhoneNumber` copies agree on every input. */
  lemma FormatAgrees(value: string)
    ensures FormatPhoneNumber(value) == PV.FormatPhoneNumber(value)
  {
  }

  /** The two `validatePhone` copies agree on every input, although the legacy one re-strips the digit string. */
  lemma ValidateAgrees(phone: string)
    ensures ValidatePhone(phone) == PV.ValidatePhone(phone)
  {
    var numbers := StripNonDigits(phone);
    StripIdempotent(phone);
    assert StripNonDigits(numbers) == numbers;
  }
}
