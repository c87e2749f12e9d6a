/** The form validators of src/utils/validators.ts. Each returns the error
    message to show, or None (`undefined`) when the value passes. The curried
    ones take their parameter first. */
module Validators {
  import opened Wrappers
  import opened Text
  import Helpers

  const RequiredMessage := "This field is required"
  const EmailMessage := "Please enter a valid email address"
  const PasswordLengthMessage := "Password must be at least 8 characters"
  const PasswordLowerMessage := "Password must contain at least one lowercase letter"
  const PasswordUpperMessage := "Password must contain at least one uppercase letter"
  const PasswordDigitMessage := "Password must contain at least one number"
  const MismatchMessage := "Passwords do not match"

  /** `required` on a string: an empty string is falsy, a blank one trims to nothing. */
  function Required(value: string): Option<string> {
    if value == "" || Trim(value) == "" then Some(RequiredMessage) else None
  }

  /** `required` errors exactly on empty and whitespace-only values. */
  lemma RequiredIffBlank(value: string)
    ensures Required(value).Some? <==> AllWhitespace(value)
    ensures Required(value).Some? ==> Required(value).value == RequiredMessage
  {
    TrimEmptyIffBlank(value);
  }

  /** `email`: an empty value passes (it is `required`'s business); any other
      must match the address pattern. */
  function Email(value: string): Option<string> {
    if value == "" then None
    else if !Helpers.ValidateEmail(value) then Some(EmailMessage)
    else None
  }

  /** For a non-empty value `email` passes exactly when `validateEmail` holds,
      that is, exactly when the address pattern matches. */
  lemma EmailAgreesWithValidateEmail(value: string)
    requires value != ""
    ensures Email(value).None? <==> Helpers.ValidateEmail(value)
    ensures Email(value).None? <==> Helpers.EmailRegex(value)
  {
    Helpers.ValidateEmailIsRegex(value);
  }

  /** `minLength(min)(value)`. */
  function MinLength(min: int, value: string): (r: Option<string>)
    ensures r.Some? <==> value != "" && Utf16Length(value) < min
    ensures r.Some? ==> r.value == "Must be at least " + IntToString(min) + " characters"
  {
    if value != "" && Utf16Length(value) < min then Some("Must be at least " + IntToString(min) + " characters") else None
  }

  /** `maxLength(max)(value)`. */
  function MaxLength(max: int, value: string): (r: Option<string>)
    ensures r.Some? <==> value != "" && Utf16Length(value) > max
    ensures r.Some? ==> r.value == "Must be no more than " + IntToString(max) + " characters"
  {
    if value != "" && Utf16Length(value) > max then Some("Must be no more than " + IntToString(max) + " characters") else None
  }

  /** The empty value passes both length checks whatever the bound. */
  lemma EmptyPassesLengthChecks(min: int, max: int)
    ensures MinLength(min, "").None? && MaxLength(max, "").None?
  {
  }

  predicate HasLower(s: string) {
    exists k :: 0 <= k < |s| && 'a' <= s[k] <= 'z'
  }

  predicate HasUpper(s: string) {
    exists k :: 0 <= k < |s| && 'A' <= s[k] <= 'Z'
  }

  predicate HasDigit(s: string) {
    exists k :: 0 <= k < |s| && IsDigit(s[k])
  }

  /** `password`: the message of the first failing check. */
  function Password(value: string): Option<string> {
    if value == "" then None
    else if Utf16Length(value) < 8 then Some(PasswordLengthMessage)
    else if !HasLower(value) then Some(PasswordLowerMessage)
    else if !HasUpper(value) then Some(PasswordUpperMessage)
    else if !HasDigit(value) then Some(PasswordDigitMessage)
    else None
  }

  /** A non-empty password passes exactly when it is long enough and has a
      lower-case letter, an upper-case letter and a digit. */
  lemma PasswordPassesIff(value: string)
    ensures Password(value).None? <==> value == "" || (Utf16Length(value) >= 8 && HasLower(value) && HasUpper(value) && HasDigit(value))
  {
  }

  /** Each message is reported only when every earlier check passed: length,
      then lower case, then upper case, then digit. */
  lemma PasswordCheckOrder(value: string)
    ensures Password(value) == Some(PasswordLengthMessage) <==> value != "" && Utf16Length(value) < 8
    ensures Password(value) == Some(PasswordLowerMessage) <==> Utf16Length(value) >= 8 && !HasLower(value)
    ensures Password(value) == Some(PasswordUpperMessage) <==> Utf16Length(value) >= 8 && HasLower(value) && !HasUpper(value)
    ensures Password(value) == Some(PasswordDigitMessage) <==>
              Utf16Length(value) >= 8 && HasLower(value) && HasUpper(value) && !HasDigit(value)
  {
  }

  /** `confirmPassword(password)(value)`. */
  function ConfirmPassword(password: string, value: string): (r: Option<string>)
    ensures r.Some? <==> value != password
    ensures r.Some? ==> r.value == MismatchMessage
  {
    if value != password then Some(MismatchMessage) else None
  }
}
