/** The sign-up form of src/components/auth/SignupForm.tsx: its fields, the
    two password checks run before anything is sent, and the call into the
    authentication provider. */
module SignupForm {
  import opened Wrappers
  import opened Text
  import opened Backend
  import opened Types
  import opened AuthContext
  import Validators

  const MismatchMessage := "Passwords do not match"
  const LengthMessage := "Password must be at least 8 characters long"
  const SignupFallback := "Signup failed. Please try again."

  /** The checks of `handleSubmit`, in their order: the confirmation first,
      then the length. */
  function CheckPasswords(password: string, confirmPassword: string): Option<string> {
    if password != confirmPassword then Some(MismatchMessage)
    else if Utf16Length(password) < 8 then Some(LengthMessage)
    else None
  }

  /** The form lets a submission through exactly when the confirmation matches
      and the password has at least 8 characters; otherwise it names the
      first failure, and a mismatch wins over a short password. */
  lemma CheckPasswordsOrder(password: string, confirmPassword: string)
    ensures CheckPasswords(password, confirmPassword).None? <==> password == confirmPassword && Utf16Length(password) >= 8
    ensures password != confirmPassword ==> CheckPasswords(password, confirmPassword) == Some(MismatchMessage)
    ensures password == confirmPassword && Utf16Length(password) < 8 ==> CheckPasswords(password, confirmPassword) == Some(LengthMessage)
  {
  }

  /** The boundary, in code units: seven are refused and eight pass, so a
      password of six characters passes once three of them are emoji. */
  lemma EightCharactersIsEnough()
    ensures CheckPasswords("abcdefg", "abcdefg") == Some(LengthMessage)
    ensures CheckPasswords("abcdefgh", "abcdefgh").None?
    ensures var p := "Ab1\U{1F600}\U{1F600}\U{1F600}"; |p| == 6 && CheckPasswords(p, p).None?
  {
    AstralCharactersCountTwice();
  }

  /** A password the form lets through also passes the shared validators
      `minLength(8)` and `confirmPassword`; the converse holds for every
      non-empty password. */
  lemma AgreesWithValidators(password: string, confirmPassword: string)
    ensures CheckPasswords(password, confirmPassword).None? ==>
              Validators.MinLength(8, password).None? && Validators.ConfirmPassword(password, confirmPassword).None?
    ensures password != "" && Validators.MinLength(8, password).None? && Validators.ConfirmPassword(password, confirmPassword).None? ==>
              CheckPasswords(password, confirmPassword).None?
  {
  }

  /** The inputs that `handleChange` writes by their `name`. */
  datatype CredentialField = FirstName | LastName | Email | Phone | Password

  function Get(c: SignupCredentials, f: CredentialField): string {
    match f
    case FirstName => c.firstName
    case LastName => c.lastName
    case Email => c.email
    case Phone => c.phone
    case Password => c.password
  }

  /** `{ ...prev, [name]: value }`. */
  function SetField(c: SignupCredentials, f: CredentialField, value: string): SignupCredentials {
    match f
    case FirstName => c.(firstName := value)
    case LastName => c.(lastName := value)
    case Email => c.(email := value)
    case Phone => c.(phone := value)
    case Password => c.(password := value)
  }

  /** Typing changes the named field to the typed value and no other field. */
  lemma SetFieldOnlyThatField(c: SignupCredentials, f: CredentialField, value: string, g: CredentialField)
    ensures Get(SetField(c, f, value), g) == if g == f then value else Get(c, g)
  {
  }

  const EmptyCredentials := SignupCredentials("", "", "", "", "")

  /** The form's component state. */
  class SignupFormState {
    var credentials: SignupCredentials
    var confirmPassword: string
    var loading: bool
    var error: string

    constructor ()
      ensures credentials == EmptyCredentials && confirmPassword == "" && !loading && error == ""
    {
      credentials, confirmPassword, loading, error := EmptyCredentials, "", false, "";
    }

    /** `handleChange` for the five credential inputs. */
    method HandleChange(f: CredentialField, value: string)
      modifies this
      ensures credentials == SetField(old(credentials), f, value)
      ensures confirmPassword == old(confirmPassword) && loading == old(loading) && error == old(error)
    {
      credentials := SetField(credentials, f, value);
    }

    /** The confirmation input has its own setter. */
    method SetConfirmPassword(value: string)
      modifies this
      ensures confirmPassword == value
      ensures credentials == old(credentials) && loading == old(loading) && error == old(error)
    {
      confirmPassword := value;
    }

    /** `handleSubmit`: clear the error, run the checks, and only when both
        pass call `signup` with the credentials (the confirmation is not part
        of them). `succeeded` is whether `onSuccess` is called. The spinner is
        off afterwards on every path. */
    method HandleSubmit(auth: AuthProvider, reply: Reply<AuthResponse>)
      returns (sent: Option<SignupCredentials>, succeeded: bool)
      modifies this, auth
      ensures credentials == old(credentials) && confirmPassword == old(confirmPassword)
      ensures !loading
      ensures CheckPasswords(credentials.password, confirmPassword).Some? ==>
                sent.None? && !succeeded && error == CheckPasswords(credentials.password, confirmPassword).value &&
                auth.State() == old(auth.State()) && auth.token == old(auth.token)
      ensures CheckPasswords(credentials.password, confirmPassword).None? ==>
                sent == Some(credentials) && succeeded == reply.Ok? &&
                error == (if reply.Ok? then "" else ErrorText(reply.message, SignupFallback))
      ensures sent.Some? && reply.Ok? ==>
                auth.token == Some(reply.value.token) && auth.State() == AuthState(Some(reply.value.user), true, false)
      ensures sent.Some? && reply.Err? ==>
                auth.token == old(auth.token) && auth.State() == old(auth.State()).(loading := false)
    {
      loading := true;
      error := "";
      var failure := CheckPasswords(credentials.password, confirmPassword);
      if failure.Some? {
        error := failure.value;
        loading := false;
        sent, succeeded := None, false;
        return;
      }
      var request, status, _ := auth.Signup(credentials, reply);
      sent := Some(request);
      if status.Failed? {
        error := ErrorText(status.message, SignupFallback);
      }
      succeeded := status.Done?;
      loading := false;
    }
  }
}
