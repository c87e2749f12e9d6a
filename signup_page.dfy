/** The stand-alone sign-up page of src/pages/SignupPage.tsx. Unlike the
    sign-up form it checks only the confirmation and the terms box before
    calling `signup`; its messages go to toasts and success navigates to
    the dashboard. */
module SignupPage {
  import opened Wrappers
  import opened Text
  import opened Backend
  import opened Types
  import opened AuthContext
  import SignupForm

  const MismatchToast := "\U{274C} Passwords do not match"
  const TermsToast := "\U{274C} Please agree to the Terms and Conditions"
  const SuccessToast := "\U{1F389} Account created successfully!"
  const SignupFallback := "Signup failed. Please try again."
  const DashboardPath := "/dashboard"

  /** `formData`. */
  datatype FormData = FormData(
    firstName: string,
    lastName: string,
    email: string,
    phone: string,
    password: string,
    confirmPassword: string,
    agreeTerms: bool)

  const EmptyForm := FormData("", "", "", "", "", "", false)

  /** The guards of `handleSubmit`, in their order: confirmation, then terms. */
  function Guard(form: FormData): Option<string> {
    if form.password != form.confirmPassword then Some(MismatchToast)
    else if !form.agreeTerms then Some(TermsToast)
    else None
  }

  /** The page refuses exactly on a mismatch or an unticked terms box, and the
      mismatch is reported first; there is no length or strength check. */
  lemma GuardOrder(form: FormData)
    ensures Guard(form).None? <==> form.password == form.confirmPassword && form.agreeTerms
    ensures form.password != form.confirmPassword ==> Guard(form) == Some(MismatchToast)
    ensures form.password == form.confirmPassword && !form.agreeTerms ==> Guard(form) == Some(TermsToast)
  {
  }

  /** `const { confirmPassword, agreeTerms, ...credentials } = formData`. */
  function Strip(form: FormData): (c: SignupCredentials)
    ensures c.firstName == form.firstName && c.lastName == form.lastName && c.email == form.email
    ensures c.phone == form.phone && c.password == form.password
  {
    SignupCredentials(form.firstName, form.lastName, form.email, form.password, form.phone)
  }

  /** The two sign-up screens disagree: any matching password with the terms
      ticked reaches `signup` from the page, while the form refuses a
      password shorter than 8 characters. */
  lemma PageAcceptsWhatFormRefuses(form: FormData)
    requires form.password == form.confirmPassword && form.agreeTerms && Utf16Length(form.password) < 8
    ensures Guard(form).None?
    ensures SignupForm.CheckPasswords(form.password, form.confirmPassword) == Some(SignupForm.LengthMessage)
  {
  }

  /** A witness of the disagreement: "abc" typed twice. */
  lemma ShortPasswordWitness()
    ensures var form := FormData("Ann", "Lee", "ann@shop.ke", "", "abc", "abc", true);
            Guard(form).None? && SignupForm.CheckPasswords(form.password, form.confirmPassword).Some?
  {
    PageAcceptsWhatFormRefuses(FormData("Ann", "Lee", "ann@shop.ke", "", "abc", "abc", true));
  }

  /** The inputs of the page, by their `name`. */
  datatype FormField = FirstName | LastName | Email | Phone | Password | ConfirmPassword | AgreeTerms

  /** What a field holds: text, or the terms box's tick. */
  datatype FieldValue = Text(text: string) | Ticked(checked: bool)

  function Get(form: FormData, f: FormField): FieldValue {
    match f
    case FirstName => Text(form.firstName)
    case LastName => Text(form.lastName)
    case Email => Text(form.email)
    case Phone => Text(form.phone)
    case Password => Text(form.password)
    case ConfirmPassword => Text(form.confirmPassword)
    case AgreeTerms => Ticked(form.agreeTerms)
  }

  /** `{ ...prev, [name]: type === 'checkbox' ? checked : value }`; the terms
      box is the page's only checkbox. */
  function SetField(form: FormData, f: FormField, value: string, checked: bool): FormData {
    match f
    case FirstName => form.(firstName := value)
    case LastName => form.(lastName := value)
    case Email => form.(email := value)
    case Phone => form.(phone := value)
    case Password => form.(password := value)
    case ConfirmPassword => form.(confirmPassword := value)
    case AgreeTerms => form.(agreeTerms := checked)
  }

  /** A change event writes the named field, with `checked` for the checkbox
      and `value` for the others, and leaves every other field alone. */
  lemma SetFieldOnlyThatField(form: FormData, f: FormField, value: string, checked: bool, g: FormField)
    ensures Get(SetField(form, f, value, checked), g) ==
            if g != f then Get(form, g) else if f == AgreeTerms then Ticked(checked) else Text(value)
  {
  }

  /** The page's state, with the toasts it raised and where it navigated. */
  class SignupPageState {
    var formData: FormData
    var loading: bool
    var toasts: seq<string>
    var navigatedTo: Option<string>

    constructor ()
      ensures formData == EmptyForm && !loading && toasts == [] && navigatedTo.None?
    {
      formData, loading, toasts, navigatedTo := EmptyForm, false, [], None;
    }

    /** `handleChange`. */
    method HandleChange(f: FormField, value: string, checked: bool)
      modifies this
      ensures formData == SetField(old(formData), f, value, checked)
      ensures loading == old(loading) && toasts == old(toasts) && navigatedTo == old(navigatedTo)
    {
      formData := SetField(formData, f, value, checked);
    }

    /** `handleSubmit`. A refused submission raises its toast and touches
        nothing else, not even `loading`; an accepted one sends the stripped
        credentials, toasts the outcome, navigates only on success, and ends
        with `loading` off. */
    method HandleSubmit(auth: AuthProvider, reply: Reply<AuthResponse>) returns (sent: Option<SignupCredentials>)
      modifies this, auth
      ensures formData == old(formData)
      ensures Guard(formData).Some? ==>
                sent.None? && toasts == old(toasts) + [Guard(formData).value] &&
                loading == old(loading) && navigatedTo == old(navigatedTo) &&
                auth.State() == old(auth.State()) && auth.token == old(auth.token)
      ensures Guard(formData).None? ==> sent == Some(Strip(formData)) && !loading
      ensures sent.Some? && reply.Ok? ==>
                toasts == old(toasts) + [SuccessToast] && navigatedTo == Some(DashboardPath) &&
                auth.token == Some(reply.value.token) && auth.State() == AuthState(Some(reply.value.user), true, false)
      ensures sent.Some? && reply.Err? ==>
                toasts == old(toasts) + ["\U{274C} " + ErrorText(reply.message, SignupFallback)] &&
                navigatedTo == old(navigatedTo) &&
                auth.token == old(auth.token) && auth.State() == old(auth.State()).(loading := false)
    {
      var refusal := Guard(formData);
      if refusal.Some? {
        toasts := toasts + [refusal.value];
        sent := None;
        return;
      }
      loading := true;
      var request, status, _ := auth.Signup(Strip(formData), reply);
      sent := Some(request);
      if status.Done? {
        toasts := toasts + [SuccessToast];
        navigatedTo := Some(DashboardPath);
      } else {
        toasts := toasts + ["\U{274C} " + ErrorText(status.message, SignupFallback)];
      }
      loading := false;
    }
  }
}
