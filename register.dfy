/** The two-step registration wizard: names and email first, then password, confirmation and terms. */
module Register {
  import opened Wrappers
  import opened Domain
  import Directory
  import Email

  datatype RegisterForm = RegisterForm(
    firstName: string,
    lastName: string,
    email: string,
    password: string,
    confirmPassword: string,
    agreeTerms: bool)

  const EmptyForm: RegisterForm := RegisterForm("", "", "", "", "", false)

  /** The placeholder picture every new account gets. */
  const DefaultAvatar: string :=
    "https://images.unsplash.com/photo-1472099645785-5658abf4ff4e?w=150&h=150&fit=crop&crop=face"

  /** An input event: text inputs deliver `value`, the terms checkbox delivers `checked`. */
  datatype RegisterInput =
    | FirstName(firstName: string)
    | LastName(lastName: string)
    | Email(email: string)
    | Password(password: string)
    | ConfirmPassword(confirmPassword: string)
    | AgreeTerms(checked: bool)

  function InputStep(input: RegisterInput): (k: int)
    ensures k == 1 || k == 2
  {
    match input
    case FirstName(_) => 1
    case LastName(_) => 1
    case Email(_) => 1
    case _ => 2
  }

  /** `handleInputChange`: the event's field takes its value; no other field changes. */
  function Apply(f: RegisterForm, input: RegisterInput): (r: RegisterForm)
    ensures input.FirstName? ==> r == f.(firstName := input.firstName)
    ensures input.LastName? ==> r == f.(lastName := input.lastName)
    ensures input.Email? ==> r == f.(email := input.email)
    ensures input.Password? ==> r == f.(password := input.password)
    ensures input.ConfirmPassword? ==> r == f.(confirmPassword := input.confirmPassword)
    ensures input.AgreeTerms? ==> r == f.(agreeTerms := input.checked)
  {
    match input
    case FirstName(v) => f.(firstName := v)
    case LastName(v) => f.(lastName := v)
    case Email(v) => f.(email := v)
    case Password(v) => f.(password := v)
    case ConfirmPassword(v) => f.(confirmPassword := v)
    case AgreeTerms(b) => f.(agreeTerms := b)
  }

  function Step1Valid(f: RegisterForm): (ok: bool)
    ensures ok ==> f != EmptyForm
  {
    f.firstName != "" && f.lastName != "" && f.email != ""
  }

  function Step2Valid(f: RegisterForm): (ok: bool)
    ensures ok ==> f.password == f.confirmPassword && f.agreeTerms
    ensures f.password != f.confirmPassword ==> !ok
  {
    f.password != "" && f.confirmPassword != "" && f.password == f.confirmPassword && f.agreeTerms
  }

  /** The "Passwords do not match" warning: shown once a confirmation is typed and differs. */
  function ShowsMismatch(f: RegisterForm): (shown: bool)
    ensures f.confirmPassword == "" || f.password == f.confirmPassword ==> !shown
  {
    f.confirmPassword != "" && f.password != f.confirmPassword
  }

  /** A visible mismatch keeps step 2 invalid; a valid step 2 never shows the warning. */
  lemma MismatchBlocksStep2(f: RegisterForm)
    ensures ShowsMismatch(f) ==> !Step2Valid(f)
    ensures Step2Valid(f) ==> !ShowsMismatch(f)
  {
  }

  /** The account built when registration completes. */
  function NewUser(f: RegisterForm, now: int): (u: User)
    ensures u.email == f.email && u.id == now
    ensures u.name == f.firstName + " " + f.lastName
    ensures |u.name| == |f.firstName| + 1 + |f.lastName| && u.name[|f.firstName|] == ' '
  {
    User(now, f.firstName + " " + f.lastName, f.email, DefaultAvatar)
  }

  class Wizard {
    var step: int
    var loading: bool
    var form: RegisterForm

    /**
     * The counter is 1 or 2, and step 2 is reached only with a valid step 1 whose email the
     * browser accepted.
     */
    ghost predicate Valid()
      reads this
    {
      (step == 1 || step == 2) && (step == 2 ==> Step1Valid(form) && Email.ValidEmail(form.email))
    }

    /** `disabled={step === 1 ? !isStep1Valid : !isStep2Valid || loading}`. */
    function SubmitDisabled(): (disabled: bool)
      reads this
      ensures !disabled && step == 1 ==> Step1Valid(form)
      ensures !disabled && step != 1 ==> Step2Valid(form) && !loading
    {
      if step == 1 then !Step1Valid(form) else !Step2Valid(form) || loading
    }

    constructor ()
      ensures Valid() && step == 1 && !loading && form == EmptyForm
    {
      step := 1;
      loading := false;
      form := EmptyForm;
    }

    /** An input exists only on its own step. */
    method Edit(input: RegisterInput)
      requires Valid() && InputStep(input) == step
      modifies this`form
      ensures Valid() && form == Apply(old(form), input)
    {
      form := Apply(form, input);
    }

    /**
     * The browser's constraint validation of the rendered controls. Every `required` control is
     * already covered by the button's condition; what remains is the `type="email"` input, which is
     * rendered on step 1 only.
     */
    predicate FormAccepts()
      reads this
    {
      step == 1 ==> Email.ValidEmail(form.email)
    }

    /**
     * `handleSubmit`: step 1 moves to step 2 and signs nobody in; step 2 starts loading and
     * schedules the account to create from the current form, which passed both steps.
     */
    method Submit() returns (pending: Option<RegisterForm>)
      requires Valid() && !SubmitDisabled() && FormAccepts()
      modifies this`step, this`loading
      ensures Valid() && form == old(form)
      ensures old(step) == 1 ==> step == 2 && loading == old(loading) && pending == None
      ensures old(step) == 2 ==> step == 2 && loading && pending == Some(form)
      ensures pending.Some? ==> Step1Valid(pending.value) && Step2Valid(pending.value) && Email.ValidEmail(pending.value.email)
    {
      if step == 1 {
        step := 2;
        pending := None;
      } else {
        loading := true;
        pending := Some(form);
      }
    }

    /** The Back button, shown on step 2 only. */
    method Back()
      requires Valid() && step == 2
      modifies this`step
      ensures Valid() && step == 1
    {
      step := 1;
    }

    /**
     * The delayed part of `handleSubmit`: the new account becomes the session user, loading ends,
     * and the page moves to the dashboard.
     */
    method Finish(pending: RegisterForm, now: int, app: Directory.App) returns (target: string)
      modifies this`loading, app`user
      ensures !loading && app.user == Some(NewUser(pending, now))
      ensures target == "/dashboard" && Directory.Route(target, true) == Directory.DashboardPage
    {
      app.SetUser(Some(NewUser(pending, now)));
      loading := false;
      target := "/dashboard";
    }
  }
}
