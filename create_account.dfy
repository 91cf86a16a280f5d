/**
 * The account-creation form: four fields, an eager "password too short" flag
 * recomputed on every password keystroke, and a submit handler that validates
 * all four fields against the schema and reports the result.
 *
 * Email syntax belongs to the validation library and is not modelled: every
 * member that needs it takes the check as a parameter `isEmail`.
 */
module CreateAccount {
  import opened Schema
  import opened Alerts

  /** The schema's `min` on the password, also used by the eager check. */
  const MinPasswordLength: nat := 6

  /** The schema's enumeration of years of experience. */
  const Experiences: seq<string> := ["0", "1", "2", "3", ">3"]

  const ValidationTitle: string := "Validation Error"
  const CreatedTitle: string := "Account created successfully"

  /** The four fields the schema parses, which are also what is logged on success. */
  datatype AccountInput = AccountInput(email: string, password: string, experience: string, remember: bool)

  /** The eager check the password box runs on every keystroke. */
  predicate PasswordTooShort(password: string)
  {
    |password| < MinPasswordLength
  }

  /**
   * The issues the creation schema reports, in the order of its keys. The
   * `remember` field is a boolean by construction, so its rule never fails.
   */
  function CreationIssues(input: AccountInput, isEmail: string -> bool): (issues: seq<Issue>)
    ensures InvalidEmail in issues <==> !isEmail(input.email)
    ensures StringTooShort(MinPasswordLength) in issues <==> |input.password| < MinPasswordLength
    ensures InvalidEnumValue(Experiences, input.experience) in issues <==> input.experience !in Experiences
    ensures forall issue :: issue in issues ==>
      issue in [InvalidEmail, StringTooShort(MinPasswordLength), InvalidEnumValue(Experiences, input.experience)]
    ensures issues == [] <==>
      isEmail(input.email) && |input.password| >= MinPasswordLength && input.experience in Experiences
    ensures |issues| ==
      (if isEmail(input.email) then 0 else 1)
      + (if |input.password| < MinPasswordLength then 1 else 0)
      + (if input.experience in Experiences then 0 else 1)
  {
    (if isEmail(input.email) then [] else [InvalidEmail])
    + (if |input.password| < MinPasswordLength then [StringTooShort(MinPasswordLength)] else [])
    + (if input.experience in Experiences then [] else [InvalidEnumValue(Experiences, input.experience)])
  }

  /** The first success popup: no icon, a loading indicator, closing after the success timer. */
  const LoadingAlert: Alert := Alert(NoIcon, None, None, false, SuccessTimer, true)

  /** The popup the first one fires as it closes. */
  const CreatedAlert: Alert := Alert(SuccessIcon, Some(CreatedTitle), None, false, SuccessTimer, false)

  /** The popups and log of a submit, given the form's four fields. */
  function CreationOutcome(input: AccountInput, isEmail: string -> bool): (o: Outcome<AccountInput>)
    ensures o.Success? <==>
      isEmail(input.email) && |input.password| >= MinPasswordLength && input.experience in Experiences
    ensures o.Error? ==> o.issues == CreationIssues(input, isEmail) && o.issues != []
    ensures o.Error? ==>
      o.alerts == [Alert(ErrorIcon, Some(ValidationTitle), Some(ErrorText(o.issues)), false, ErrorTimer, false)]
    ensures o.Success? ==> o.logged == input
    ensures o.Success? ==> o.alerts == [LoadingAlert, CreatedAlert]
  {
    var issues := CreationIssues(input, isEmail);
    if issues != [] then
      Error(issues, [Alert(ErrorIcon, Some(ValidationTitle), Some(ErrorText(issues)), false, ErrorTimer, false)])
    else
      Success(input, [LoadingAlert, CreatedAlert])
  }

  /** The state of one mounted creation form. */
  class CreateForm {
    var email: string
    var password: string
    var experience: string
    var remember: bool
    var error: bool

    /**
     * The flag reflects the password once it has been typed; before any
     * keystroke the password is empty and the flag is still unset.
     */
    ghost predicate Valid()
      reads this
    {
      error == PasswordTooShort(password) || (password == "" && !error)
    }

    /** The fields as the schema sees them. */
    function Input(): AccountInput
      reads this
    {
      AccountInput(email, password, experience, remember)
    }

    constructor ()
      ensures Valid()
      ensures email == "" && password == "" && experience == "" && !remember && !error
    {
      email := "";
      password := "";
      experience := "";
      remember := false;
      error := false;
    }

    /** A keystroke in the email box. */
    method SetEmail(value: string)
      requires Valid()
      modifies this`email
      ensures Valid()
      ensures email == value
    {
      email := value;
    }

    /** A keystroke in the password box. */
    method HandlePasswordChange(value: string)
      requires Valid()
      modifies this`password, this`error
      ensures Valid()
      ensures password == value
      ensures error == (|value| < MinPasswordLength)
      ensures email == old(email) && experience == old(experience) && remember == old(remember)
    {
      password := value;
      error := PasswordTooShort(value);
    }

    /** A choice in the experience list. */
    method SetExperience(value: string)
      requires Valid()
      modifies this`experience
      ensures Valid()
      ensures experience == value
    {
      experience := value;
    }

    /** A click on the remember-me box. */
    method SetRemember(checked: bool)
      requires Valid()
      modifies this`remember
      ensures Valid()
      ensures remember == checked
    {
      remember := checked;
    }

    /**
     * The submit button. It reads the fields and changes none of them. An
     * inline password error always means the submit fails on the password
     * rule; the converse fails in the untouched form, whose flag is unset.
     */
    method HandleSubmit(isEmail: string -> bool) returns (o: Outcome<AccountInput>)
      requires Valid()
      ensures o == CreationOutcome(Input(), isEmail)
      ensures o.Success? ==> o.logged == AccountInput(email, password, experience, remember)
      ensures error ==> o.Error? && StringTooShort(MinPasswordLength) in o.issues
    {
      o := CreationOutcome(Input(), isEmail);
    }
  }

  /** A password shorter than the minimum always fails the submit, with the password issue. */
  lemma ShortPasswordRejected(input: AccountInput, isEmail: string -> bool)
    requires |input.password| < MinPasswordLength
    ensures CreationOutcome(input, isEmail).Error?
    ensures StringTooShort(MinPasswordLength) in CreationOutcome(input, isEmail).issues
  {
  }

  /** An experience outside the enumeration always fails the submit, with the enum issue. */
  lemma UnknownExperienceRejected(input: AccountInput, isEmail: string -> bool)
    requires input.experience !in Experiences
    ensures CreationOutcome(input, isEmail).Error?
    ensures InvalidEnumValue(Experiences, input.experience) in CreationOutcome(input, isEmail).issues
  {
  }

  /**
   * The initial fields fail whatever the email check says: both the password
   * and the experience rule are reported.
   */
  lemma InitialStateRejected(isEmail: string -> bool)
    ensures CreationOutcome(AccountInput("", "", "", false), isEmail).Error?
    ensures StringTooShort(MinPasswordLength) in CreationOutcome(AccountInput("", "", "", false), isEmail).issues
    ensures InvalidEnumValue(Experiences, "") in CreationOutcome(AccountInput("", "", "", false), isEmail).issues
  {
  }

  /** The eager flag and the schema agree on when the password is too short. */
  lemma EagerAndSchemaPasswordChecksAgree(input: AccountInput, isEmail: string -> bool)
    ensures PasswordTooShort(input.password) <==>
      StringTooShort(MinPasswordLength) in CreationIssues(input, isEmail)
  {
  }

  /** Typing "123" shows the inline password error. */
  method ShortPasswordScenario() returns (shown: bool)
    ensures shown
  {
    var form := new CreateForm();
    form.HandlePasswordChange("123");
    shown := form.error;
  }

  /** Submitting the initial form fails, and nothing is logged. */
  method InitialSubmitScenario(isEmail: string -> bool) returns (o: Outcome<AccountInput>)
    ensures o.Error? && |o.alerts| == 1 && o.alerts[0].timer == ErrorTimer
  {
    var form := new CreateForm();
    o := form.HandleSubmit(isEmail);
    InitialStateRejected(isEmail);
  }

  /**
   * Filling in a valid email, "linalo", "1" and an unchecked remember box,
   * then submitting: the inline error is gone, the submit succeeds and the
   * four fields are logged.
   */
  method ValidSubmissionScenario(isEmail: string -> bool) returns (shown: bool, o: Outcome<AccountInput>)
    requires isEmail("linalouati99@gmail.com")
    ensures !shown
    ensures o == Success(AccountInput("linalouati99@gmail.com", "linalo", "1", false), [LoadingAlert, CreatedAlert])
  {
    var form := new CreateForm();
    form.SetEmail("linalouati99@gmail.com");
    form.HandlePasswordChange("linalo");
    form.SetExperience("1");
    form.SetRemember(false);
    o := form.HandleSubmit(isEmail);
    shown := form.error;
    assert "1" in Experiences;
  }
}
