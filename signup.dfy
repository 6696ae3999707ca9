/** The three-step signup wizard: personal details, business details, and
    terms. Each step's fields are validated before the wizard moves on, and
    the last step's submit creates the new owner account. */
module Signup {
  import opened Records
  import opened JsText

  datatype Field =
    | FirstName | LastName | Email | Phone | Password | ConfirmPassword
    | BusinessName | BusinessType | Address | City | State | ZipCode | Country
    | AgreeToTerms | SubscribeNewsletter

  /** A value handed to handleInputChange: the text of an input or Select, or
      the state of a check box. */
  datatype Value = Text(text: string) | Flag(flag: bool)

  datatype SignupForm = SignupForm(
    firstName: string, lastName: string, email: string, phone: string,
    password: string, confirmPassword: string,
    businessName: string, businessType: string, address: string, city: string,
    state: string, zipCode: string, country: string,
    agreeToTerms: bool, subscribeNewsletter: bool)

  const EmptyForm := SignupForm("", "", "", "", "", "", "", "", "", "", "", "", "", false, false)

  /** The account object handed to the app after signing up. */
  datatype User = User(id: int, name: string, email: string, role: string,
                       businessName: string, businessType: string)

  predicate IsFlagField(f: Field)
  {
    f == AgreeToTerms || f == SubscribeNewsletter
  }

  /** The step whose page shows the field's input. */
  function FieldStep(f: Field): int
  {
    match f
    case FirstName | LastName | Email | Phone | Password | ConfirmPassword => 1
    case BusinessName | BusinessType | Address | City | State | ZipCode | Country => 2
    case AgreeToTerms | SubscribeNewsletter => 3
  }

  function Get(d: SignupForm, f: Field): Value
  {
    match f
    case FirstName => Text(d.firstName)
    case LastName => Text(d.lastName)
    case Email => Text(d.email)
    case Phone => Text(d.phone)
    case Password => Text(d.password)
    case ConfirmPassword => Text(d.confirmPassword)
    case BusinessName => Text(d.businessName)
    case BusinessType => Text(d.businessType)
    case Address => Text(d.address)
    case City => Text(d.city)
    case State => Text(d.state)
    case ZipCode => Text(d.zipCode)
    case Country => Text(d.country)
    case AgreeToTerms => Flag(d.agreeToTerms)
    case SubscribeNewsletter => Flag(d.subscribeNewsletter)
  }

  /** `{ ...prev, [field]: value }` */
  function WithInput(d: SignupForm, f: Field, v: Value): (r: SignupForm)
    requires v.Flag? <==> IsFlagField(f)
    ensures Get(r, f) == v
  {
    match f
    case FirstName => d.(firstName := v.text)
    case LastName => d.(lastName := v.text)
    case Email => d.(email := v.text)
    case Phone => d.(phone := v.text)
    case Password => d.(password := v.text)
    case ConfirmPassword => d.(confirmPassword := v.text)
    case BusinessName => d.(businessName := v.text)
    case BusinessType => d.(businessType := v.text)
    case Address => d.(address := v.text)
    case City => d.(city := v.text)
    case State => d.(state := v.text)
    case ZipCode => d.(zipCode := v.text)
    case Country => d.(country := v.text)
    case AgreeToTerms => d.(agreeToTerms := v.flag)
    case SubscribeNewsletter => d.(subscribeNewsletter := v.flag)
  }

  /** An input change touches its own field and no other. */
  lemma WithInputKeepsOthers(d: SignupForm, f: Field, v: Value, g: Field)
    requires v.Flag? <==> IsFlagField(f)
    requires g != f
    ensures Get(WithInput(d, f, v), g) == Get(d, g)
  {
  }

  // ----- messages -----

  const FirstNameRequired := "First name is required"
  const LastNameRequired := "Last name is required"
  const EmailRequired := "Email is required"
  const EmailInvalid := "Email is invalid"
  const PhoneRequired := "Phone number is required"
  const PasswordRequired := "Password is required"
  const PasswordTooShort := "Password must be at least 8 characters"
  const PasswordsMismatch := "Passwords do not match"
  const BusinessNameRequired := "Business name is required"
  const BusinessTypeRequired := "Business type is required"
  const AddressRequired := "Address is required"
  const CityRequired := "City is required"
  const StateRequired := "State/Province is required"
  const ZipCodeRequired := "ZIP/Postal code is required"
  const CountryRequired := "Country is required"
  const TermsRequired := "You must agree to the terms and conditions"

  const MinPasswordLength := 8

  /** The message validateStep(step) records for one field, field by field:
      text fields need something besides white space (the two Select
      values and the password only need to be non-empty), the email must
      also match `\S+@\S+\.\S+`, the password needs eight characters and
      the confirmation must equal it, and step 3 needs the terms accepted.
      Other steps check nothing. */
  function ErrorFor(d: SignupForm, step: int, f: Field): Option<string>
  {
    if step == 1 then PersonalError(d, f)
    else if step == 2 then BusinessError(d, f)
    else if step == 3 then TermsError(d, f)
    else None
  }

  function PersonalError(d: SignupForm, f: Field): Option<string>
  {
    match f
    case FirstName => if IsBlank(d.firstName) then Some(FirstNameRequired) else None
    case LastName => if IsBlank(d.lastName) then Some(LastNameRequired) else None
    case Email =>
      if IsBlank(d.email) then Some(EmailRequired)
      else if !MatchesEmailPattern(d.email) then Some(EmailInvalid)
      else None
    case Phone => if IsBlank(d.phone) then Some(PhoneRequired) else None
    case Password =>
      if d.password == "" then Some(PasswordRequired)
      else if |d.password| < MinPasswordLength then Some(PasswordTooShort)
      else None
    case ConfirmPassword => if d.password != d.confirmPassword then Some(PasswordsMismatch) else None
    case _ => None
  }

  function BusinessError(d: SignupForm, f: Field): Option<string>
  {
    match f
    case BusinessName => if IsBlank(d.businessName) then Some(BusinessNameRequired) else None
    case BusinessType => if d.businessType == "" then Some(BusinessTypeRequired) else None
    case Address => if IsBlank(d.address) then Some(AddressRequired) else None
    case City => if IsBlank(d.city) then Some(CityRequired) else None
    case State => if IsBlank(d.state) then Some(StateRequired) else None
    case ZipCode => if IsBlank(d.zipCode) then Some(ZipCodeRequired) else None
    case Country => if d.country == "" then Some(CountryRequired) else None
    case _ => None
  }

  function TermsError(d: SignupForm, f: Field): Option<string>
  {
    if f == AgreeToTerms && !d.agreeToTerms then Some(TermsRequired) else None
  }

  const AllFields: set<Field> := {
    FirstName, LastName, Email, Phone, Password, ConfirmPassword,
    BusinessName, BusinessType, Address, City, State, ZipCode, Country,
    AgreeToTerms, SubscribeNewsletter }

  /** The `newErrors` object of validateStep(step). */
  function StepErrors(d: SignupForm, step: int): map<Field, string>
  {
    map f | f in AllFields && ErrorFor(d, step, f).Some? :: ErrorFor(d, step, f).value
  }

  /** validateStep's result: `Object.keys(newErrors).length === 0`. */
  predicate StepValid(d: SignupForm, step: int)
  {
    |StepErrors(d, step)| == 0
  }

  lemma AllFieldsComplete(f: Field)
    ensures f in AllFields
  {
  }

  /** A step is valid exactly when no field has a message. */
  lemma StepValidIffNoMessage(d: SignupForm, step: int)
    ensures StepValid(d, step) <==> forall f :: ErrorFor(d, step, f).None?
  {
    if exists f :: ErrorFor(d, step, f).Some? {
      var f :| ErrorFor(d, step, f).Some?;
      AllFieldsComplete(f);
      assert f in StepErrors(d, step);
    }
    if !StepValid(d, step) {
      var f :| f in StepErrors(d, step);
    }
  }

  predicate PersonalFieldsPass(d: SignupForm)
  {
    !IsBlank(d.firstName) && !IsBlank(d.lastName) &&
    !IsBlank(d.email) && MatchesEmailPattern(d.email) && !IsBlank(d.phone) &&
    |d.password| >= MinPasswordLength && d.password == d.confirmPassword
  }

  predicate BusinessFieldsPass(d: SignupForm)
  {
    !IsBlank(d.businessName) && d.businessType != "" && !IsBlank(d.address) &&
    !IsBlank(d.city) && !IsBlank(d.state) && !IsBlank(d.zipCode) && d.country != ""
  }

  lemma PersonalChecks(d: SignupForm)
    ensures (forall f :: PersonalError(d, f).None?) <==> PersonalFieldsPass(d)
  {
    if !PersonalFieldsPass(d) {
      assert PersonalError(d, FirstName).Some? || PersonalError(d, LastName).Some? ||
             PersonalError(d, Email).Some? || PersonalError(d, Phone).Some? ||
             PersonalError(d, Password).Some? || PersonalError(d, ConfirmPassword).Some?;
    }
  }

  lemma BusinessChecks(d: SignupForm)
    ensures (forall f :: BusinessError(d, f).None?) <==> BusinessFieldsPass(d)
  {
    if !BusinessFieldsPass(d) {
      assert BusinessError(d, BusinessName).Some? || BusinessError(d, BusinessType).Some? ||
             BusinessError(d, Address).Some? || BusinessError(d, City).Some? ||
             BusinessError(d, State).Some? || BusinessError(d, ZipCode).Some? ||
             BusinessError(d, Country).Some?;
    }
  }

  /** Step 1 passes exactly when the names, email and phone are not blank,
      the email matches the pattern, the password has at least eight
      characters and the confirmation equals it. */
  lemma Step1Valid(d: SignupForm)
    ensures StepValid(d, 1) <==>
      !IsBlank(d.firstName) && !IsBlank(d.lastName) &&
      !IsBlank(d.email) && MatchesEmailPattern(d.email) && !IsBlank(d.phone) &&
      |d.password| >= MinPasswordLength && d.password == d.confirmPassword
  {
    StepValidIffNoMessage(d, 1);
    PersonalChecks(d);
    assert forall f :: ErrorFor(d, 1, f) == PersonalError(d, f);
  }

  /** Step 2 passes exactly when all seven business fields are filled in. */
  lemma Step2Valid(d: SignupForm)
    ensures StepValid(d, 2) <==>
      !IsBlank(d.businessName) && d.businessType != "" && !IsBlank(d.address) &&
      !IsBlank(d.city) && !IsBlank(d.state) && !IsBlank(d.zipCode) && d.country != ""
  {
    StepValidIffNoMessage(d, 2);
    BusinessChecks(d);
    assert forall f :: ErrorFor(d, 2, f) == BusinessError(d, f);
  }

  /** Step 3 passes exactly when the terms are accepted; any other step
      number records nothing and passes. */
  lemma Step3AndOthersValid(d: SignupForm, step: int)
    ensures StepValid(d, 3) <==> d.agreeToTerms
    ensures step !in {1, 2, 3} ==> StepErrors(d, step) == map[] && StepValid(d, step)
  {
    StepValidIffNoMessage(d, 3);
    assert ErrorFor(d, 3, AgreeToTerms).None? <==> d.agreeToTerms;
    StepValidIffNoMessage(d, step);
  }

  /** "Required" and "invalid" are exclusive for the email, as are
      "required" and "too short" for the password: a blank email is never
      called invalid, an empty password never too short. */
  lemma ExclusiveMessages(d: SignupForm)
    ensures ErrorFor(d, 1, Email) == Some(EmailRequired) <==> IsBlank(d.email)
    ensures ErrorFor(d, 1, Email) == Some(EmailInvalid) <==> !IsBlank(d.email) && !MatchesEmailPattern(d.email)
    ensures ErrorFor(d, 1, Password) == Some(PasswordRequired) <==> d.password == ""
    ensures ErrorFor(d, 1, Password) == Some(PasswordTooShort) <==> 0 < |d.password| < MinPasswordLength
  {
    assert EmailRequired[0] != EmailInvalid[|EmailInvalid| - 1];
    assert EmailRequired != EmailInvalid;
    assert PasswordRequired[|PasswordRequired| - 1] != PasswordTooShort[|PasswordTooShort| - 1];
    assert PasswordRequired != PasswordTooShort;
  }

  /** A step's verdict reads only the fields shown on that step. */
  lemma StepErrorsIgnoreOtherFields(d: SignupForm, f: Field, v: Value, step: int)
    requires v.Flag? <==> IsFlagField(f)
    requires FieldStep(f) != step
    ensures StepErrors(WithInput(d, f, v), step) == StepErrors(d, step)
  {
    var e := WithInput(d, f, v);
    if step == 1 {
      assert e.firstName == d.firstName && e.lastName == d.lastName && e.email == d.email;
      assert e.phone == d.phone && e.password == d.password && e.confirmPassword == d.confirmPassword;
      assert forall g :: PersonalError(e, g) == PersonalError(d, g);
    } else if step == 2 {
      assert e.businessName == d.businessName && e.businessType == d.businessType;
      assert e.address == d.address && e.city == d.city && e.state == d.state;
      assert e.zipCode == d.zipCode && e.country == d.country;
      assert forall g :: BusinessError(e, g) == BusinessError(d, g);
    } else if step == 3 {
      assert e.agreeToTerms == d.agreeToTerms;
    }
    assert forall g :: ErrorFor(e, step, g) == ErrorFor(d, step, g);
  }

  /** The account created from a form: the name is the first name, one
      space, and the last name; the role is always 'Owner'. */
  function NewUser(d: SignupForm, id: int): (u: User)
    ensures u.role == "Owner" && u.id == id && u.email == d.email
    ensures |u.name| == |d.firstName| + 1 + |d.lastName|
    ensures u.name[..|d.firstName|] == d.firstName && u.name[|d.firstName|] == ' '
    ensures u.name[|d.firstName| + 1..] == d.lastName
    ensures u.businessName == d.businessName && u.businessType == d.businessType
  {
    var name := d.firstName + " " + d.lastName;
    assert name[..|d.firstName|] == d.firstName;
    assert name[|d.firstName| + 1..] == d.lastName;
    User(id, name, d.email, "Owner", d.businessName, d.businessType)
  }

  function StepTitle(step: int): string
  {
    if step == 1 then "Personal Information"
    else if step == 2 then "Business Details"
    else if step == 3 then "Review & Confirm"
    else "Sign Up"
  }

  function StepDescription(step: int): string
  {
    if step == 1 then "Create your account with basic information"
    else if step == 2 then "Tell us about your hostel business"
    else if step == 3 then "Review your information and complete registration"
    else "Join HostelHub today"
  }

  /** The three steps have three different titles and descriptions, none of
      them the fallback. */
  lemma StepTitlesDistinct(i: int, j: int)
    requires 1 <= i <= 3 && 1 <= j <= 3 && i != j
    ensures StepTitle(i) != StepTitle(j) && StepTitle(i) != StepTitle(0)
    ensures StepDescription(i) != StepDescription(j) && StepDescription(i) != StepDescription(0)
  {
    assert |StepTitle(1)| == 20 && |StepTitle(2)| == 16 && |StepTitle(3)| == 16 && |StepTitle(0)| == 7;
    assert StepTitle(2)[0] != StepTitle(3)[0];
    assert |StepDescription(1)| == 42 && |StepDescription(2)| == 34;
    assert |StepDescription(3)| == 49 && |StepDescription(0)| == 20;
  }

  class SignupWizard {
    var currentStep: int
    var formData: SignupForm
    var errors: map<Field, string>
    var isSubmitting: bool
    /** The form the pending timer callback closed over, if a submit is in
        flight. */
    var scheduled: Option<SignupForm>

    /** The wizard shows steps 1 to 3, it stands past a step only if that
        step's fields passed validation, and it is busy exactly while a
        timer is pending. */
    predicate Valid()
      reads this
    {
      1 <= currentStep <= 3 &&
      (isSubmitting <==> scheduled.Some?) &&
      (currentStep >= 2 ==> StepValid(formData, 1)) &&
      (currentStep >= 3 ==> StepValid(formData, 2)) &&
      (scheduled.Some? ==> StepValid(scheduled.value, 1) && StepValid(scheduled.value, 2))
    }

    constructor ()
      ensures Valid()
      ensures currentStep == 1 && formData == EmptyForm && errors == map[]
      ensures !isSubmitting && scheduled.None?
    {
      currentStep := 1;
      formData := EmptyForm;
      errors := map[];
      isSubmitting := false;
      scheduled := None;
    }

    /** validateStep: records one message per failing field of the step
        and reports whether there were none. */
    method ValidateStep(step: int) returns (ok: bool)
      modifies this
      ensures errors == StepErrors(formData, step)
      ensures ok <==> StepValid(formData, step)
      ensures formData == old(formData) && currentStep == old(currentStep)
      ensures isSubmitting == old(isSubmitting) && scheduled == old(scheduled)
    {
      var newErrors := map f | f in AllFields && ErrorFor(formData, step, f).Some? :: ErrorFor(formData, step, f).value;
      errors := newErrors;
      ok := |newErrors| == 0;
    }

    /** handleInputChange: stores the value, and blanks the field's message
        if one is showing. Only the inputs of the current step are on the
        page. */
    method HandleInputChange(f: Field, v: Value)
      requires Valid()
      requires v.Flag? <==> IsFlagField(f)
      requires FieldStep(f) == currentStep
      modifies this
      ensures Valid()
      ensures formData == WithInput(old(formData), f, v)
      ensures f in old(errors) && old(errors)[f] != "" ==> errors == old(errors)[f := ""]
      ensures !(f in old(errors) && old(errors)[f] != "") ==> errors == old(errors)
      ensures currentStep == old(currentStep) && isSubmitting == old(isSubmitting)
      ensures scheduled == old(scheduled)
    {
      if FieldStep(f) != 1 {
        StepErrorsIgnoreOtherFields(formData, f, v, 1);
      }
      if FieldStep(f) != 2 {
        StepErrorsIgnoreOtherFields(formData, f, v, 2);
      }
      formData := WithInput(formData, f, v);
      if f in errors && errors[f] != "" {
        errors := errors[f := ""];
      }
    }

    /** handleNextStep: the Next button is shown on steps 1 and 2. */
    method HandleNextStep()
      requires Valid() && currentStep < 3
      modifies this
      ensures Valid()
      ensures errors == StepErrors(formData, old(currentStep))
      ensures StepValid(formData, old(currentStep)) ==> currentStep == old(currentStep) + 1
      ensures !StepValid(formData, old(currentStep)) ==> currentStep == old(currentStep)
      ensures formData == old(formData) && isSubmitting == old(isSubmitting)
      ensures scheduled == old(scheduled)
    {
      var ok := ValidateStep(currentStep);
      if ok {
        currentStep := currentStep + 1;
      }
    }

    /** handlePrevStep: the Previous button is shown past step 1. */
    method HandlePrevStep()
      requires Valid() && currentStep > 1
      modifies this
      ensures Valid()
      ensures currentStep == old(currentStep) - 1
      ensures formData == old(formData) && errors == old(errors)
      ensures isSubmitting == old(isSubmitting) && scheduled == old(scheduled)
    {
      currentStep := currentStep - 1;
    }

    /** handleSubmit: the submit button is on step 3 and disabled while a
        submit is in flight. It does nothing but record the messages when
        step 3 fails; otherwise it marks the wizard busy and arms the timer
        with the current form. */
    method HandleSubmit() returns (started: bool)
      requires Valid() && currentStep == 3 && !isSubmitting
      modifies this
      ensures Valid()
      ensures errors == StepErrors(formData, 3)
      ensures started <==> formData.agreeToTerms
      ensures started ==> isSubmitting && scheduled == Some(formData)
      ensures !started ==> !isSubmitting && scheduled.None?
      ensures formData == old(formData) && currentStep == old(currentStep)
    {
      Step3AndOthersValid(formData, 3);
      var ok := ValidateStep(3);
      if !ok {
        return false;
      }
      isSubmitting := true;
      scheduled := Some(formData);
      started := true;
    }

    /** The timer callback: clears the busy flag and builds the account from
        the form it closed over. That form passed steps 1 and 2, so the new
        owner has a well-formed email and non-blank names. */
    method CompleteSubmit(now: int) returns (u: User)
      requires Valid() && isSubmitting
      modifies this
      ensures Valid()
      ensures u == NewUser(old(scheduled).value, now)
      ensures MatchesEmailPattern(u.email)
      ensures !IsBlank(old(scheduled).value.firstName) && !IsBlank(old(scheduled).value.lastName)
      ensures !isSubmitting && scheduled.None?
      ensures formData == old(formData) && currentStep == old(currentStep) && errors == old(errors)
    {
      Step1Valid(scheduled.value);
      u := NewUser(scheduled.value, now);
      isSubmitting := false;
      scheduled := None;
    }
  }
}
