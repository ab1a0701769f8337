/** The sign-up form (`SignupComponent`): per-field validators, the
    password rules and their live "requirements" record, the strength label,
    the submit gate and the field error messages.

    Angular's built-in validators are written out: `required` fails on the
    empty string (and `requiredTrue` on `false`); `minLength`, `email` and
    `pattern` accept the empty string. Whether a non-empty text is an e-mail
    address is left to the predicate `isEmail`. */
module Signup {
  import opened Strings

  const VerifyEmailRoute := "/auth/verify-email"

  /** The characters of `/[0-9!@#$%^&*(),.?":{}|<>]/`. */
  predicate IsNumberOrSymbol(c: char) {
    IsDigit(c) || c in "!@#$%^&*(),.?\":{}|<>"
  }

  /** `/[0-9!@#$%^&*(),.?":{}|<>]/.test(p)` */
  function HasNumberOrSymbol(p: string): (r: bool)
    ensures r <==> exists i :: 0 <= i < |p| && IsNumberOrSymbol(p[i])
  {
    if p == [] then false
    else if IsNumberOrSymbol(p[0]) then true
    else
      var r := HasNumberOrSymbol(p[1..]);
      assert r ==> exists i :: 0 <= i < |p| - 1 && IsNumberOrSymbol(p[1..][i]);
      assert (exists i :: 0 <= i < |p| && IsNumberOrSymbol(p[i])) ==>
             exists i :: 0 <= i < |p| - 1 && IsNumberOrSymbol(p[1..][i]);
      r
  }

  /** The errors `passwordValidator` reports for a non-empty password. */
  datatype PasswordErrors = PasswordErrors(minLength: bool, noNumberOrSymbol: bool)

  /** `passwordValidator`: `None` is JavaScript `null` (valid). */
  function PasswordValidator(p: string): (r: Option<PasswordErrors>)
    ensures p == "" ==> r == None
    ensures r.None? <==> p == "" || (|p| >= 8 && HasNumberOrSymbol(p))
    ensures r.Some? ==> r.value.minLength == (|p| < 8) && r.value.noNumberOrSymbol == !HasNumberOrSymbol(p)
  {
    if p == "" then None
    else
      var errors := PasswordErrors(|p| < 8, !HasNumberOrSymbol(p));
      if errors.minLength || errors.noNumberOrSymbol then Some(errors) else None
  }

  /** `^\d{9,10}$` */
  predicate PhoneValid(s: string) {
    9 <= |s| <= 10 && AllDigits(s)
  }

  datatype Field = FirstName | LastName | Email | PhoneNumber | Password | ConfirmPassword | AcceptTerms

  datatype SignupForm = SignupForm(firstName: string, lastName: string, email: string, phoneNumber: string,
                                   password: string, confirmPassword: string, acceptTerms: bool)

  const EmptyForm := SignupForm("", "", "", "", "", "", false)

  /** The error keys a control can carry; `minlength` holds the required length. */
  datatype FieldErrors = FieldErrors(required: bool, email: bool, minlength: Option<nat>, pattern: bool,
                                     minLength: bool, noNumberOrSymbol: bool)

  const NoErrors := FieldErrors(false, false, None, false, false, false)

  function NameErrors(v: string): FieldErrors {
    NoErrors.(required := v == "", minlength := if v != "" && |v| < 2 then Some(2) else None)
  }

  /** The errors of one control under its validators. */
  function ErrorsOf(form: SignupForm, f: Field, isEmail: string -> bool): (e: FieldErrors)
    ensures f != AcceptTerms ==> (e.required <==> FieldValue(form, f) == "")
    ensures f == AcceptTerms ==> (e.required <==> !form.acceptTerms)
    ensures e.minlength.Some? <==> (f == FirstName || f == LastName) && FieldValue(form, f) != "" && |FieldValue(form, f)| < 2
    ensures e.minlength.Some? ==> e.minlength.value == 2
    ensures e.email <==> f == Email && form.email != "" && !isEmail(form.email)
    ensures e.pattern <==> f == PhoneNumber && form.phoneNumber != "" && !PhoneValid(form.phoneNumber)
  {
    match f
    case FirstName => NameErrors(form.firstName)
    case LastName => NameErrors(form.lastName)
    case Email => NoErrors.(required := form.email == "", email := form.email != "" && !isEmail(form.email))
    case PhoneNumber =>
      NoErrors.(required := form.phoneNumber == "", pattern := form.phoneNumber != "" && !PhoneValid(form.phoneNumber))
    case Password =>
      var custom := PasswordValidator(form.password);
      NoErrors.(required := form.password == "",
                minLength := custom.Some? && custom.value.minLength,
                noNumberOrSymbol := custom.Some? && custom.value.noNumberOrSymbol)
    case ConfirmPassword => NoErrors.(required := form.confirmPassword == "")
    case AcceptTerms => NoErrors.(required := !form.acceptTerms)
  }

  function FieldValue(form: SignupForm, f: Field): string {
    match f
    case FirstName => form.firstName
    case LastName => form.lastName
    case Email => form.email
    case PhoneNumber => form.phoneNumber
    case Password => form.password
    case ConfirmPassword => form.confirmPassword
    case AcceptTerms => ""
  }

  /** `passwordMatchValidator`: the form-level `passwordMismatch` error, set
      exactly when the two entries differ; two empty entries match. */
  function PasswordMismatch(form: SignupForm): (r: bool)
    ensures r <==> form.password != form.confirmPassword
    ensures form.password == "" && form.confirmPassword == "" ==> !r
  {
    form.password != form.confirmPassword
  }

  /** `signupForm.valid`: no control has an error and the group has none.
      Stated field by field, a submittable form holds names of at least two
      characters, an e-mail address, a 9- or 10-digit number, a password of
      at least eight characters with a number or symbol, the same password
      again, and the accepted terms. */
  function FormValid(form: SignupForm, isEmail: string -> bool): (r: bool)
    ensures r <==>
      && |form.firstName| >= 2 && |form.lastName| >= 2
      && form.email != "" && isEmail(form.email)
      && PhoneValid(form.phoneNumber)
      && |form.password| >= 8 && HasNumberOrSymbol(form.password)
      && form.confirmPassword == form.password
      && form.acceptTerms
  {
    && ErrorsOf(form, FirstName, isEmail) == NoErrors
    && ErrorsOf(form, LastName, isEmail) == NoErrors
    && ErrorsOf(form, Email, isEmail) == NoErrors
    && ErrorsOf(form, PhoneNumber, isEmail) == NoErrors
    && ErrorsOf(form, Password, isEmail) == NoErrors
    && ErrorsOf(form, ConfirmPassword, isEmail) == NoErrors
    && ErrorsOf(form, AcceptTerms, isEmail) == NoErrors
    && !PasswordMismatch(form)
  }

  /** The form starts out invalid. */
  lemma EmptyFormInvalid(isEmail: string -> bool)
    ensures !FormValid(EmptyForm, isEmail)
  {
    assert ErrorsOf(EmptyForm, FirstName, isEmail).required;
  }

  /** `getFieldLabel` */
  function Label(name: string): (l: string)
    ensures name == "firstName" ==> l == "First Name"
    ensures name == "lastName" ==> l == "Surname"
    ensures name == "email" ==> l == "Email"
    ensures name == "phoneNumber" ==> l == "Phone Number"
    ensures name == "password" ==> l == "Password"
    ensures name == "confirmPassword" ==> l == "Confirm Password"
    ensures name !in {"firstName", "lastName", "email", "phoneNumber", "password", "confirmPassword"} ==> l == name
  {
    if name == "firstName" then "First Name"
    else if name == "lastName" then "Surname"
    else if name == "email" then "Email"
    else if name == "phoneNumber" then "Phone Number"
    else if name == "password" then "Password"
    else if name == "confirmPassword" then "Confirm Password"
    else name
  }

  function FieldNamed(name: string): (f: Option<Field>)
    ensures f.Some? ==> Label(name) != name || f.value == AcceptTerms
  {
    if name == "firstName" then Some(FirstName)
    else if name == "lastName" then Some(LastName)
    else if name == "email" then Some(Email)
    else if name == "phoneNumber" then Some(PhoneNumber)
    else if name == "password" then Some(Password)
    else if name == "confirmPassword" then Some(ConfirmPassword)
    else if name == "acceptTerms" then Some(AcceptTerms)
    else None
  }

  /** The message chain of `getFieldError`: required, then e-mail, then
      minimum length, then pattern; any other error has no message. */
  function ErrorMessage(name: string, e: FieldErrors): (m: string)
    ensures m == "" <==> !e.required && !e.email && e.minlength.None? && !e.pattern
    ensures e.required ==> m == Label(name) + " is required"
    ensures !e.required && e.email ==> m == "Please enter a valid email address"
    ensures !e.required && !e.email && e.minlength.Some? ==>
      m == Label(name) + " must be at least " + NatToString(e.minlength.value) + " characters"
    ensures !e.required && !e.email && e.minlength.None? && e.pattern ==> m == "Please enter a valid phone number"
  {
    if e.required then Label(name) + " is required"
    else if e.email then "Please enter a valid email address"
    else if e.minlength.Some? then
      Label(name) + " must be at least " + NatToString(e.minlength.value) + " characters"
    else if e.pattern then "Please enter a valid phone number"
    else ""
  }

  /** `getFieldError` */
  function FieldError(form: SignupForm, name: string, isEmail: string -> bool): (m: string)
    ensures FieldNamed(name).None? ==> m == ""
    ensures FieldNamed(name).Some? ==> m == ErrorMessage(name, ErrorsOf(form, FieldNamed(name).value, isEmail))
  {
    match FieldNamed(name)
    case None => ""
    case Some(f) => ErrorMessage(name, ErrorsOf(form, f, isEmail))
  }

  /** A password failing only the custom rules shows no message, although the
      form is invalid. */
  lemma CustomPasswordErrorsUnreported(form: SignupForm, isEmail: string -> bool)
    requires form.password != "" && PasswordValidator(form.password).Some?
    ensures FieldError(form, "password", isEmail) == ""
    ensures !FormValid(form, isEmail)
  {
  }

  /** The e-mail control reports "Email is required" when empty and the
      format message when the validator rejects the text. */
  lemma EmailMessages(form: SignupForm, isEmail: string -> bool)
    ensures form.email == "" ==> FieldError(form, "email", isEmail) == "Email is required"
    ensures form.email != "" && !isEmail(form.email) ==>
      FieldError(form, "email", isEmail) == "Please enter a valid email address"
    ensures form.email != "" && isEmail(form.email) ==> FieldError(form, "email", isEmail) == ""
  {
  }

  /** A one-character first name asks for two characters; a longer one has
      no message. */
  lemma FirstNameMessages(form: SignupForm, isEmail: string -> bool)
    ensures |form.firstName| == 1 ==> FieldError(form, "firstName", isEmail) == "First Name must be at least 2 characters"
    ensures |form.firstName| >= 2 ==> FieldError(form, "firstName", isEmail) == ""
  {
    NameControls();
    FirstNameText();
    NameMessage(form, "firstName", "First Name", FirstName, isEmail);
  }

  /** The same for the surname. */
  lemma SurnameMessages(form: SignupForm, isEmail: string -> bool)
    ensures |form.lastName| == 1 ==> FieldError(form, "lastName", isEmail) == "Surname must be at least 2 characters"
    ensures |form.lastName| >= 2 ==> FieldError(form, "lastName", isEmail) == ""
  {
    NameControls();
    SurnameText();
    NameMessage(form, "lastName", "Surname", LastName, isEmail);
  }

  /** Facts about literals, kept apart from the message lemmas, whose
      context makes them costly. */
  lemma NameControls()
    ensures FieldNamed("firstName") == Some(FirstName) && Label("firstName") == "First Name"
    ensures FieldNamed("lastName") == Some(LastName) && Label("lastName") == "Surname"
  {
  }

  lemma FirstNameText()
    ensures "First Name" + " must be at least 2 characters" == "First Name must be at least 2 characters"
  {
  }

  lemma SurnameText()
    ensures "Surname" + " must be at least 2 characters" == "Surname must be at least 2 characters"
  {
  }

  /** Either name control, given its label. */
  lemma NameMessage(form: SignupForm, name: string, caption: string, f: Field, isEmail: string -> bool)
    requires FieldNamed(name) == Some(f) && Label(name) == caption && (f == FirstName || f == LastName)
    ensures |FieldValue(form, f)| == 1 ==> FieldError(form, name, isEmail) == caption + " must be at least 2 characters"
    ensures |FieldValue(form, f)| >= 2 ==> FieldError(form, name, isEmail) == ""
  {
    var e := ErrorsOf(form, f, isEmail);
    assert FieldError(form, name, isEmail) == ErrorMessage(name, e);
    if |FieldValue(form, f)| == 1 {
      assert e.minlength == Some(2) && !e.required && !e.email;
      assert NatToString(2) == "2";
    }
  }

  /** The phone message appears exactly for a non-empty number of the wrong shape. */
  lemma PhoneMessage(form: SignupForm, isEmail: string -> bool)
    ensures FieldError(form, "phoneNumber", isEmail) == "Please enter a valid phone number"
            <==> form.phoneNumber != "" && !PhoneValid(form.phoneNumber)
  {
    var m := FieldError(form, "phoneNumber", isEmail);
    if form.phoneNumber == "" {
      assert m == "Phone Number is required";
      assert |m| != |"Please enter a valid phone number"|;
    }
  }

  /** The live requirement flags shown beside the password field. */
  datatype Requirements = Requirements(length: bool, noPersonalInfo: bool, hasNumberOrSymbol: bool)

  const InitialRequirements := Requirements(false, true, false)

  /** `noPersonalInfo` AS WRITTEN: `&&` binds tighter than `||`, so the
      expression is `!fn || (!p⊇fn && !ln) || (!p⊇ln && !em) || !p⊇local`
      on lower-cased inputs. */
  function NoPersonalInfoAsWritten(password: string, firstName: string, lastName: string, email: string): (r: bool)
    ensures Lower(firstName) == "" ==> r
  {
    var fn := Lower(firstName);
    var ln := Lower(lastName);
    var em := Lower(email);
    var p := Lower(password);
    fn == "" || (!Contains(p, fn) && ln == "") || (!Contains(p, ln) && em == "")
      || !Contains(p, BeforeFirst(em, '@'))
  }

  /** `noPersonalInfo` as intended: ignoring case, the password contains
      none of the given first name, last name and e-mail local part. A given
      e-mail whose local part is empty ("@x.com") rules out every password,
      since every text contains the empty string. */
  function NoPersonalInfo(password: string, firstName: string, lastName: string, email: string): (r: bool)
    ensures Lower(firstName) != "" && Contains(Lower(password), Lower(firstName)) ==> !r
    ensures Lower(lastName) != "" && Contains(Lower(password), Lower(lastName)) ==> !r
    ensures Lower(email) != "" && Contains(Lower(password), BeforeFirst(Lower(email), '@')) ==> !r
    ensures (&& (Lower(firstName) == "" || !Contains(Lower(password), Lower(firstName)))
             && (Lower(lastName) == "" || !Contains(Lower(password), Lower(lastName)))
             && (Lower(email) == "" || !Contains(Lower(password), BeforeFirst(Lower(email), '@')))) ==> r
  {
    var fn := Lower(firstName);
    var ln := Lower(lastName);
    var em := Lower(email);
    var p := Lower(password);
    (fn == "" || !Contains(p, fn)) && (ln == "" || !Contains(p, ln)) && (em == "" || !Contains(p, BeforeFirst(em, '@')))
  }

  /** Under the intended rule an e-mail with an empty local part rejects
      every password. */
  lemma EmptyLocalPartRejectsAll(password: string, firstName: string, lastName: string, email: string)
    requires email != "" && email[0] == '@'
    ensures !NoPersonalInfo(password, firstName, lastName, email)
  {
    assert BeforeFirst(Lower(email), '@') == "";
    assert "" <= Lower(password);
  }

  /** The written rule accepts every password the intended rule accepts. */
  lemma IntendedRuleIsStricter(password: string, firstName: string, lastName: string, email: string)
    ensures NoPersonalInfo(password, firstName, lastName, email) ==>
            NoPersonalInfoAsWritten(password, firstName, lastName, email)
  {
  }

  lemma {:induction false} ContainsOneChar(s: string, c: char)
    requires Contains(s, [c])
    ensures c in s
  {
    if [c] <= s {
      assert s[0] == c;
    } else {
      ContainsOneChar(s[1..], c);
      assert s == [s[0]] + s[1..];
    }
  }

  /** With all three personal details given, the written rule still accepts
      a password that starts with the first name, because the e-mail's local
      part is absent from it. */
  lemma AsWrittenAcceptsFirstName()
    ensures NoPersonalInfoAsWritten("john1234", "john", "doe", "x@y.com")
    ensures !NoPersonalInfo("john1234", "john", "doe", "x@y.com")
  {
    assert Lower("john1234") == "john1234";
    assert Lower("john") == "john";
    assert Lower("x@y.com") == "x@y.com";
    assert "john" <= "john1234";
    assert BeforeFirst("x@y.com", '@') == "x";
    if Contains("john1234", "x") {
      ContainsOneChar("john1234", 'x');
    }
  }

  /** `updatePasswordRequirements`: the record for `password` against the
      form's names and e-mail, with `noPersonalInfo` computed as written. */
  function RequirementsFor(password: string, form: SignupForm): (r: Requirements)
    ensures password == "" ==> r == InitialRequirements
    ensures password != "" ==> r.length == (|password| >= 8) && r.hasNumberOrSymbol == HasNumberOrSymbol(password)
    ensures password != "" ==>
      r.noPersonalInfo == NoPersonalInfoAsWritten(password, form.firstName, form.lastName, form.email)
    ensures NoPersonalInfo(password, form.firstName, form.lastName, form.email) ==> r.noPersonalInfo
  {
    IntendedRuleIsStricter(password, form.firstName, form.lastName, form.email);
    if password == "" then InitialRequirements
    else Requirements(|password| >= 8, NoPersonalInfoAsWritten(password, form.firstName, form.lastName, form.email),
                      HasNumberOrSymbol(password))
  }

  /** The record the intended rule would give. */
  function IntendedRequirementsFor(password: string, form: SignupForm): (r: Requirements)
    ensures r.length == RequirementsFor(password, form).length
    ensures r.hasNumberOrSymbol == RequirementsFor(password, form).hasNumberOrSymbol
    ensures password != "" ==> r.noPersonalInfo == NoPersonalInfo(password, form.firstName, form.lastName, form.email)
  {
    RequirementsFor(password, form).(noPersonalInfo :=
      password == "" || NoPersonalInfo(password, form.firstName, form.lastName, form.email))
  }

  /** The strength shown, as written, is never below what the intended rule
      would show; it differs only where the written flag lets personal details
      through. */
  lemma AsWrittenNeverWeaker(password: string, form: SignupForm)
    ensures MetCount(IntendedRequirementsFor(password, form)) <= MetCount(RequirementsFor(password, form))
    ensures Strength(IntendedRequirementsFor(password, form)) != Strength(RequirementsFor(password, form)) ==>
      NoPersonalInfoAsWritten(password, form.firstName, form.lastName, form.email)
      && !NoPersonalInfo(password, form.firstName, form.lastName, form.email)
  {
    IntendedRuleIsStricter(password, form.firstName, form.lastName, form.email);
  }

  /** For a non-empty password the custom validator passes exactly when the
      length and number-or-symbol flags are both lit. */
  lemma ValidatorAgreesWithRequirements(form: SignupForm)
    requires form.password != ""
    ensures PasswordValidator(form.password).None? <==>
            RequirementsFor(form.password, form).length && RequirementsFor(form.password, form).hasNumberOrSymbol
  {
  }

  function MetCount(r: Requirements): (n: nat)
    ensures n <= 3
    ensures n == 0 <==> !r.length && !r.noPersonalInfo && !r.hasNumberOrSymbol
    ensures n == 3 <==> r.length && r.noPersonalInfo && r.hasNumberOrSymbol
  {
    (if r.length then 1 else 0) + (if r.noPersonalInfo then 1 else 0) + (if r.hasNumberOrSymbol then 1 else 0)
  }

  /** `getPasswordStrength` */
  function Strength(r: Requirements): (text: string)
    ensures text == "Very Weak" <==> MetCount(r) == 0
    ensures text == "Weak" <==> MetCount(r) == 1
    ensures text == "Fair" <==> MetCount(r) == 2
    ensures text == "Strong" <==> MetCount(r) == 3
  {
    var met := MetCount(r);
    if met == 0 then "Very Weak"
    else if met == 1 then "Weak"
    else if met == 2 then "Fair"
    else "Strong"
  }

  /** A valid form shows a strong password unless the written personal-info
      test fails, and then a fair one. */
  lemma ValidFormStrength(form: SignupForm, isEmail: string -> bool)
    requires FormValid(form, isEmail)
    ensures Strength(RequirementsFor(form.password, form)) ==
            (if NoPersonalInfoAsWritten(form.password, form.firstName, form.lastName, form.email)
             then "Strong" else "Fair")
  {
  }

  /** With the example of the finding, a valid form shows "Strong" although
      the password begins with the first name. */
  lemma AsWrittenShowsStrong(isEmail: string -> bool)
    requires isEmail("x@y.com")
    ensures var form := SignupForm("john", "doe", "x@y.com", "0123456789", "john1234", "john1234", true);
      FormValid(form, isEmail) && Strength(RequirementsFor(form.password, form)) == "Strong"
  {
    var form := SignupForm("john", "doe", "x@y.com", "0123456789", "john1234", "john1234", true);
    AsWrittenAcceptsFirstName();
    assert IsNumberOrSymbol(form.password[4]);
    assert AllDigits(form.phoneNumber);
  }

  /** The body of the registration request. */
  datatype RegisterRequest = RegisterRequest(firstName: string, lastName: string, email: string, password: string)

  class SignupComponent {
    const isEmail: string -> bool
    var form: SignupForm
    var touched: set<Field>
    var isLoading: bool
    var passwordRequirements: Requirements
    var navigatedTo: Option<string>

    constructor (isEmail: string -> bool)
      ensures this.isEmail == isEmail
      ensures form == EmptyForm && touched == {} && !isLoading
      ensures passwordRequirements == InitialRequirements && navigatedTo == None
    {
      this.isEmail := isEmail;
      form := EmptyForm;
      touched := {};
      isLoading := false;
      passwordRequirements := InitialRequirements;
      navigatedTo := None;
    }

    /** `updatePasswordRequirements(password)`: an empty password resets the
        record; otherwise its three flags are overwritten one by one. */
    method UpdatePasswordRequirements(password: string)
      modifies this`passwordRequirements
      ensures passwordRequirements == RequirementsFor(password, form)
      ensures password != "" ==>
        passwordRequirements.noPersonalInfo == NoPersonalInfoAsWritten(password, form.firstName, form.lastName, form.email)
    {
      if password == "" {
        passwordRequirements := InitialRequirements;
        return;
      }
      passwordRequirements := passwordRequirements.(length := |password| >= 8);
      passwordRequirements := passwordRequirements.(
        noPersonalInfo := NoPersonalInfoAsWritten(password, form.firstName, form.lastName, form.email));
      passwordRequirements := passwordRequirements.(hasNumberOrSymbol := HasNumberOrSymbol(password));
    }

    /** Typing in the password field re-evaluates the requirements. */
    method SetPassword(v: string)
      modifies this`form, this`passwordRequirements
      ensures form == old(form).(password := v)
      ensures passwordRequirements == RequirementsFor(v, form)
    {
      form := form.(password := v);
      UpdatePasswordRequirements(v);
    }

    /** Typing in the e-mail field re-evaluates the requirements. */
    method SetEmail(v: string)
      modifies this`form, this`passwordRequirements
      ensures form == old(form).(email := v)
      ensures passwordRequirements == RequirementsFor(form.password, form)
    {
      form := form.(email := v);
      UpdatePasswordRequirements(form.password);
    }

    /** Typing in the first-name field re-evaluates the requirements. */
    method SetFirstName(v: string)
      modifies this`form, this`passwordRequirements
      ensures form == old(form).(firstName := v)
      ensures passwordRequirements == RequirementsFor(form.password, form)
    {
      form := form.(firstName := v);
      UpdatePasswordRequirements(form.password);
    }

    /** Typing in the last-name field re-evaluates the requirements. */
    method SetLastName(v: string)
      modifies this`form, this`passwordRequirements
      ensures form == old(form).(lastName := v)
      ensures passwordRequirements == RequirementsFor(form.password, form)
    {
      form := form.(lastName := v);
      UpdatePasswordRequirements(form.password);
    }

    /** `getPasswordStrength` */
    function GetPasswordStrength(): (text: string)
      reads this
      ensures text == "Strong" <==> passwordRequirements.length && passwordRequirements.noPersonalInfo
                                     && passwordRequirements.hasNumberOrSymbol
      ensures text == Strength(passwordRequirements)
    {
      Strength(passwordRequirements)
    }

    /** `getFieldError` */
    function GetFieldError(name: string): (m: string)
      reads this
      ensures FieldNamed(name).None? ==> m == ""
      ensures FieldNamed(name).Some? ==> m == ErrorMessage(name, ErrorsOf(form, FieldNamed(name).value, isEmail))
      ensures m == FieldError(form, name, isEmail)
    {
      FieldError(form, name, isEmail)
    }

    /** `onSubmit`: a valid form starts loading and sends exactly the four
        registration fields; an invalid one only marks every control touched. */
    method OnSubmit() returns (request: Option<RegisterRequest>)
      modifies this`isLoading, this`touched
      ensures FormValid(form, isEmail) ==>
        request == Some(RegisterRequest(form.firstName, form.lastName, form.email, form.password))
        && isLoading && touched == old(touched)
      ensures !FormValid(form, isEmail) ==>
        request == None && isLoading == old(isLoading)
        && touched == {FirstName, LastName, Email, PhoneNumber, Password, ConfirmPassword, AcceptTerms}
    {
      if FormValid(form, isEmail) {
        isLoading := true;
        request := Some(RegisterRequest(form.firstName, form.lastName, form.email, form.password));
      } else {
        touched := {FirstName, LastName, Email, PhoneNumber, Password, ConfirmPassword, AcceptTerms};
        request := None;
      }
    }

    /** The registration reply: success goes on to e-mail verification;
        either way loading ends. */
    method OnRegisterReply(succeeded: bool)
      modifies this`isLoading, this`navigatedTo
      ensures !isLoading
      ensures succeeded ==> navigatedTo == Some(VerifyEmailRoute)
      ensures !succeeded ==> navigatedTo == old(navigatedTo)
    {
      isLoading := false;
      if succeeded {
        navigatedTo := Some(VerifyEmailRoute);
      }
    }
  }
}
