/** The new-password form (`CreatePasswordComponent`). The form-level match
    validator also rewrites the confirmation control's own errors, so those
    errors depend on the order of edits: the model keeps them as state.
    When a control's value changes, Angular runs that control's validators
    and then the form's; the other control keeps its errors. */
module CreatePassword {
  import opened Strings

  const MinLength := 8
  const SigninRoute := "/auth/signin"

  /** The errors on the confirmation control: its own `required`, or the
      `passwordMismatch` the form validator puts there. */
  datatype ConfirmErrors = ConfirmErrors(required: bool, passwordMismatch: bool)

  const NoConfirmErrors := ConfirmErrors(false, false)
  const MismatchOnly := ConfirmErrors(false, true)

  /** The password control: `required` and `minLength(8)`, the latter
      accepting the empty string. */
  datatype PasswordErrors = PasswordErrors(required: bool, minlength: bool)

  function PasswordErrorsOf(p: string): (e: PasswordErrors)
    ensures !e.required && !e.minlength <==> |p| >= MinLength
    ensures e.required <==> p == ""
    ensures e.minlength <==> p != "" && |p| < MinLength
  {
    PasswordErrors(p == "", p != "" && |p| < MinLength)
  }

  /** `passwordMatchValidator`: the form's error and the confirmation
      control's errors afterwards. A mismatch replaces whatever the control
      held; a match clears a mismatch and leaves any other error. */
  function MatchValidator(p: string, c: string, before: ConfirmErrors): (r: (bool, ConfirmErrors))
    ensures r.0 <==> p != c
    ensures p != c ==> r.1 == MismatchOnly
    ensures p == c && before.passwordMismatch ==> r.1 == NoConfirmErrors
    ensures p == c && !before.passwordMismatch ==> r.1 == before
  {
    if p != c then (true, MismatchOnly)
    else if before.passwordMismatch then (false, NoConfirmErrors)
    else (false, before)
  }

  /** The states the form can reach: the mismatch flags track `p != c`, and a
      `required` error remains only on an empty confirmation. */
  predicate Consistent(p: string, c: string, confirm: ConfirmErrors, groupMismatch: bool) {
    && (groupMismatch <==> p != c)
    && (p != c ==> confirm == MismatchOnly)
    && (p == c ==> !confirm.passwordMismatch && (confirm.required ==> c == ""))
  }

  /** `createPasswordForm.valid` */
  predicate FormValid(p: string, confirm: ConfirmErrors, groupMismatch: bool) {
    PasswordErrorsOf(p) == PasswordErrors(false, false) && confirm == NoConfirmErrors && !groupMismatch
  }

  /** In every reachable state the form is valid exactly when the two
      entries agree and have at least eight characters. */
  lemma ValidIffMatchingAndLong(p: string, c: string, confirm: ConfirmErrors, groupMismatch: bool)
    requires Consistent(p, c, confirm, groupMismatch)
    ensures FormValid(p, confirm, groupMismatch) <==> p == c && |p| >= MinLength
  {
  }

  /** Typing a password keeps the state consistent. */
  lemma PasswordEditConsistent(p: string, c: string, confirm: ConfirmErrors, groupMismatch: bool, v: string)
    requires Consistent(p, c, confirm, groupMismatch)
    ensures var r := MatchValidator(v, c, confirm); Consistent(v, c, r.1, r.0)
  {
  }

  /** Typing a confirmation keeps the state consistent. */
  lemma ConfirmEditConsistent(p: string, v: string)
    ensures var r := MatchValidator(p, v, ConfirmErrors(v == "", false)); Consistent(p, v, r.1, r.0)
  {
  }

  /** `getErrorMessage` on the password control. */
  function PasswordMessage(e: PasswordErrors): (m: string)
    ensures e.required ==> m == "This field is required"
    ensures !e.required && e.minlength ==> m == "Password must be at least 8 characters long"
    ensures m == "" <==> !e.required && !e.minlength
  {
    if e.required then "This field is required"
    else if e.minlength then "Password must be at least 8 characters long"
    else ""
  }

  /** `getErrorMessage` on the confirmation control. */
  function ConfirmMessage(e: ConfirmErrors): (m: string)
    ensures e.required ==> m == "This field is required"
    ensures !e.required && e.passwordMismatch ==> m == "Passwords do not match"
    ensures m == "" <==> !e.required && !e.passwordMismatch
  {
    if e.required then "This field is required"
    else if e.passwordMismatch then "Passwords do not match"
    else ""
  }

  class CreatePasswordComponent {
    var password: string
    var confirmPassword: string
    var confirmErrors: ConfirmErrors
    var groupMismatch: bool
    var isLoading: bool
    var allTouched: bool
    var navigatedTo: Option<string>

    predicate Valid()
      reads this
    {
      Consistent(password, confirmPassword, confirmErrors, groupMismatch)
    }

    /** Both controls start empty; each carries its own `required`. */
    constructor ()
      ensures Valid()
      ensures password == "" && confirmPassword == "" && confirmErrors == ConfirmErrors(true, false)
      ensures !groupMismatch && !isLoading && !allTouched && navigatedTo == None
    {
      password := "";
      confirmPassword := "";
      confirmErrors := ConfirmErrors(true, false);
      groupMismatch := false;
      isLoading := false;
      allTouched := false;
      navigatedTo := None;
    }

    function IsFormValid(): (valid: bool)
      reads this
      requires Valid()
      ensures valid <==> password == confirmPassword && |password| >= MinLength
    {
      ValidIffMatchingAndLong(password, confirmPassword, confirmErrors, groupMismatch);
      FormValid(password, confirmErrors, groupMismatch)
    }

    /** A new password value, then the form validator. */
    method SetPassword(v: string)
      requires Valid()
      modifies this`password, this`confirmErrors, this`groupMismatch
      ensures Valid()
      ensures password == v
      ensures (groupMismatch, confirmErrors) == MatchValidator(v, confirmPassword, old(confirmErrors))
    {
      password := v;
      var r := MatchValidator(password, confirmPassword, confirmErrors);
      groupMismatch := r.0;
      confirmErrors := r.1;
      PasswordEditConsistent(old(password), confirmPassword, old(confirmErrors), old(groupMismatch), v);
    }

    /** A new confirmation value: its own `required`, then the form validator. */
    method SetConfirmPassword(v: string)
      modifies this`confirmPassword, this`confirmErrors, this`groupMismatch
      ensures Valid()
      ensures confirmPassword == v
      ensures (groupMismatch, confirmErrors) == MatchValidator(password, v, ConfirmErrors(v == "", false))
    {
      confirmPassword := v;
      confirmErrors := ConfirmErrors(v == "", false);
      var r := MatchValidator(password, confirmPassword, confirmErrors);
      groupMismatch := r.0;
      confirmErrors := r.1;
      ConfirmEditConsistent(password, v);
    }

    /** `getErrorMessage(fieldName)` */
    function GetErrorMessage(fieldName: string): (m: string)
      reads this
      ensures fieldName != "password" && fieldName != "confirmPassword" ==> m == ""
      ensures fieldName == "password" ==> m == PasswordMessage(PasswordErrorsOf(password))
      ensures fieldName == "confirmPassword" ==> m == ConfirmMessage(confirmErrors)
    {
      if fieldName == "password" then PasswordMessage(PasswordErrorsOf(password))
      else if fieldName == "confirmPassword" then ConfirmMessage(confirmErrors)
      else ""
    }

    /** `onSubmit`: a valid form starts loading; an invalid one only marks
        both controls touched. */
    method OnSubmit()
      requires Valid()
      modifies this`isLoading, this`allTouched
      ensures password == confirmPassword && |password| >= MinLength ==> isLoading && allTouched == old(allTouched)
      ensures !(password == confirmPassword && |password| >= MinLength) ==> allTouched && isLoading == old(isLoading)
    {
      if IsFormValid() {
        isLoading := true;
      } else {
        allTouched := true;
      }
    }

    /** The submit timer fires: loading ends and the user goes to sign-in. */
    method SubmitTimerFired()
      modifies this`isLoading, this`navigatedTo
      ensures !isLoading && navigatedTo == Some(SigninRoute)
    {
      isLoading := false;
      navigatedTo := Some(SigninRoute);
    }

    /** `onSkip` */
    method OnSkip()
      modifies this`navigatedTo
      ensures navigatedTo == Some(SigninRoute)
    {
      navigatedTo := Some(SigninRoute);
    }
  }

  /** Emptying the confirmation while a password is typed reports a
      mismatch, not a missing value: the form validator overwrites the
      control's own `required`. */
  lemma EmptyConfirmationShowsMismatch(p: string)
    requires p != ""
    ensures ConfirmMessage(MatchValidator(p, "", ConfirmErrors(true, false)).1) == "Passwords do not match"
  {
  }
}
