/** The six-field code form shown after sign-up (`EmailVerificationComponent`):
    one digit per control, the verification request and its two outcomes,
    and the 60-second resend cooldown. The `setInterval` countdown is a
    `Tick` method called once per second while the timer runs. */
module EmailVerification {
  import opened Strings
  import opened OnboardingData

  const CodeLength := 6
  const CooldownSeconds := 60
  const MismatchMessage := "OTP is not matched. Please try again."
  const Step1Route := "/onboarding/step1"
  const SignupRoute := "/auth/signup"

  /** The errors of one `codeN` control: `required`, then `pattern(/^\d$/)`,
      which accepts the empty string. */
  datatype CodeErrors = CodeErrors(required: bool, pattern: bool)

  function ErrorsOf(v: string): (e: CodeErrors)
    ensures !e.required && !e.pattern <==> IsSingleDigit(v)
    ensures e.required <==> v == ""
    ensures e.pattern <==> v != "" && !IsSingleDigit(v)
  {
    CodeErrors(v == "", v != "" && !IsSingleDigit(v))
  }

  /** `verificationForm.valid`. A valid form's six values, joined, are six
      digits, the k-th of them the k-th control's value. */
  function FormValid(codes: seq<string>): (r: bool)
    ensures r ==> |Concat(codes)| == CodeLength && AllDigits(Concat(codes))
    ensures r ==> |codes| == CodeLength && forall i :: 0 <= i < CodeLength ==> [Concat(codes)[i]] == codes[i]
    ensures r <==> |codes| == CodeLength && forall i :: 0 <= i < |codes| ==> ErrorsOf(codes[i]) == CodeErrors(false, false)
  {
    |codes| == CodeLength && forall i :: 0 <= i < |codes| ==> IsSingleDigit(codes[i])
  }

  /** The template literal of `getVerificationCode` is the join of the six
      values in order. */
  lemma ConcatOfSix(codes: seq<string>)
    requires |codes| == 6
    ensures codes[0] + codes[1] + codes[2] + codes[3] + codes[4] + codes[5] == Concat(codes)
  {
    var c0, c1, c2, c3, c4, c5 := codes[0], codes[1], codes[2], codes[3], codes[4], codes[5];
    assert Concat(codes[5..]) == c5 by {
      assert codes[5..][1..] == [];
    }
    ConcatStep(codes, 4);
    ConcatStep(codes, 3);
    ConcatStep(codes, 2);
    ConcatStep(codes, 1);
    ConcatStep(codes, 0);
    assert Concat(codes[4..]) == c4 + c5;
    assert Concat(codes[3..]) == c3 + (c4 + c5);
    assert Concat(codes[2..]) == c2 + (c3 + (c4 + c5));
    assert Concat(codes[1..]) == c1 + (c2 + (c3 + (c4 + c5)));
    assert codes[0..] == codes;
    assert Concat(codes) == c0 + (c1 + (c2 + (c3 + (c4 + c5))));
    Regroup(c0, c1, c2, c3, c4, c5);
  }

  /** Kept apart from `ConcatOfSix`, whose context makes this step costly. */
  lemma Regroup(c0: string, c1: string, c2: string, c3: string, c4: string, c5: string)
    ensures c0 + c1 + c2 + c3 + c4 + c5 == c0 + (c1 + (c2 + (c3 + (c4 + c5))))
  {
  }

  lemma ConcatStep(codes: seq<string>, k: nat)
    requires k < |codes|
    ensures Concat(codes[k..]) == codes[k] + Concat(codes[k + 1..])
  {
    assert codes[k..][1..] == codes[k + 1..];
  }

  /** `getFieldError`: required wins over pattern. */
  function FieldError(e: CodeErrors): (m: string)
    ensures e.required ==> m == "This field is required"
    ensures !e.required && e.pattern ==> m == "Please enter a single digit"
    ensures m == "" <==> !e.required && !e.pattern
  {
    if e.required then "This field is required"
    else if e.pattern then "Please enter a single digit"
    else ""
  }

  /** `input.value.slice(-1)` when more than one character was typed. */
  function LastTyped(v: string): (r: string)
    ensures |r| <= 1
    ensures |v| > 1 ==> r == [v[|v| - 1]]
    ensures |v| <= 1 ==> r == v
  {
    if |v| > 1 then v[|v| - 1..] else v
  }

  /** The control `code${nextFieldIndex || parseInt(id)}` names, as a number:
      a zero or absent index falls back to the number in the input's id. */
  function TargetControl(nextFieldIndex: Option<int>, idNumber: Option<int>): (r: Option<int>)
    ensures r == nextFieldIndex || r == idNumber
    ensures r.Some? && r.value == 0 ==> r == idNumber
    ensures nextFieldIndex.Some? && nextFieldIndex.value != 0 ==> r == nextFieldIndex
    ensures nextFieldIndex.None? || nextFieldIndex.value == 0 ==> r == idNumber
  {
    if nextFieldIndex.Some? && nextFieldIndex.value != 0 then nextFieldIndex else idNumber
  }

  /** The request of `verifyOtp`. */
  datatype VerifyRequest = VerifyRequest(userid: string, username: string, otptext: string)

  /** The resend countdown: seconds left and whether the interval runs. */
  datatype Cooldown = Cooldown(remaining: int, running: bool)

  predicate CooldownValid(c: Cooldown) {
    0 <= c.remaining <= CooldownSeconds && (c.running <==> c.remaining > 0)
  }

  /** One firing of the interval: count down, stop at zero. */
  function TickOf(c: Cooldown): (r: Cooldown)
    requires CooldownValid(c)
    ensures CooldownValid(r)
    ensures c.running ==> r.remaining == c.remaining - 1
    ensures !c.running ==> r == c
  {
    if !c.running then c
    else Cooldown(c.remaining - 1, c.remaining - 1 > 0)
  }

  function TicksOf(c: Cooldown, n: nat): (r: Cooldown)
    requires CooldownValid(c)
    ensures CooldownValid(r)
    decreases n
  {
    if n == 0 then c else TicksOf(TickOf(c), n - 1)
  }

  lemma {:induction false} TicksCountDown(c: Cooldown, n: nat)
    requires CooldownValid(c)
    ensures TicksOf(c, n).remaining == if n <= c.remaining then c.remaining - n else 0
    decreases n
  {
    if n > 0 {
      TicksCountDown(TickOf(c), n - 1);
    }
  }

  /** After a resend the button stays locked for exactly 60 ticks. */
  lemma ResendLocksFor60Ticks(n: nat)
    ensures TicksOf(Cooldown(CooldownSeconds, true), n).running <==> n < CooldownSeconds
  {
    TicksCountDown(Cooldown(CooldownSeconds, true), n);
  }

  class EmailVerificationComponent {
    var codes: seq<string>
    var touched: set<int>
    var isLoading: bool
    var errorMessage: string
    var cooldown: Cooldown
    var userEmail: string
    var userId: string
    var navigatedTo: Option<string>

    predicate Valid()
      reads this
    {
      |codes| == CodeLength && CooldownValid(cooldown)
    }

    /** The e-mail and user id come from the navigation state (absent is
        `None`); the user id is handed to the onboarding store, and a missing
        e-mail or id sends the user back to sign-up. */
    constructor (email: Option<string>, userid: Option<string>, onboarding: OnboardingDataService)
      modifies onboarding`userId
      ensures Valid()
      ensures codes == seq(CodeLength, _ => "") && touched == {} && !isLoading && errorMessage == ""
      ensures cooldown == Cooldown(0, false)
      ensures userEmail == (if email.Some? then email.value else "")
      ensures userId == (if userid.Some? then userid.value else "")
      ensures onboarding.userId == Some(userId)
      ensures navigatedTo == (if userEmail == "" || userId == "" then Some(SignupRoute) else None)
    {
      codes := seq(CodeLength, _ => "");
      touched := {};
      isLoading := false;
      errorMessage := "";
      cooldown := Cooldown(0, false);
      userEmail := if email.Some? then email.value else "";
      userId := if userid.Some? then userid.value else "";
      navigatedTo := None;
      new;
      onboarding.SetUserId(userId);
      if userEmail == "" || userId == "" {
        navigatedTo := Some(SignupRoute);
      }
    }

    /** `getVerificationCode`: the values of `code1` to `code6`, in order;
        on a valid form, six digits, one per control. */
    function GetVerificationCode(): (code: string)
      reads this
      requires Valid()
      ensures code == Concat(codes)
      ensures code == codes[0] + codes[1] + codes[2] + codes[3] + codes[4] + codes[5]
      ensures FormValid(codes) ==> |code| == CodeLength && AllDigits(code)
      ensures FormValid(codes) ==> forall i :: 0 <= i < CodeLength ==> [code[i]] == codes[i]
    {
      ConcatOfSix(codes);
      codes[0] + codes[1] + codes[2] + codes[3] + codes[4] + codes[5]
    }

    /** `getFieldError("codeN")`; other names have no control. */
    function GetFieldError(n: int): (m: string)
      reads this
      requires Valid()
      ensures !(1 <= n <= CodeLength) ==> m == ""
      ensures 1 <= n <= CodeLength ==> (m == "" <==> IsSingleDigit(codes[n - 1]))
      ensures 1 <= n <= CodeLength ==> m == FieldError(ErrorsOf(codes[n - 1]))
      ensures 1 <= n <= CodeLength && codes[n - 1] == "" ==> m == "This field is required"
      ensures 1 <= n <= CodeLength && codes[n - 1] != "" && !IsSingleDigit(codes[n - 1]) ==>
        m == "Please enter a single digit"
    {
      if 1 <= n <= CodeLength then FieldError(ErrorsOf(codes[n - 1])) else ""
    }

    /** `onSubmit`: a valid form starts loading and sends the code; an
        invalid one only marks every control touched. */
    method OnSubmit() returns (request: Option<VerifyRequest>)
      requires Valid()
      modifies this`isLoading, this`touched
      ensures Valid()
      ensures FormValid(codes) ==>
        isLoading && touched == old(touched)
        && request == Some(VerifyRequest(userId, userEmail, Concat(codes)))
        && |request.value.otptext| == CodeLength && AllDigits(request.value.otptext)
      ensures !FormValid(codes) ==> request == None && isLoading == old(isLoading) && touched == {1, 2, 3, 4, 5, 6}
    {
      if FormValid(codes) {
        isLoading := true;
        var otptext := GetVerificationCode();
        request := Some(VerifyRequest(userId, userEmail, otptext));
      } else {
        touched := {1, 2, 3, 4, 5, 6};
        request := None;
      }
    }

    /** The reply to `verifyOtp`. */
    method OnVerifyReply(succeeded: bool)
      modifies this`isLoading, this`errorMessage, this`navigatedTo
      ensures !isLoading
      ensures succeeded ==> errorMessage == "" && navigatedTo == Some(Step1Route)
      ensures !succeeded ==> errorMessage == MismatchMessage && navigatedTo == old(navigatedTo)
    {
      isLoading := false;
      if succeeded {
        errorMessage := "";
        navigatedTo := Some(Step1Route);
      } else {
        errorMessage := MismatchMessage;
      }
    }

    /** `onResendCode`: ignored while cooling down; otherwise the cooldown is
        set and the timer started before the request goes out. Whatever the
        request's outcome, the cooldown stands. */
    method OnResendCode() returns (resendTo: Option<string>)
      requires Valid()
      modifies this`cooldown
      ensures Valid()
      ensures old(cooldown.remaining) > 0 ==> resendTo == None && cooldown == old(cooldown)
      ensures old(cooldown.remaining) <= 0 ==> resendTo == Some(userEmail) && cooldown == Cooldown(CooldownSeconds, true)
    {
      if cooldown.remaining > 0 {
        return None;
      }
      cooldown := cooldown.(remaining := CooldownSeconds);
      cooldown := cooldown.(running := true);
      resendTo := Some(userEmail);
    }

    /** One second of the resend interval. */
    method Tick()
      requires Valid()
      modifies this`cooldown
      ensures Valid()
      ensures cooldown == TickOf(old(cooldown))
    {
      if cooldown.running {
        cooldown := cooldown.(remaining := cooldown.remaining - 1);
        if cooldown.remaining <= 0 {
          cooldown := cooldown.(running := false);
        }
      }
    }

    /** `onInputChange`: the input keeps only its last character and that
        value is written to the control the indices name, if it exists. */
    method OnInputChange(typed: string, nextFieldIndex: Option<int>, idNumber: Option<int>)
      returns (inputValue: string)
      requires Valid()
      modifies this`codes
      ensures Valid()
      ensures inputValue == LastTyped(typed) && |inputValue| <= 1
      ensures TargetControl(nextFieldIndex, idNumber).Some? && 1 <= TargetControl(nextFieldIndex, idNumber).value <= CodeLength
        ==> codes == old(codes)[TargetControl(nextFieldIndex, idNumber).value - 1 := inputValue]
      ensures !(TargetControl(nextFieldIndex, idNumber).Some? && 1 <= TargetControl(nextFieldIndex, idNumber).value <= CodeLength)
        ==> codes == old(codes)
    {
      inputValue := typed;
      if |inputValue| > 1 {
        inputValue := inputValue[|inputValue| - 1..];
      }
      var target := TargetControl(nextFieldIndex, idNumber);
      if target.Some? && 1 <= target.value <= CodeLength {
        codes := codes[target.value - 1 := inputValue];
      }
    }
  }
}
