/** The e-mail verification code screen (`VerifyEmailComponent`): the same
    five-slot buffer, loading guard and routing as the password-reset
    screen. The two-second `setTimeout` of `onVerify` is split into
    `OnVerify` and `VerifyTimerFired`; the clipboard text of a paste is a
    parameter. */
module VerifyEmail {
  import opened Strings
  import opened OtpCode

  class VerifyEmailComponent {
    var verificationCode: array<string>
    var isLoading: bool
    var email: Option<string>
    var verificationType: string
    var navigatedTo: Option<string>

    predicate Valid()
      reads this
    {
      verificationCode.Length == Slots
    }

    /** Construction and `ngOnInit`: five empty slots, loading off, and the
        `email` and `type` query parameters. */
    constructor (emailParam: Option<string>, typeParam: Option<string>)
      ensures Valid() && fresh(verificationCode)
      ensures verificationCode[..] == EmptyCode() && !isLoading
      ensures email == EmailParam(emailParam) && verificationType == VerificationType(typeParam)
      ensures navigatedTo == None
    {
      verificationCode := new string[Slots](_ => "");
      isLoading := false;
      email := EmailParam(emailParam);
      verificationType := VerificationType(typeParam);
      navigatedTo := None;
    }

    /** `onDigitInput(value, index)`: a non-empty value that is not one digit
        clears slot `index` and the input; otherwise the value goes into that
        slot. Returns the input's new text and the slot focused next. */
    method OnDigitInput(value: string, index: nat) returns (inputValue: string, focusNext: Option<nat>)
      requires Valid() && index < Slots
      modifies verificationCode
      ensures Accepted(value) ==> verificationCode[..] == old(verificationCode[..])[index := value] && inputValue == value
      ensures !Accepted(value) ==> verificationCode[..] == old(verificationCode[..])[index := ""] && inputValue == ""
      ensures focusNext.Some? <==> value != "" && Accepted(value) && index < Slots - 1
      ensures focusNext.Some? ==> focusNext.value == index + 1
    {
      inputValue := value;
      focusNext := None;
      if value != "" && !IsSingleDigit(value) {
        inputValue := "";
        verificationCode[index] := "";
        return;
      }
      verificationCode[index] := value;
      if value != "" && index < Slots - 1 {
        focusNext := Some(index + 1);
      }
    }

    /** `handlePaste` once the clipboard text is read: the leading slots take
        its first digits; with at least one digit, focus moves to the first
        empty slot or the last. */
    method HandlePaste(text: string) returns (focus: Option<nat>)
      requires Valid()
      modifies verificationCode
      ensures verificationCode[..] == Pasted(old(verificationCode[..]), text)
      ensures PasteDigits(text) == [] ==> focus == None
      ensures PasteDigits(text) != [] ==> focus == Some(FocusAfterPaste(verificationCode[..]))
    {
      var digits := PasteDigits(text);
      focus := None;
      if |digits| > 0 {
        WriteDigits(verificationCode, digits);
        var nextEmptyIndex := FindFirstEmpty(verificationCode);
        focus := Some(if nextEmptyIndex == -1 then Slots - 1 else nextEmptyIndex);
      }
    }

    /** `isCodeComplete`: `every(digit => digit !== '')`, which holds
        exactly when `findIndex` finds no empty slot. */
    function IsCodeComplete(): (r: bool)
      reads this, verificationCode
      ensures r <==> FirstEmpty(verificationCode[..]).None?
    {
      Complete(verificationCode[..])
    }

    /** `onVerify`: ignored while incomplete or loading; otherwise loading
        starts and the joined code is checked when the timer fires. */
    method OnVerify() returns (code: Option<string>)
      modifies this`isLoading
      ensures !IsCodeComplete() || old(isLoading) ==> code == None && isLoading == old(isLoading)
      ensures IsCodeComplete() && !old(isLoading) ==> isLoading && code == Some(Concat(verificationCode[..]))
    {
      if !IsCodeComplete() || isLoading {
        return None;
      }
      isLoading := true;
      code := Some(Concat(verificationCode[..]));
    }

    /** The verification timer fires: loading ends and the route follows the
        verification purpose. */
    method VerifyTimerFired()
      modifies this`isLoading, this`navigatedTo
      ensures !isLoading
      ensures navigatedTo == Some(RouteFor(verificationType))
    {
      isLoading := false;
      if verificationType == "reset" {
        navigatedTo := Some(CreatePasswordRoute);
      } else {
        navigatedTo := Some(SigninRoute);
      }
    }

    /** `onResendCode`: ignored while loading; otherwise a fresh buffer of
        five empty slots. */
    method OnResendCode()
      requires Valid()
      modifies this`verificationCode
      ensures Valid()
      ensures old(isLoading) ==> verificationCode == old(verificationCode)
      ensures !old(isLoading) ==> fresh(verificationCode) && verificationCode[..] == EmptyCode()
    {
      if isLoading {
        return;
      }
      verificationCode := new string[Slots](_ => "");
    }
  }
}
