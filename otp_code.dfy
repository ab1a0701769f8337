/** The five-slot code buffer shared by the password-reset and e-mail
    verification screens: digit-only input, paste fill, the first empty slot,
    completeness, and where a finished verification leads. */
module OtpCode {
  import opened Strings

  const Slots := 5
  const CreatePasswordRoute := "/auth/create-password"
  const SigninRoute := "/auth/signin"

  /** Five empty slots. */
  function EmptyCode(): (c: seq<string>)
    ensures |c| == Slots && forall i :: 0 <= i < Slots ==> c[i] == ""
  {
    ["", "", "", "", ""]
  }

  /** `isCodeComplete`: no slot is empty. */
  predicate Complete(code: seq<string>) {
    forall i :: 0 <= i < |code| ==> code[i] != ""
  }

  /** Whether `onDigitInput` keeps a typed value: the empty value or exactly
      one digit. */
  predicate Accepted(v: string) {
    v == "" || IsSingleDigit(v)
  }

  /** `findIndex(code => !code)`: the first empty slot. */
  function FirstEmpty(code: seq<string>): (r: Option<nat>)
    ensures r.None? <==> Complete(code)
    ensures r.Some? ==> r.value < |code| && code[r.value] == "" && Complete(code[..r.value])
  {
    if code == [] then None
    else if code[0] == "" then Some(0)
    else match FirstEmpty(code[1..])
      case None => None
      case Some(k) =>
        assert code[..k + 1] == [code[0]] + code[1..][..k];
        Some(k + 1)
  }

  /** Where focus goes after a paste: the first empty slot, or the last. */
  function FocusAfterPaste(code: seq<string>): (i: nat)
    requires |code| == Slots
    ensures i < Slots
    ensures Complete(code) ==> i == Slots - 1
    ensures !Complete(code) ==> code[i] == "" && Complete(code[..i])
  {
    match FirstEmpty(code)
    case None => Slots - 1
    case Some(k) => k
  }

  /** `text.replace(/\D/g, '').split('').slice(0, 5)` */
  function PasteDigits(text: string): (d: string)
    ensures |d| <= Slots && AllDigits(d) && d <= KeepDigits(text)
    ensures |KeepDigits(text)| <= Slots ==> d == KeepDigits(text)
  {
    var all := KeepDigits(text);
    if |all| > Slots then all[..Slots] else all
  }

  /** Slots `0..|digits|-1` take one digit each; the rest stay. */
  function Filled(code: seq<string>, digits: string): (r: seq<string>)
    requires |digits| <= |code|
    ensures |r| == |code|
  {
    seq(|code|, j requires 0 <= j < |code| => if j < |digits| then [digits[j]] else code[j])
  }

  /** The buffer after pasting `text`. */
  function Pasted(code: seq<string>, text: string): (r: seq<string>)
    requires |code| == Slots
    ensures |r| == Slots
    ensures forall j :: 0 <= j < Slots ==> (r[j] == code[j] || IsSingleDigit(r[j]))
    ensures Accepted(code[0]) && Accepted(code[1]) && Accepted(code[2]) && Accepted(code[3]) && Accepted(code[4])
            ==> forall j :: 0 <= j < Slots ==> Accepted(r[j])
  {
    Filled(code, PasteDigits(text))
  }

  /** Paste writes the first digits of the clipboard into the leading slots,
      one digit per slot, and leaves the slots after them as they were. */
  lemma PasteFillsPrefix(code: seq<string>, text: string)
    requires |code| == Slots
    ensures forall j :: 0 <= j < |PasteDigits(text)| ==>
      IsSingleDigit(Pasted(code, text)[j]) && Pasted(code, text)[j] == [KeepDigits(text)[j]]
    ensures forall j :: |PasteDigits(text)| <= j < Slots ==> Pasted(code, text)[j] == code[j]
  {
  }

  /** Text without digits changes nothing. */
  lemma PasteWithoutDigits(code: seq<string>, text: string)
    requires |code| == Slots && KeepDigits(text) == []
    ensures Pasted(code, text) == code
  {
  }

  /** Five or more digits complete the code, whatever it held, and focus lands
      on the last slot. */
  lemma PasteOfFiveDigitsCompletes(code: seq<string>, text: string)
    requires |code| == Slots && |KeepDigits(text)| >= Slots
    ensures Complete(Pasted(code, text))
    ensures FocusAfterPaste(Pasted(code, text)) == Slots - 1
  {
    var r := Pasted(code, text);
    forall j | 0 <= j < Slots
      ensures r[j] != ""
    {
      assert r[j] == [PasteDigits(text)[j]];
    }
  }

  /** Pasting the same text twice is the same as pasting it once. */
  lemma PasteIdempotent(code: seq<string>, text: string)
    requires |code| == Slots
    ensures Pasted(Pasted(code, text), text) == Pasted(code, text)
  {
  }

  /** Fewer than five digits on an empty buffer: focus lands on the first
      slot left empty, just after the pasted digits. */
  lemma ShortPasteFocus(text: string)
    requires |KeepDigits(text)| < Slots
    ensures FocusAfterPaste(Pasted(EmptyCode(), text)) == |KeepDigits(text)|
  {
    var r := Pasted(EmptyCode(), text);
    var k := |KeepDigits(text)|;
    assert r[k] == "";
    assert forall j :: 0 <= j < k ==> r[j] == [KeepDigits(text)[j]];
    assert Complete(r[..k]);
    FirstEmptyIsFirst(r, k);
  }

  /** The verification purpose: the `type` query parameter, or "email" when
      it is absent or empty. */
  function VerificationType(param: Option<string>): (t: string)
    ensures t != ""
    ensures param.Some? && param.value != "" ==> t == param.value
    ensures param.None? || param.value == "" ==> t == "email"
  {
    if param.Some? && param.value != "" then param.value else "email"
  }

  /** The `email` query parameter, empty counting as absent. */
  function EmailParam(param: Option<string>): (e: Option<string>)
    ensures e.Some? ==> e.value != "" && param == e
    ensures param.Some? && param.value != "" ==> e == param
  {
    if param.Some? && param.value != "" then param else None
  }

  /** Where a finished verification leads. */
  function RouteFor(verificationType: string): (route: string)
    ensures route == CreatePasswordRoute <==> verificationType == "reset"
    ensures route == SigninRoute <==> verificationType != "reset"
  {
    if verificationType == "reset" then CreatePasswordRoute else SigninRoute
  }

  /** With no `type` parameter a finished verification leads to sign-in. */
  lemma DefaultTypeLeadsToSignin()
    ensures RouteFor(VerificationType(None)) == SigninRoute
    ensures RouteFor(VerificationType(Some(""))) == SigninRoute
  {
  }

  /** The paste loop of `handlePaste`: writes one digit per leading slot. */
  method WriteDigits(code: array<string>, digits: string)
    requires |digits| <= code.Length
    modifies code
    ensures code[..] == Filled(old(code[..]), digits)
  {
    var i := 0;
    while i < |digits|
      invariant 0 <= i <= |digits|
      invariant code[..] == Filled(old(code[..]), digits[..i])
    {
      code[i] := [digits[i]];
      i := i + 1;
    }
    assert digits[..i] == digits;
  }

  /** `findIndex(code => !code)`, giving -1 when no slot is empty. */
  method FindFirstEmpty(code: array<string>) returns (index: int)
    ensures FirstEmpty(code[..]).None? ==> index == -1
    ensures FirstEmpty(code[..]).Some? ==> index == FirstEmpty(code[..]).value
  {
    index := 0;
    while index < code.Length && code[index] != ""
      invariant 0 <= index <= code.Length
      invariant Complete(code[..index])
    {
      assert code[..index + 1] == code[..index] + [code[index]];
      index := index + 1;
    }
    FirstEmptyIsFirst(code[..], index);
    if index == code.Length {
      index := -1;
    }
  }

  lemma {:induction false} FirstEmptyIsFirst(code: seq<string>, k: nat)
    requires k <= |code| && Complete(code[..k])
    requires k < |code| ==> code[k] == ""
    ensures k == |code| ==> FirstEmpty(code).None?
    ensures k < |code| ==> FirstEmpty(code) == Some(k)
  {
    if k == |code| {
      assert code[..k] == code;
    } else if k > 0 {
      assert code[1..][..k - 1] == code[1..k];
      assert code[0] == code[..k][0];
      FirstEmptyIsFirst(code[1..], k - 1);
    }
  }
}
