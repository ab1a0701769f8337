/** Step 1 of onboarding (`OnboardingStep1Component`): the learner-details
    form, the payload it stores, and the progress indicator. The two-second
    `setTimeout` before storing is split into `OnSubmit` and
    `OnSubmitTimerFired`. */
module OnboardingStep1 {
  import opened Strings
  import opened OnboardingData

  const DefaultStudentName := "Udit"
  const DefaultEmail := "default@example.com"
  const Step2Route := "/onboarding/step2"

  datatype Step1Form = Step1Form(
    title: string,
    nationality: string,
    dateOfBirth: string,
    gender: string,
    disability: string,
    specialNeedsRequirements: string,
    contactNo: string,
    alternateContactNo: string,
    userId: string)

  const EmptyForm := Step1Form("", "", "", "", "", "", "", "", "")

  /** Six controls are `required`; the special-needs note, the alternate
      number and the user id are not. */
  function FormValid(f: Step1Form): (r: bool)
    ensures r ==> f != EmptyForm
    ensures r <==> "" !in [f.title, f.nationality, f.dateOfBirth, f.gender, f.disability, f.contactNo]
  {
    f.title != "" && f.nationality != "" && f.dateOfBirth != "" && f.gender != ""
    && f.disability != "" && f.contactNo != ""
  }

  /** The three optional controls never decide validity. */
  lemma OptionalFieldsIgnored(f: Step1Form, specialNeeds: string, alternateContact: string, userId: string)
    ensures FormValid(f) <==>
      FormValid(f.(specialNeedsRequirements := specialNeeds, alternateContactNo := alternateContact, userId := userId))
  {
  }

  /** `?? ''` on an optional name part. */
  function OrEmpty(v: Option<string>): string {
    if v.Some? then v.value else ""
  }

  /** `studentName`: the trimmed "first last", or the fixed fallback when that
      is blank. */
  function StudentName(details: Option<LoginDetails>): (name: string)
    ensures name != ""
    ensures details.None? ==> name == DefaultStudentName
  {
    var first := if details.Some? then OrEmpty(details.value.firstName) else "";
    var last := if details.Some? then OrEmpty(details.value.lastName) else "";
    var joined := Trim(first + " " + last);
    if joined == "" then DefaultStudentName else joined
  }

  lemma TrimUntouched(s: string)
    requires s != [] && !IsSpace(s[0]) && !IsSpace(s[|s| - 1])
    ensures Trim(s) == s
  {
    assert TrimStart(s) == s;
  }

  /** When both name parts are present, non-empty and not padded with
      white space, the student name is exactly "first last". */
  lemma StudentNameJoinsParts(first: string, last: string, email: Option<string>)
    requires first != "" && last != ""
    requires !IsSpace(first[0]) && !IsSpace(last[|last| - 1])
    ensures StudentName(Some(LoginDetails(Some(first), Some(last), email))) == first + " " + last
  {
    var s := first + " " + last;
    assert s[0] == first[0] && s[|s| - 1] == last[|last| - 1];
    TrimUntouched(s);
  }

  /** With only a first name, the trailing separator is trimmed away. */
  lemma StudentNameFirstOnly(first: string, email: Option<string>)
    requires first != "" && !IsSpace(first[0]) && !IsSpace(first[|first| - 1])
    ensures StudentName(Some(LoginDetails(Some(first), None, email))) == first
  {
    var s := first + " " + "";
    assert s[0] == first[0];
    assert TrimStart(s) == s;
    assert s[..|s| - 1] == first;
    assert TrimEnd(s) == TrimEnd(first);
    assert TrimEnd(first) == first;
  }

  /** With only a surname, the leading separator is trimmed away. */
  lemma StudentNameLastOnly(last: string, email: Option<string>)
    requires last != "" && !IsSpace(last[0]) && !IsSpace(last[|last| - 1])
    ensures StudentName(Some(LoginDetails(None, Some(last), email))) == last
  {
    var s := "" + " " + last;
    assert s[1..] == last;
    assert TrimStart(s) == TrimStart(last);
    assert TrimStart(last) == last;
    assert TrimEnd(last) == last;
  }

  /** Name parts made only of white space also give the fallback name. */
  lemma StudentNameBlank(first: Option<string>, last: Option<string>, email: Option<string>)
    requires forall i :: 0 <= i < |OrEmpty(first)| ==> IsSpace(OrEmpty(first)[i])
    requires forall i :: 0 <= i < |OrEmpty(last)| ==> IsSpace(OrEmpty(last)[i])
    ensures StudentName(Some(LoginDetails(first, last, email))) == DefaultStudentName
  {
    var a, b := OrEmpty(first), OrEmpty(last);
    var s := a + " " + b;
    forall i | 0 <= i < |s|
      ensures IsSpace(s[i])
    {
      if i < |a| {
        assert s[i] == a[i];
      } else if i > |a| {
        assert s[i] == b[i - |a| - 1];
      }
    }
  }

  /** Without any name parts the fallback name is used. */
  lemma StudentNameFallback(email: Option<string>)
    ensures StudentName(Some(LoginDetails(None, None, email))) == DefaultStudentName
  {
    assert Trim("" + " " + "") == "";
  }

  /** `email`: `??` replaces only a missing address; an empty one is kept. */
  function PayloadEmail(details: Option<LoginDetails>): (email: string)
    ensures details.Some? && details.value.email.Some? ==> email == details.value.email.value
    ensures details.None? || details.value.email.None? ==> email == DefaultEmail
  {
    if details.Some? && details.value.email.Some? then details.value.email.value else DefaultEmail
  }

  /** The object `onSubmit` hands to the service: the form's values, with the
      user id replaced by the service's and the name and e-mail added. */
  function Payload(f: Step1Form, details: Option<LoginDetails>, userId: Option<string>): (d: Step1Data)
    ensures d.userId == userId && d.studentName == StudentName(details) && d.email == PayloadEmail(details)
    ensures d.title == f.title && d.nationality == f.nationality && d.dateOfBirth == f.dateOfBirth
    ensures d.gender == f.gender && d.disability == f.disability && d.contactNo == f.contactNo
    ensures d.specialNeedsRequirements == f.specialNeedsRequirements && d.alternateContactNo == f.alternateContactNo
  {
    Step1Data(f.title, f.nationality, f.dateOfBirth, f.gender, f.disability, f.specialNeedsRequirements,
              f.contactNo, f.alternateContactNo, userId, StudentName(details), PayloadEmail(details))
  }

  /** `Math.round(step / total * 100)`: the nearest integer, halves rounded up. */
  function ProgressPercentage(step: nat, total: nat): (r: int)
    requires total > 0
    ensures 2 * r * total <= 200 * step + total < 2 * (r + 1) * total
  {
    (200 * step + total) / (2 * total)
  }

  const CurrentStep := 1
  const TotalSteps := 3

  /** The bar shows 33 percent on step 1 of 3. */
  lemma Step1Progress()
    ensures ProgressPercentage(CurrentStep, TotalSteps) == 33
  {
  }

  class OnboardingStep1Component {
    const service: OnboardingDataService
    var form: Step1Form
    var isLoading: bool
    var allTouched: bool
    /** Payloads whose two-second timer has not fired yet, oldest first. */
    var pending: seq<Step1Data>
    var navigatedTo: Option<string>

    constructor (service: OnboardingDataService)
      ensures this.service == service
      ensures form == EmptyForm && !isLoading && !allTouched && pending == [] && navigatedTo == None
    {
      this.service := service;
      form := EmptyForm;
      isLoading := false;
      allTouched := false;
      pending := [];
      navigatedTo := None;
    }

    /** `onSubmit`: an invalid form only marks every control touched; a valid
        one starts loading and schedules storing its payload. */
    method OnSubmit()
      modifies this`isLoading, this`allTouched, this`pending
      ensures FormValid(form) ==>
        isLoading && allTouched == old(allTouched)
        && pending == old(pending) + [Payload(form, service.userLoginDetails, service.userId)]
      ensures !FormValid(form) ==> allTouched && isLoading == old(isLoading) && pending == old(pending)
    {
      if FormValid(form) {
        isLoading := true;
        var details := service.userLoginDetails;
        var payload := Payload(form, details, service.userId);
        pending := pending + [payload];
      } else {
        allTouched := true;
      }
    }

    /** The oldest scheduled timer fires: loading ends, its payload becomes
        the step-1 data and the learner moves on to step 2. */
    method OnSubmitTimerFired()
      requires pending != []
      modifies this`isLoading, this`pending, this`navigatedTo, service`step1Data
      ensures service.step1Data == Some(old(pending)[0])
      ensures pending == old(pending)[1..]
      ensures !isLoading && navigatedTo == Some(Step2Route)
    {
      isLoading := false;
      service.SetStep1Data(pending[0]);
      navigatedTo := Some(Step2Route);
      pending := pending[1..];
    }

    function GetProgressPercentage(): (r: int)
      ensures r == 33
    {
      Step1Progress();
      ProgressPercentage(CurrentStep, TotalSteps)
    }
  }
}
