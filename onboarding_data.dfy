/** The onboarding hand-over store (`OnboardingDataService`): four cells,
    each overwritten by its setter, and the assembly of the final payload. */
module OnboardingData {
  import opened Strings

  /** The login details handed over after sign-in; a missing property is
      `None` (JavaScript `null` or `undefined`). */
  datatype LoginDetails = LoginDetails(firstName: Option<string>, lastName: Option<string>, email: Option<string>)

  /** The learner details stored by step 1. */
  datatype Step1Data = Step1Data(
    title: string,
    nationality: string,
    dateOfBirth: string,
    gender: string,
    disability: string,
    specialNeedsRequirements: string,
    contactNo: string,
    alternateContactNo: string,
    userId: Option<string>,
    studentName: string,
    email: string)

  /** The form values of the later steps, by control name. */
  type Details = map<string, string>

  datatype FinalData = FinalData(student: Option<Step1Data>, studentAdditionalDetails: Option<Details>,
                                 studentNextOfKin: Details)

  class OnboardingDataService {
    var step1Data: Option<Step1Data>
    var step2Data: Option<Details>
    var userId: Option<string>
    var userLoginDetails: Option<LoginDetails>

    constructor ()
      ensures step1Data == None && step2Data == None && userId == None && userLoginDetails == None
    {
      step1Data := None;
      step2Data := None;
      userId := None;
      userLoginDetails := None;
    }

    method SetStep1Data(data: Step1Data)
      modifies this`step1Data
      ensures step1Data == Some(data)
    {
      step1Data := Some(data);
    }

    method SetUserId(id: string)
      modifies this`userId
      ensures userId == Some(id)
    {
      userId := Some(id);
    }

    method SetStep2Data(data: Details)
      modifies this`step2Data
      ensures step2Data == Some(data)
    {
      step2Data := Some(data);
    }

    method SetUserData(data: LoginDetails)
      modifies this`userLoginDetails
      ensures userLoginDetails == Some(data)
    {
      userLoginDetails := Some(data);
    }

    /** `getFinalData(step3Data)`: the three parts in their fixed roles. */
    function GetFinalData(step3Data: Details): (r: FinalData)
      reads this
      ensures r.student == step1Data && r.studentAdditionalDetails == step2Data && r.studentNextOfKin == step3Data
    {
      FinalData(step1Data, step2Data, step3Data)
    }
  }

  /** Each getter returns what its setter last stored, whatever the other
      setters did since. */
  method SettersAreIndependent(s: OnboardingDataService, d1: Step1Data, d2: Details, id: string,
                               login: LoginDetails, later: Step1Data, step3: Details)
    returns (before: FinalData, after: FinalData)
    modifies s
    ensures before == FinalData(Some(d1), Some(d2), step3)
    ensures after == FinalData(Some(later), Some(d2), step3)
    ensures s.userId == Some(id) && s.userLoginDetails == Some(login)
  {
    s.SetStep1Data(d1);
    s.SetUserId(id);
    s.SetStep2Data(d2);
    s.SetUserData(login);
    before := s.GetFinalData(step3);
    s.SetStep1Data(later);
    after := s.GetFinalData(step3);
  }
}
