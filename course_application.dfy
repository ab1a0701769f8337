/** The course-application wizard (`CourseApplicationComponent`): a step
    cursor guarded per step, a course choice, document-upload flags and a
    submit guard. */
module CourseApplication {
  import opened Strings

  datatype Course = Course(id: string, name: string, description: string,
                           duration: string, fee: string, startDate: string)

  /** A file chosen in the browser, known here only by its name. */
  datatype FileRef = FileRef(name: string)

  datatype Document = Document(id: string, name: string, description: string,
                               uploaded: bool, file: Option<FileRef>)

  datatype ApplicationData = ApplicationData(middleName: string, homeTelephone: string,
                                             maritalStatus: string, selectedCourse: string)

  const DashboardRoute := "/student-portal/dashboard"

  const AvailableCourses: seq<Course> := [
    Course("course-1", "Business Management",
           "Comprehensive business management course covering leadership, strategy, and operations.",
           "12 months", "R25,000", "2024-02-01"),
    Course("course-2", "Information Technology",
           "Modern IT course covering programming, networking, and system administration.",
           "18 months", "R35,000", "2024-03-01"),
    Course("course-3", "Digital Marketing",
           "Complete digital marketing course including SEO, social media, and analytics.",
           "6 months", "R15,000", "2024-01-15"),
    Course("course-4", "Healthcare Administration",
           "Healthcare management course covering medical records, billing, and patient care.",
           "10 months", "R20,000", "2024-02-15")
  ]

  const InitialDocuments: seq<Document> := [
    Document("doc-1", "ID Document", "Clear copy of your South African ID document", false, None),
    Document("doc-2", "Academic Transcripts",
             "Official transcripts from your previous educational institution", false, None),
    Document("doc-3", "Proof of Address", "Utility bill or bank statement not older than 3 months", false, None),
    Document("doc-4", "Passport Photo", "Recent passport-sized photograph", false, None)
  ]

  /** `availableCourses.find(c => c.id === id)`: the first course with that id. */
  function FindCourse(courses: seq<Course>, id: string): (r: Option<Course>)
    ensures r.None? <==> forall i :: 0 <= i < |courses| ==> courses[i].id != id
    ensures r.Some? ==> exists i :: 0 <= i < |courses| && courses[i] == r.value && r.value.id == id
                                    && forall j :: 0 <= j < i ==> courses[j].id != id
  {
    if courses == [] then None
    else if courses[0].id == id then Some(courses[0])
    else
      var r := FindCourse(courses[1..], id);
      assert r.Some? ==> exists i :: 0 <= i < |courses| - 1 && courses[1..][i] == r.value && r.value.id == id
                                     && forall j :: 0 <= j < i ==> courses[1..][j].id != id;
      r
  }

  /** The index `requiredDocuments.find(d => d.id === id)` lands on. */
  function DocumentIndex(docs: seq<Document>, id: string): (r: Option<nat>)
    ensures r.None? <==> forall i :: 0 <= i < |docs| ==> docs[i].id != id
    ensures r.Some? ==> r.value < |docs| && docs[r.value].id == id
                        && forall j :: 0 <= j < r.value ==> docs[j].id != id
  {
    if docs == [] then None
    else if docs[0].id == id then Some(0)
    else match DocumentIndex(docs[1..], id)
      case None => None
      case Some(k) => Some(k + 1)
  }

  /** `requiredDocuments.every(d => d.uploaded)` */
  predicate AllUploaded(docs: seq<Document>) {
    forall i :: 0 <= i < |docs| ==> docs[i].uploaded
  }

  /** `canProceed`: the guard of leaving `step` forwards. Steps 1 to 3 each
      need their own input; any other step, 4 and beyond included, passes. */
  function CanProceed(step: int, data: ApplicationData, docs: seq<Document>): (r: bool)
    ensures !(1 <= step <= 3) ==> r
    ensures step == 1 ==> (r <==> data.maritalStatus != "")
    ensures step == 2 ==> (r <==> data.selectedCourse != "")
    ensures step == 3 ==> (r <==> forall i :: 0 <= i < |docs| ==> docs[i].uploaded)
  {
    if step == 1 then data.maritalStatus != ""
    else if step == 2 then data.selectedCourse != ""
    else if step == 3 then AllUploaded(docs)
    else true
  }

  /** `canSubmit`: possible exactly at step 4 when the guards of steps 1, 2
      and 3 all hold again. */
  function CanSubmit(step: int, data: ApplicationData, docs: seq<Document>): (r: bool)
    ensures r <==> step == 4 && CanProceed(1, data, docs) && CanProceed(2, data, docs) && CanProceed(3, data, docs)
  {
    step == 4 && data.maritalStatus != "" && data.selectedCourse != "" && AllUploaded(docs)
  }

  /** The document list after a file is chosen for `docId`. */
  function WithFile(docs: seq<Document>, file: Option<FileRef>, docId: string): (r: seq<Document>)
    ensures |r| == |docs|
    ensures forall j :: 0 <= j < |docs| ==> r[j].id == docs[j].id && (docs[j].uploaded ==> r[j].uploaded)
    ensures file.None? || DocumentIndex(docs, docId).None? ==> r == docs
    ensures file.Some? && DocumentIndex(docs, docId).Some? ==>
      var k := DocumentIndex(docs, docId).value;
      && r[k] == docs[k].(uploaded := true, file := file)
      && forall j :: 0 <= j < |docs| && j != k ==> r[j] == docs[j]
  {
    match (file, DocumentIndex(docs, docId))
    case (Some(_), Some(k)) => docs[k := docs[k].(uploaded := true, file := file)]
    case _ => docs
  }

  /** Choosing files never un-marks a document, so once step 3's guard holds
      it keeps holding. */
  lemma WithFileKeepsUploaded(docs: seq<Document>, file: Option<FileRef>, docId: string)
    requires AllUploaded(docs)
    ensures AllUploaded(WithFile(docs, file, docId))
  {
  }

  /** Choosing a file for the last document still missing one opens step 3,
      provided no earlier document shares its id. */
  lemma LastUploadUnlocksStep3(docs: seq<Document>, k: nat, f: FileRef)
    requires k < |docs|
    requires forall j :: 0 <= j < |docs| && j != k ==> docs[j].uploaded
    requires forall j :: 0 <= j < k ==> docs[j].id != docs[k].id
    ensures AllUploaded(WithFile(docs, Some(f), docs[k].id))
  {
    assert DocumentIndex(docs, docs[k].id) == Some(k);
  }

  class CourseApplicationComponent {
    var currentStep: int
    var applicationData: ApplicationData
    var requiredDocuments: seq<Document>
    /** The route navigated to, if any. */
    var navigatedTo: Option<string>

    /** The cursor never drops below the first step. */
    predicate Valid()
      reads this
    {
      currentStep >= 1
    }

    constructor ()
      ensures Valid()
      ensures currentStep == 1
      ensures applicationData == ApplicationData("", "", "", "")
      ensures requiredDocuments == InitialDocuments
      ensures navigatedTo == None
    {
      currentStep := 1;
      applicationData := ApplicationData("", "", "", "");
      requiredDocuments := InitialDocuments;
      navigatedTo := None;
    }

    /** `selectedCourseDetails` */
    function SelectedCourseDetails(): (r: Option<Course>)
      reads this
      ensures r.Some? ==> r.value.id == applicationData.selectedCourse && r.value in AvailableCourses
      ensures r.Some? ==> exists i :: 0 <= i < |AvailableCourses| && AvailableCourses[i] == r.value
                                      && forall j :: 0 <= j < i ==> AvailableCourses[j].id != r.value.id
      ensures r.None? <==> forall i :: 0 <= i < |AvailableCourses| ==> AvailableCourses[i].id != applicationData.selectedCourse
    {
      FindCourse(AvailableCourses, applicationData.selectedCourse)
    }

    method NextStep()
      modifies this`currentStep
      ensures CanProceed(old(currentStep), applicationData, requiredDocuments) ==> currentStep == old(currentStep) + 1
      ensures !CanProceed(old(currentStep), applicationData, requiredDocuments) ==> currentStep == old(currentStep)
      ensures old(Valid()) ==> Valid()
    {
      if CanProceed(currentStep, applicationData, requiredDocuments) {
        currentStep := currentStep + 1;
      }
    }

    method PreviousStep()
      modifies this`currentStep
      ensures old(currentStep) > 1 ==> currentStep == old(currentStep) - 1
      ensures old(currentStep) <= 1 ==> currentStep == old(currentStep)
      ensures old(Valid()) ==> Valid()
    {
      if currentStep > 1 {
        currentStep := currentStep - 1;
      }
    }

    method SelectCourse(courseId: string)
      modifies this`applicationData
      ensures applicationData == old(applicationData).(selectedCourse := courseId)
    {
      applicationData := applicationData.(selectedCourse := courseId);
    }

    /** `onFileSelected`: `file` is the first file of the input, if any. */
    method OnFileSelected(file: Option<FileRef>, docId: string)
      modifies this`requiredDocuments
      ensures requiredDocuments == WithFile(old(requiredDocuments), file, docId)
    {
      if file.Some? {
        var k := 0;
        while k < |requiredDocuments| && requiredDocuments[k].id != docId
          invariant 0 <= k <= |requiredDocuments|
          invariant forall j :: 0 <= j < k ==> requiredDocuments[j].id != docId
        {
          k := k + 1;
        }
        if k < |requiredDocuments| {
          assert DocumentIndex(requiredDocuments, docId) == Some(k);
          var document := requiredDocuments[k];
          document := document.(file := file);
          document := document.(uploaded := true);
          requiredDocuments := requiredDocuments[k := document];
        }
      }
    }

    /** `submitApplication`: with the submit guard met the applicant is sent
        to the dashboard; otherwise nothing happens. */
    method SubmitApplication() returns (submitted: bool)
      modifies this`navigatedTo
      ensures submitted <==> CanSubmit(currentStep, applicationData, requiredDocuments)
      ensures submitted ==> navigatedTo == Some(DashboardRoute)
      ensures !submitted ==> navigatedTo == old(navigatedTo)
    {
      submitted := CanSubmit(currentStep, applicationData, requiredDocuments);
      if submitted {
        navigatedTo := Some(DashboardRoute);
      }
    }
  }
}
