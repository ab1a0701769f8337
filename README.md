# Academy management front end: a verified model of its core logic

This project models the logic of the student-enrollment web front end. The
application lets a learner sign up and verify an e-mail address with a
one-time code. A learner can also reset a password, complete onboarding step
one and apply for a course. The model also covers the services behind those
screens:

- the **error-log store**: day buckets of at most 100 entries, at most 30 days
  kept, newest first once the limit bites, and a best-effort snapshot in
  browser storage;
- the **HTTP error interceptor**: it picks a level and a message, writes an
  ordered trace of log calls, and re-throws the original error;
- the **session store**: tokens and the serialized user under three storage
  keys, start-up restoration, login, logout, refresh and profile update, JWT
  expiry and the role checks;
- the **course-application wizard**: a guarded step cursor, the course
  choice, document-upload flags and the submit gate;
- the **sign-up form**: field validators, the password rules and their live
  requirement flags, the strength label, field error messages and the
  registration request;
- the **six-field e-mail verification form**, with its 60-second resend
  cooldown;
- the **five-slot code buffers** of the password-reset and e-mail
  verification screens, held as arrays: digit input, clipboard paste,
  completeness, the verify guard and routing;
- the **new-password form**, whose match validator rewrites the confirmation
  control's errors;
- **onboarding step one** and the onboarding hand-over store;
- the **grade badge** of the enrolment list.

Each core file is one module:

| file | module |
|---|---|
| `strings.dfy` | `Strings` |
| `error_logging.dfy` | `ErrorLogging` |
| `error_interceptor.dfy` | `ErrorInterceptor` |
| `auth_service.dfy` | `Auth` |
| `course_application.dfy` | `CourseApplication` |
| `signup.dfy` | `Signup` |
| `email_verification.dfy` | `EmailVerification` |
| `otp_code.dfy` | `OtpCode` |
| `forgot_password_verify.dfy` | `ForgotPasswordVerify` |
| `verify_email.dfy` | `VerifyEmail` |
| `create_password.dfy` | `CreatePassword` |
| `onboarding_data.dfy` | `OnboardingData` |
| `onboarding_step1.dfy` | `OnboardingStep1` |
| `my_enrollment.dfy` | `MyEnrollment` |

`Strings` holds the JavaScript string operations the components use. `OtpCode`
holds the buffer logic that the two five-slot screens share.

State that the source updates in place is a `class` with `modifies` clauses
on its methods. This covers the services, the component fields and the code
buffers. Pure checks, validators and message chains are functions. The model
also fixes the following conventions:

- Browser storage is a `map<string, string>`, and the current time is a
  parameter.
- Every HTTP call becomes the reply the caller supplies.
- Each `setTimeout` or `setInterval` callback becomes its own method
  (`...TimerFired`, `Tick`), called when the timer fires.
- `JSON.parse`/`JSON.stringify` of the user and the decoding of a token's
  payload are functions handed to `AuthService` when it is built.
- Angular's `Validators.email` is the predicate `isEmail`.

## Model

| member | source | states |
|---|---|---|
| Strings.Concat | src/app/features/auth/forgot-password-verify/forgot-password-verify.component.ts:154 | parts of one character each join to a text of that length whose k-th character is the k-th part |
| ErrorLogging.FormatDate | src/app/core/services/error-logging.service.ts:280-282 | the day key is a prefix of the ISO text and contains no 'T' |
| ErrorLogging.FormatDateOfIso | src/app/core/services/error-logging.service.ts:280-282 | the day key of `day + "T" + time` is `day` |
| ErrorLogging.MakeEntry | src/app/core/services/error-logging.service.ts:89-102 | the entry gets a stack exactly when the level is error and `additionalData.stack` is truthy; that stack is the one passed in, and every other field is copied |
| ErrorLogging.StackData | src/app/core/services/error-logging.service.ts:114-118 | the result holds `stack` and `name` and every key of the caller's data; the caller's keys override; the error's stack is kept unless the caller supplies one; no other key appears |
| ErrorLogging.CapEntries | src/app/core/services/error-logging.service.ts:233-235 | at most 100 entries, the leading ones kept |
| ErrorLogging.Record | src/app/core/services/error-logging.service.ts:223-235 | the entry goes in front; the older entries follow, cut to 100 in all; totalCount rises by 1; errorCount rises only for error and warningCount only for warn |
| ErrorLogging.IndexOfDate | src/app/core/services/error-logging.service.ts:209 | the first bucket with the date, or the list length when none has it |
| ErrorLogging.FindLog | src/app/core/services/error-logging.service.ts:143-147 | a found bucket is the first bucket with the date, as `find` returns it; nothing is found exactly when no bucket has the date |
| ErrorLogging.WithoutDate | src/app/core/services/error-logging.service.ts:187-188 | a bucket is kept exactly when it was present and is dated differently |
| ErrorLogging.Reverse | src/app/core/services/error-logging.service.ts:154 | position i holds the element at position n-1-i |
| ErrorLogging.InsertByDate | src/app/core/services/error-logging.service.ts:239 | insertion adds exactly one bucket; InsertByDateSorted and InsertByDateMembers state order and content |
| ErrorLogging.SortByDateDesc | src/app/core/services/error-logging.service.ts:239 | sorting keeps the length; SortByDateDescSorted states newest-first and permutation |
| ErrorLogging.WithEntry | src/app/core/services/error-logging.service.ts:205-245 | after `addLogEntry` at most 30 buckets remain and at most one is added |
| ErrorLogging.AvailableDates | src/app/core/services/error-logging.service.ts:153-155 | the dates listed are the bucket dates, each as often as it occurs |
| ErrorLogging.InsertByDateSorted | src/app/core/services/error-logging.service.ts:239 | inserting into a newest-first list keeps it newest first and adds exactly that bucket |
| ErrorLogging.SortByDateDescSorted | src/app/core/services/error-logging.service.ts:239 | the date sort is newest first and a permutation of its input |
| ErrorLogging.InsertStringSorted | src/app/core/services/error-logging.service.ts:154 | inserting into an ascending list keeps it ascending and adds exactly that string |
| ErrorLogging.SortStringsSorted | src/app/core/services/error-logging.service.ts:154 | the default string sort is ascending and a permutation of its input |
| ErrorLogging.AvailableDatesNewestFirst | src/app/core/services/error-logging.service.ts:153-155 | the available dates are every bucket date, newest first |
| ErrorLogging.ReverseMultiset | src/app/core/services/error-logging.service.ts:154 | reversing keeps the same elements |
| ErrorLogging.RecordedWithinLimit | src/app/core/services/error-logging.service.ts:205-235 | within 30 days, the lookup of the entry's day finds its old bucket (or a fresh one at 0) with the entry recorded |
| ErrorLogging.OtherBucketsKept | src/app/core/services/error-logging.service.ts:207-238 | within 30 days, every other bucket keeps its place; a new day is appended at the end |
| ErrorLogging.InsertByDateMembers | src/app/core/services/error-logging.service.ts:239 | insertion adds exactly the new bucket |
| ErrorLogging.SortMembers | src/app/core/services/error-logging.service.ts:239 | sorting keeps exactly the same buckets |
| ErrorLogging.DaysLimited | src/app/core/services/error-logging.service.ts:238-241 | never more than 30 buckets; past the limit, the list is the 30 newest of a date-sorted permutation, and none dropped is newer than one kept |
| ErrorLogging.EntriesCapped | src/app/core/services/error-logging.service.ts:233-235 | if every bucket held at most 100 entries, every bucket still does after adding an entry |
| ErrorLogging.SurvivingBucketIsRecorded | src/app/core/services/error-logging.service.ts:205-241 | with distinct dates, any bucket of the entry's day that survives the limit is the recorded one |
| ErrorLogging.InsertByDateKeepsDistinct | src/app/core/services/error-logging.service.ts:239 | inserting a bucket of a new date keeps dates distinct |
| ErrorLogging.SortKeepsDistinctDates | src/app/core/services/error-logging.service.ts:239 | sorting keeps dates distinct |
| ErrorLogging.WithEntryKeepsDistinctDates | src/app/core/services/error-logging.service.ts:205-245 | `addLogEntry` keeps one bucket per date, so the hypothesis of SurvivingBucketIsRecorded holds in every reachable state |
| ErrorLogging.WithoutDateKeepsDistinctDates | src/app/core/services/error-logging.service.ts:187-191 | `clearLogsForDate` keeps dates distinct |
| ErrorLogging.ClearDateKeepsOrder | src/app/core/services/error-logging.service.ts:187-188 | clearing a date distributes over concatenation, so the kept buckets stay in order |
| ErrorLogging.ClearAbsentDate | src/app/core/services/error-logging.service.ts:187-188 | clearing a date no bucket has changes nothing |
| ErrorLogging.ErrorLoggingService.constructor | src/app/core/services/error-logging.service.ts:295-311 | a saved snapshot is loaded; a missing or unreadable one leaves the list empty |
| ErrorLogging.ErrorLoggingService.SaveLogsToStorage | src/app/core/services/error-logging.service.ts:316-322 | storage holds the current list, or is unchanged when the write fails |
| ErrorLogging.ErrorLoggingService.LogError | src/app/core/services/error-logging.service.ts:84-105 | disabled logging changes nothing; otherwise the list gains the built entry and is saved |
| ErrorLogging.ErrorLoggingService.LogErrorWithStack | src/app/core/services/error-logging.service.ts:113-121 | logs at level error with the spread stack data |
| ErrorLogging.ErrorLoggingService.AddLogEntry | src/app/core/services/error-logging.service.ts:205-245 | the in-place update yields exactly the bucket list the specification functions describe, then saves it |
| ErrorLogging.ErrorLoggingService.ClearLogsForDate | src/app/core/services/error-logging.service.ts:187-191 | the buckets of that date go and the list is saved |
| ErrorLogging.ErrorLoggingService.ClearAllLogs | src/app/core/services/error-logging.service.ts:196-199 | the list becomes empty and is saved |
| ErrorLogging.ErrorLoggingService.GetLogsForDate | src/app/core/services/error-logging.service.ts:143-147 | the bucket returned has the date and no earlier bucket has it; none exactly when no bucket has the date |
| ErrorLogging.ErrorLoggingService.GetAvailableDates | src/app/core/services/error-logging.service.ts:153-155 | every bucket date, newest first |
| ErrorInterceptor.ServerLevel | src/app/core/interceptors/error.interceptor.ts:28-48 | warn exactly for statuses 400 to 499, error otherwise |
| ErrorInterceptor.ServerMessage | src/app/core/interceptors/error.interceptor.ts:42 | the response's message, or "HTTP Error status: statusText" when that is empty |
| ErrorInterceptor.ValidationItems | src/app/core/interceptors/error.interceptor.ts:54-71 | the messages logged one by one are exactly the items of an array of errors in a server body; any other payload gives none |
| ErrorInterceptor.HandleError | src/app/core/interceptors/error.interceptor.ts:26-61 | a client error gives one error-level call with the event message; a server error gives the main call, one call per validation message at the same level, then the main call again |
| ErrorInterceptor.LogValidationErrors | src/app/core/interceptors/error.interceptor.ts:70-75 | appends one call per array item, in order; a non-array appends nothing |
| ErrorInterceptor.Intercept | src/app/core/interceptors/error.interceptor.ts:10-19 | the response or error passes through unchanged; a success logs nothing; a failure logs the same calls as `handleError`: one error call for a client event, or the main call, one per validation message, and the main call again |
| Auth.Get | src/app/core/services/auth.service.ts:201-204 | a value is read exactly when the key is stored, and it is the stored text |
| Auth.StoredUser | src/app/core/services/auth.service.ts:201-204 | missing, empty or falsy text gives no user; a found user is what the stored text parses to; parsing throws exactly on non-JSON text |
| Auth.TokenValid | src/app/core/services/auth.service.ts:232-240 | valid exactly when a second segment exists, its exp decodes, and exp times 1000 exceeds the current time in milliseconds |
| Auth.TokenValidUntilExpiry | src/app/core/services/auth.service.ts:232-240 | a three-segment token is valid exactly until its expiry instant |
| Auth.TokenValidityMonotone | src/app/core/services/auth.service.ts:232-240 | a token valid at some time was valid at every earlier time |
| Auth.Cleared | src/app/core/services/auth.service.ts:222-226 | exactly the three session keys are removed; all other keys keep their values |
| Auth.WithSession | src/app/core/services/auth.service.ts:207-214 | the three keys hold token, refresh token and serialized user; nothing else changes |
| Auth.LoginThenRestore | src/app/core/services/auth.service.ts:36-46 | a session written by login is restored at start-up exactly when its token is non-empty and valid |
| Auth.ClearedNotRestorable | src/app/core/services/auth.service.ts:222-229 | after clearing, no user is stored and no session can be restored |
| Auth.AuthService.constructor | src/app/core/services/auth.service.ts:25-31 | no user is published and the state is unauthenticated until initialisation runs |
| Auth.AuthService.InitializeAuth | src/app/core/services/auth.service.ts:36-46 | parsing a corrupt user aborts with no change; otherwise the stored user is published when restorable, else the session is cleared |
| Auth.AuthService.SetAuthData | src/app/core/services/auth.service.ts:207-214 | writes the three keys and publishes the user as authenticated |
| Auth.AuthService.ClearAuthData | src/app/core/services/auth.service.ts:222-229 | removes the three keys and publishes no user, unauthenticated |
| Auth.AuthService.Login | src/app/core/services/auth.service.ts:49-61 | a success starts the session; a failure changes nothing; the reply is passed on |
| Auth.AuthService.Logout | src/app/core/services/auth.service.ts:80-97 | the session is cleared whether the server call succeeds or fails |
| Auth.AuthService.RefreshToken | src/app/core/services/auth.service.ts:100-119 | with no refresh token the session is cleared and no request is made; a success starts a new session; a failure clears it |
| Auth.AuthService.UpdateProfile | src/app/core/services/auth.service.ts:123-131 | a success replaces only the current and the stored user; a failure changes nothing |
| Auth.AuthService.GetStoredToken | src/app/core/services/auth.service.ts:191-193 | the stored token exactly when one is stored |
| Auth.AuthService.GetStoredUser | src/app/core/services/auth.service.ts:201-204 | all three outcomes: no user for missing, empty or falsy text; the parse error of other non-JSON text; otherwise the parsed user |
| Auth.AuthService.IsAdmin | src/app/core/services/auth.service.ts:170-173 | false with nobody signed in; otherwise exactly when the role is admin |
| Auth.AuthService.IsInstructor | src/app/core/services/auth.service.ts:175-178 | false with nobody signed in; otherwise exactly when the role is instructor |
| Auth.AuthService.IsStudent | src/app/core/services/auth.service.ts:180-183 | false with nobody signed in; otherwise exactly when the role is student |
| Auth.RoleChecksExclusive | src/app/core/services/auth.service.ts:170-183 | with no user no role check holds; with a user exactly one holds, the one naming its role |
| CourseApplication.FindCourse | src/app/features/student-portal/course-application/course-application.component.ts:137-139 | the first course with the id; none exactly when no course has it |
| CourseApplication.DocumentIndex | src/app/features/student-portal/course-application/course-application.component.ts:178 | the first document with the id; none exactly when no document has it |
| CourseApplication.CanSubmit | src/app/features/student-portal/course-application/course-application.component.ts:166-171 | submission is possible exactly at step 4 when the guards of steps 1, 2 and 3 all hold |
| CourseApplication.CanProceed | src/app/features/student-portal/course-application/course-application.component.ts:153-164 | step 1 advances exactly when a marital status is chosen, step 2 exactly when a course is selected, step 3 exactly when every document is uploaded; any other step, 4 and beyond included, always advances |
| CourseApplication.WithFile | src/app/features/student-portal/course-application/course-application.component.ts:177-186 | with a file and a known id only that document changes, becoming uploaded with the file; otherwise nothing changes; ids and upload flags are never lost |
| CourseApplication.WithFileKeepsUploaded | src/app/features/student-portal/course-application/course-application.component.ts:162-186 | once every document is uploaded, choosing files keeps it so |
| CourseApplication.LastUploadUnlocksStep3 | src/app/features/student-portal/course-application/course-application.component.ts:162-186 | a file for the last missing document opens the step-3 guard |
| CourseApplication.CourseApplicationComponent.constructor | src/app/features/student-portal/course-application/course-application.component.ts:49-129 | step 1, empty application data, the four required documents not uploaded |
| CourseApplication.CourseApplicationComponent.SelectedCourseDetails | src/app/features/student-portal/course-application/course-application.component.ts:137-139 | the first course of the list with the selected id; none exactly when no course has it |
| CourseApplication.CourseApplicationComponent.NextStep | src/app/features/student-portal/course-application/course-application.component.ts:141-145 | advances by exactly one when the guard holds, otherwise stays |
| CourseApplication.CourseApplicationComponent.PreviousStep | src/app/features/student-portal/course-application/course-application.component.ts:147-151 | goes back only above step 1, so the cursor never drops below 1 |
| CourseApplication.CourseApplicationComponent.SelectCourse | src/app/features/student-portal/course-application/course-application.component.ts:173-175 | only the selected course changes |
| CourseApplication.CourseApplicationComponent.OnFileSelected | src/app/features/student-portal/course-application/course-application.component.ts:177-186 | the search-and-update loop yields exactly the list the specification function describes |
| CourseApplication.CourseApplicationComponent.SubmitApplication | src/app/features/student-portal/course-application/course-application.component.ts:166-201 | navigates to the dashboard exactly when the submit gate holds |
| Signup.HasNumberOrSymbol | src/app/features/auth/signup/signup.component.ts:80 | true exactly when some character is a digit or one of the listed symbols |
| Signup.PasswordValidator | src/app/features/auth/signup/signup.component.ts:72-89 | the empty password is valid; otherwise valid exactly when at least 8 long with a number or symbol; each error flag names its failed rule, and both can occur together |
| Signup.ErrorsOf | src/app/features/auth/signup/signup.component.ts:40-48 | a control is required-invalid exactly when empty, and the terms box exactly when unticked; `minlength` is 2 exactly for a non-empty name shorter than 2 characters; `email` exactly for a non-empty e-mail the validator rejects; `pattern` exactly for a non-empty phone number of the wrong shape |
| Signup.PasswordMismatch | src/app/features/auth/signup/signup.component.ts:94-101 | the group error is set exactly when the two entries differ; two empty entries match |
| Signup.FormValid | src/app/features/auth/signup/signup.component.ts:40-48 | the form is valid exactly when both names have 2 or more characters, the e-mail is valid, the phone has 9 or 10 digits, the password has 8 or more with a number or symbol, the confirmation equals it, and the terms are accepted |
| Signup.EmptyFormInvalid | src/app/features/auth/signup/signup.component.ts:40-48 | the initial form is invalid |
| Signup.Label | src/app/features/auth/signup/signup.component.ts:217-227 | the six known controls get "First Name", "Surname", "Email", "Phone Number", "Password" and "Confirm Password"; any other name is its own label |
| Signup.ErrorMessage | src/app/features/auth/signup/signup.component.ts:195-212 | required wins with "<label> is required", then the e-mail text, then "<label> must be at least <n> characters", then the phone text; empty exactly when none of required, email, minlength or pattern is set |
| Signup.FieldError | src/app/features/auth/signup/signup.component.ts:195-212 | an unknown control name gives no message; a known one gives the message chain applied to that control's validator errors |
| Signup.CustomPasswordErrorsUnreported | src/app/features/auth/signup/signup.component.ts:195-212 | a password failing only the custom rules shows no message, yet the form is invalid |
| Signup.EmailMessages | src/app/features/auth/signup/signup.component.ts:195-212 | an empty e-mail gives "Email is required", a rejected one "Please enter a valid email address", an accepted one no message |
| Signup.FirstNameMessages | src/app/features/auth/signup/signup.component.ts:195-212 | a one-character first name shows "First Name must be at least 2 characters"; a longer one shows no message |
| Signup.SurnameMessages | src/app/features/auth/signup/signup.component.ts:195-212 | a one-character surname shows "Surname must be at least 2 characters"; a longer one shows no message |
| Signup.NameMessage | src/app/features/auth/signup/signup.component.ts:195-212 | for either name control, a one-character value shows "<label> must be at least 2 characters" and a longer one no message |
| Signup.PhoneMessage | src/app/features/auth/signup/signup.component.ts:195-212 | the phone message appears exactly for a non-empty number of the wrong shape |
| Signup.NoPersonalInfoAsWritten | src/app/features/auth/signup/signup.component.ts:120-128 | as written, an empty first name always passes |
| Signup.NoPersonalInfo | src/app/features/auth/signup/signup.component.ts:120-128 | intended rule: true exactly when, ignoring case, the password contains none of the given first name, last name and e-mail local part; a given e-mail with an empty local part rejects every password |
| Signup.IntendedRuleIsStricter | src/app/features/auth/signup/signup.component.ts:120-128 | every password the intended rule accepts, the written rule accepts |
| Signup.AsWrittenAcceptsFirstName | src/app/features/auth/signup/signup.component.ts:120-128 | "john1234" with first name "john" passes the written rule and fails the intended one |
| Signup.EmptyLocalPartRejectsAll | src/app/features/auth/signup/signup.component.ts:122-128 | under the intended rule an e-mail starting with "@" rejects every password |
| Signup.RequirementsFor | src/app/features/auth/signup/signup.component.ts:106-132 | an empty password gives the initial flags; otherwise the length flag is `len >= 8`, the symbol flag follows the character class, and the personal-info flag is the expression as written; it is lit whenever the intended rule holds |
| Signup.IntendedRequirementsFor | src/app/features/auth/signup/signup.component.ts:106-132 | the record the intended rule would give: the same length and symbol flags, the personal-info flag by the intended rule |
| Signup.AsWrittenNeverWeaker | src/app/features/auth/signup/signup.component.ts:120-144 | the strength shown as written is never below the intended one, and differs only where the written flag lets personal details through |
| Signup.ValidatorAgreesWithRequirements | src/app/features/auth/signup/signup.component.ts:72-132 | for a non-empty password the validator passes exactly when the length and symbol flags are both lit |
| Signup.MetCount | src/app/features/auth/signup/signup.component.ts:138 | between 0 and 3; 0 exactly when no flag holds, 3 exactly when all do |
| Signup.Strength | src/app/features/auth/signup/signup.component.ts:137-144 | Very Weak, Weak, Fair or Strong exactly for 0, 1, 2 or 3 met flags |
| Signup.ValidFormStrength | src/app/features/auth/signup/signup.component.ts:106-144 | a valid form shows Strong when the written personal-info test passes, otherwise Fair |
| Signup.AsWrittenShowsStrong | src/app/features/auth/signup/signup.component.ts:120-144 | the valid form john/doe/x@y.com/john1234 shows Strong, although its password begins with the first name |
| Signup.SignupComponent.constructor | src/app/features/auth/signup/signup.component.ts:29-48 | empty form, nothing touched, not loading, initial requirement flags |
| Signup.SignupComponent.UpdatePasswordRequirements | src/app/features/auth/signup/signup.component.ts:106-132 | the field-by-field update yields the requirement flags of the password, with the personal-info flag as written |
| Signup.SignupComponent.SetPassword | src/app/features/auth/signup/signup.component.ts:51-56 | the new password re-evaluates the flags, the personal-info flag as written |
| Signup.SignupComponent.SetEmail | src/app/features/auth/signup/signup.component.ts:57-66 | a new e-mail re-evaluates the flags for the current password, the personal-info flag as written |
| Signup.SignupComponent.SetFirstName | src/app/features/auth/signup/signup.component.ts:57-66 | a new first name re-evaluates the flags for the current password, the personal-info flag as written |
| Signup.SignupComponent.SetLastName | src/app/features/auth/signup/signup.component.ts:57-66 | a new last name re-evaluates the flags for the current password, the personal-info flag as written |
| Signup.SignupComponent.GetPasswordStrength | src/app/features/auth/signup/signup.component.ts:137-144 | the strength label of the live requirement flags; Strong exactly when all three flags hold |
| Signup.SignupComponent.GetFieldError | src/app/features/auth/signup/signup.component.ts:195-212 | an unknown control name gives no message; a known one gives the message chain applied to that control's validator errors |
| Signup.SignupComponent.OnSubmit | src/app/features/auth/signup/signup.component.ts:149-175 | a valid form sends exactly first name, last name, e-mail and password and starts loading; an invalid one sends nothing and touches every control |
| Signup.SignupComponent.OnRegisterReply | src/app/features/auth/signup/signup.component.ts:160-170 | loading ends; a success goes to e-mail verification |
| EmailVerification.ErrorsOf | src/app/features/auth/email-verification/email-verification.component.ts:41-48 | `required` exactly for an empty control; `pattern` exactly for a non-empty value that is not one decimal digit; so no error exactly for one digit |
| EmailVerification.FormValid | src/app/features/auth/email-verification/email-verification.component.ts:41-48 | valid exactly when there are six controls and none has a required or pattern error; a valid form joins to six digits, the k-th being the k-th control's value |
| EmailVerification.ConcatOfSix | src/app/features/auth/email-verification/email-verification.component.ts:173-176 | the template literal of the six values is their join in order |
| EmailVerification.FieldError | src/app/features/auth/email-verification/email-verification.component.ts:205-216 | required wins over the single-digit message; empty exactly when there is no error |
| EmailVerification.LastTyped | src/app/features/auth/email-verification/email-verification.component.ts:136-138 | keeps only the last character of longer input |
| EmailVerification.TargetControl | src/app/features/auth/email-verification/email-verification.component.ts:149 | the control named is `nextFieldIndex` when present and non-zero; otherwise, absent or 0, the number in the input's id |
| EmailVerification.TickOf | src/app/features/auth/email-verification/email-verification.component.ts:181-188 | a running countdown drops by one and stops at zero; a stopped one is unchanged |
| EmailVerification.TicksOf | src/app/features/auth/email-verification/email-verification.component.ts:181-188 | repeated ticks keep the countdown within 0 to 60, running exactly while positive |
| EmailVerification.TicksCountDown | src/app/features/auth/email-verification/email-verification.component.ts:181-188 | after n ticks the countdown is `remaining - n`, or 0 |
| EmailVerification.ResendLocksFor60Ticks | src/app/features/auth/email-verification/email-verification.component.ts:181-188 | after a resend the timer runs for exactly 60 ticks |
| EmailVerification.EmailVerificationComponent.constructor | src/app/features/auth/email-verification/email-verification.component.ts:40-55 | six empty controls, no cooldown, the user id handed to the onboarding store, and back to sign-up when the e-mail or id is missing |
| EmailVerification.EmailVerificationComponent.GetVerificationCode | src/app/features/auth/email-verification/email-verification.component.ts:173-176 | the values of code1 to code6 in order, which is their join; on a valid form six digits, the k-th the k-th control |
| EmailVerification.EmailVerificationComponent.GetFieldError | src/app/features/auth/email-verification/email-verification.component.ts:205-216 | control n shows the message for the errors of its value: "This field is required" when empty, "Please enter a single digit" for a non-digit, nothing for one digit; unknown names have none |
| EmailVerification.EmailVerificationComponent.OnSubmit | src/app/features/auth/email-verification/email-verification.component.ts:61-99 | a valid form starts loading and sends user id, e-mail and the six-digit code; an invalid one sends nothing and touches all six controls |
| EmailVerification.EmailVerificationComponent.OnVerifyReply | src/app/features/auth/email-verification/email-verification.component.ts:68-94 | loading ends; a success clears the message and goes to onboarding; a failure shows the mismatch message |
| EmailVerification.EmailVerificationComponent.OnResendCode | src/app/features/auth/email-verification/email-verification.component.ts:105-118 | no-op while cooling down; otherwise the 60-second cooldown is set before the request, whatever its outcome |
| EmailVerification.EmailVerificationComponent.Tick | src/app/features/auth/email-verification/email-verification.component.ts:181-188 | one tick of the countdown |
| EmailVerification.EmailVerificationComponent.OnInputChange | src/app/features/auth/email-verification/email-verification.component.ts:132-151 | the input keeps its last character and only the named control, if it exists, takes that value |
| OtpCode.EmptyCode | src/app/features/auth/forgot-password-verify/forgot-password-verify.component.ts:23 | five empty slots |
| OtpCode.FirstEmpty | src/app/features/auth/forgot-password-verify/forgot-password-verify.component.ts:130 | none exactly when the code is complete; otherwise an empty slot with only filled slots before it |
| OtpCode.FocusAfterPaste | src/app/features/auth/forgot-password-verify/forgot-password-verify.component.ts:130-131 | the last slot for a complete code, otherwise the first empty slot |
| OtpCode.PasteDigits | src/app/features/auth/forgot-password-verify/forgot-password-verify.component.ts:117 | at most five digits, a prefix of the text's digits; all of them when there are at most five |
| OtpCode.Pasted | src/app/features/auth/forgot-password-verify/forgot-password-verify.component.ts:115-127 | every slot keeps its value or takes one digit; a buffer of accepted values stays one |
| OtpCode.PasteFillsPrefix | src/app/features/auth/forgot-password-verify/forgot-password-verify.component.ts:117-127 | the leading slots take the text's first digits, one each; later slots stay |
| OtpCode.PasteWithoutDigits | src/app/features/auth/forgot-password-verify/forgot-password-verify.component.ts:117-127 | text without digits changes nothing |
| OtpCode.PasteOfFiveDigitsCompletes | src/app/features/auth/forgot-password-verify/forgot-password-verify.component.ts:117-131 | five or more digits complete the code and focus the last slot |
| OtpCode.PasteIdempotent | src/app/features/auth/forgot-password-verify/forgot-password-verify.component.ts:117-127 | pasting the same text twice equals pasting it once |
| OtpCode.ShortPasteFocus | src/app/features/auth/forgot-password-verify/forgot-password-verify.component.ts:117-131 | fewer than five digits into an empty buffer focus the slot just after them |
| OtpCode.VerificationType | src/app/features/auth/forgot-password-verify/forgot-password-verify.component.ts:37 | the query parameter when present and non-empty; "email" when it is absent or empty |
| OtpCode.EmailParam | src/app/features/auth/forgot-password-verify/forgot-password-verify.component.ts:36 | exactly the e-mail parameter when it is present and non-empty, else none |
| OtpCode.RouteFor | src/app/features/auth/forgot-password-verify/forgot-password-verify.component.ts:165-171 | create-password exactly for "reset", sign-in for every other type |
| OtpCode.DefaultTypeLeadsToSignin | src/app/features/auth/forgot-password-verify/forgot-password-verify.component.ts:37 | with no type parameter verification leads to sign-in |
| OtpCode.WriteDigits | src/app/features/auth/forgot-password-verify/forgot-password-verify.component.ts:119-127 | the paste loop writes one digit per leading slot and nothing else |
| OtpCode.FindFirstEmpty | src/app/features/auth/forgot-password-verify/forgot-password-verify.component.ts:130 | the first empty slot, or -1 when none is empty |
| OtpCode.FirstEmptyIsFirst | src/app/features/auth/forgot-password-verify/forgot-password-verify.component.ts:130 | an empty slot preceded by filled ones is the first empty slot |
| ForgotPasswordVerify.ForgotPasswordVerifyComponent.constructor | src/app/features/auth/forgot-password-verify/forgot-password-verify.component.ts:23-47 | five empty slots, not loading, e-mail and type from the query |
| ForgotPasswordVerify.ForgotPasswordVerifyComponent.OnDigitInput | src/app/features/auth/forgot-password-verify/forgot-password-verify.component.ts:50-70 | only slot i changes: a single digit or the empty value is stored; anything else clears the slot and the input; focus moves on after a digit below the last slot |
| ForgotPasswordVerify.ForgotPasswordVerifyComponent.HandlePaste | src/app/features/auth/forgot-password-verify/forgot-password-verify.component.ts:115-140 | the buffer becomes the pasted buffer; with digits, focus goes to the first empty slot or the last |
| ForgotPasswordVerify.ForgotPasswordVerifyComponent.IsCodeComplete | src/app/features/auth/forgot-password-verify/forgot-password-verify.component.ts:143-145 | `every` slot filled holds exactly when `findIndex` finds no empty slot |
| ForgotPasswordVerify.ForgotPasswordVerifyComponent.OnVerify | src/app/features/auth/forgot-password-verify/forgot-password-verify.component.ts:148-155 | no-op when incomplete or loading; otherwise loading starts with the joined code |
| ForgotPasswordVerify.ForgotPasswordVerifyComponent.VerifyTimerFired | src/app/features/auth/forgot-password-verify/forgot-password-verify.component.ts:157-172 | loading ends and the route follows the verification type |
| ForgotPasswordVerify.ForgotPasswordVerifyComponent.OnResendCode | src/app/features/auth/forgot-password-verify/forgot-password-verify.component.ts:176-182 | no-op while loading; otherwise five empty slots |
| VerifyEmail.VerifyEmailComponent.constructor | src/app/features/auth/verify-email/verify-email.component.ts:16-40 | five empty slots, not loading, e-mail and type from the query |
| VerifyEmail.VerifyEmailComponent.OnDigitInput | src/app/features/auth/verify-email/verify-email.component.ts:42-62 | only slot i changes: a single digit or the empty value is stored; anything else clears it |
| VerifyEmail.VerifyEmailComponent.HandlePaste | src/app/features/auth/verify-email/verify-email.component.ts:106-131 | the buffer becomes the pasted buffer; focus goes to the first empty slot or the last |
| VerifyEmail.VerifyEmailComponent.IsCodeComplete | src/app/features/auth/verify-email/verify-email.component.ts:133-135 | `every` slot filled holds exactly when `findIndex` finds no empty slot |
| VerifyEmail.VerifyEmailComponent.OnVerify | src/app/features/auth/verify-email/verify-email.component.ts:137-144 | no-op when incomplete or loading; otherwise loading starts with the joined code |
| VerifyEmail.VerifyEmailComponent.VerifyTimerFired | src/app/features/auth/verify-email/verify-email.component.ts:146-164 | loading ends and the route follows the verification type |
| VerifyEmail.VerifyEmailComponent.OnResendCode | src/app/features/auth/verify-email/verify-email.component.ts:167-173 | no-op while loading; otherwise five empty slots |
| CreatePassword.PasswordErrorsOf | src/app/features/auth/create-password/create-password.component.ts:32 | `required` exactly for the empty password; `minlength` exactly for a non-empty one shorter than 8 characters; no error exactly from 8 characters on |
| CreatePassword.MatchValidator | src/app/features/auth/create-password/create-password.component.ts:41-57 | the group errs exactly when the values differ; a mismatch replaces the confirmation's errors; a match clears a mismatch and keeps any other error |
| CreatePassword.ValidIffMatchingAndLong | src/app/features/auth/create-password/create-password.component.ts:31-57 | in every reachable state the form is valid exactly when both values agree and have at least 8 characters |
| CreatePassword.PasswordEditConsistent | src/app/features/auth/create-password/create-password.component.ts:41-57 | editing the password keeps the error state consistent |
| CreatePassword.ConfirmEditConsistent | src/app/features/auth/create-password/create-password.component.ts:34-57 | editing the confirmation keeps the error state consistent |
| CreatePassword.PasswordMessage | src/app/features/auth/create-password/create-password.component.ts:106-120 | required wins with "This field is required", then "Password must be at least 8 characters long"; empty exactly when there is no error |
| CreatePassword.ConfirmMessage | src/app/features/auth/create-password/create-password.component.ts:106-120 | required wins with "This field is required", then "Passwords do not match"; empty exactly when there is no error |
| CreatePassword.EmptyConfirmationShowsMismatch | src/app/features/auth/create-password/create-password.component.ts:41-57 | emptying the confirmation under a typed password shows the mismatch, not the required message |
| CreatePassword.CreatePasswordComponent.constructor | src/app/features/auth/create-password/create-password.component.ts:28-36 | both controls empty, the confirmation required, not loading |
| CreatePassword.CreatePasswordComponent.IsFormValid | src/app/features/auth/create-password/create-password.component.ts:31-57 | valid exactly when both values agree and have at least 8 characters |
| CreatePassword.CreatePasswordComponent.SetPassword | src/app/features/auth/create-password/create-password.component.ts:41-57 | the new password runs the match validator and keeps the state consistent |
| CreatePassword.CreatePasswordComponent.SetConfirmPassword | src/app/features/auth/create-password/create-password.component.ts:34-57 | the confirmation's own required check runs, then the match validator |
| CreatePassword.CreatePasswordComponent.GetErrorMessage | src/app/features/auth/create-password/create-password.component.ts:106-120 | the password control shows the password message of its current errors, the confirmation control that of its own errors, and an unknown name no message |
| CreatePassword.CreatePasswordComponent.OnSubmit | src/app/features/auth/create-password/create-password.component.ts:60-79 | a valid form starts loading; an invalid one only touches the controls |
| CreatePassword.CreatePasswordComponent.SubmitTimerFired | src/app/features/auth/create-password/create-password.component.ts:70-89 | loading ends and the user goes to sign-in |
| CreatePassword.CreatePasswordComponent.OnSkip | src/app/features/auth/create-password/create-password.component.ts:82-89 | goes to sign-in |
| OnboardingData.OnboardingDataService.constructor | src/app/features/onboarding/OnboardingDataService.ts:7-10 | all four cells start empty |
| OnboardingData.OnboardingDataService.SetStep1Data | src/app/features/onboarding/OnboardingDataService.ts:12-14 | overwrites only the step-1 cell |
| OnboardingData.OnboardingDataService.SetUserId | src/app/features/onboarding/OnboardingDataService.ts:15-17 | overwrites only the user-id cell |
| OnboardingData.OnboardingDataService.SetStep2Data | src/app/features/onboarding/OnboardingDataService.ts:25-27 | overwrites only the step-2 cell |
| OnboardingData.OnboardingDataService.SetUserData | src/app/features/onboarding/OnboardingDataService.ts:28-30 | overwrites only the login-details cell |
| OnboardingData.OnboardingDataService.GetFinalData | src/app/features/onboarding/OnboardingDataService.ts:39-45 | step-1 data as student, step-2 data as additional details, the argument as next of kin |
| OnboardingData.SettersAreIndependent | src/app/features/onboarding/OnboardingDataService.ts:12-45 | each getter returns what its own setter last stored, whatever the others did |
| OnboardingStep1.FormValid | src/app/features/onboarding/onboarding-step1/onboarding-step1.component.ts:45-56 | valid exactly when none of title, nationality, date of birth, gender, disability and contact number is empty; so the empty form is invalid |
| OnboardingStep1.OptionalFieldsIgnored | src/app/features/onboarding/onboarding-step1/onboarding-step1.component.ts:45-56 | the special-needs note, the alternate number and the user id never decide validity |
| OnboardingStep1.StudentName | src/app/features/onboarding/onboarding-step1/onboarding-step1.component.ts:67-69 | never empty; the fallback name without login details |
| OnboardingStep1.TrimUntouched | src/app/features/onboarding/onboarding-step1/onboarding-step1.component.ts:68 | trimming text without outer white space changes nothing |
| OnboardingStep1.StudentNameJoinsParts | src/app/features/onboarding/onboarding-step1/onboarding-step1.component.ts:67-69 | two unpadded name parts give exactly "first last" |
| OnboardingStep1.StudentNameFirstOnly | src/app/features/onboarding/onboarding-step1/onboarding-step1.component.ts:67-69 | an unpadded first name alone gives exactly that name, the separator trimmed |
| OnboardingStep1.StudentNameLastOnly | src/app/features/onboarding/onboarding-step1/onboarding-step1.component.ts:67-69 | an unpadded surname alone gives exactly that name, the separator trimmed |
| OnboardingStep1.StudentNameBlank | src/app/features/onboarding/onboarding-step1/onboarding-step1.component.ts:67-69 | name parts that are absent or only white space give the fallback name |
| OnboardingStep1.StudentNameFallback | src/app/features/onboarding/onboarding-step1/onboarding-step1.component.ts:67-69 | no name parts give the fallback name |
| OnboardingStep1.PayloadEmail | src/app/features/onboarding/onboarding-step1/onboarding-step1.component.ts:73 | the login e-mail when present, even empty; the default only when it is missing |
| OnboardingStep1.Payload | src/app/features/onboarding/onboarding-step1/onboarding-step1.component.ts:64-73 | the form values kept, the user id from the store, and the name and e-mail added |
| OnboardingStep1.ProgressPercentage | src/app/features/onboarding/onboarding-step1/onboarding-step1.component.ts:162-164 | the nearest integer to step/total times 100, halves rounded up |
| OnboardingStep1.Step1Progress | src/app/features/onboarding/onboarding-step1/onboarding-step1.component.ts:146-164 | step 1 of 3 shows 33 |
| OnboardingStep1.OnboardingStep1Component.constructor | src/app/features/onboarding/onboarding-step1/onboarding-step1.component.ts:44-55 | an empty form, not loading, nothing scheduled |
| OnboardingStep1.OnboardingStep1Component.OnSubmit | src/app/features/onboarding/onboarding-step1/onboarding-step1.component.ts:61-86 | a valid form starts loading and schedules its payload; an invalid one stores nothing and touches every control |
| OnboardingStep1.OnboardingStep1Component.OnSubmitTimerFired | src/app/features/onboarding/onboarding-step1/onboarding-step1.component.ts:76-82 | loading ends, the payload becomes the step-1 data, and the learner goes to step 2 |
| OnboardingStep1.OnboardingStep1Component.GetProgressPercentage | src/app/features/onboarding/onboarding-step1/onboarding-step1.component.ts:162-164 | 33 |
| MyEnrollment.GradeClass | src/app/features/student-portal/my-enrollment/my-enrollment.component.ts:120-134 | empty exactly for an empty grade; first character A, B or C gives excellent, good or average; anything else gives poor |
| MyEnrollment.OnlyFirstCharacterMatters | src/app/features/student-portal/my-enrollment/my-enrollment.component.ts:123 | grades sharing a first character share a class |
| MyEnrollment.LowerCaseIsPoor | src/app/features/student-portal/my-enrollment/my-enrollment.component.ts:131-132 | a lower-case first letter gives poor |

## Left out

- Browser effects are not modelled: element focus and `select`, `alert`, `console` output, `window` error listeners (`initializeLogging`) and the Blob download of `downloadLogsForDate` and `formatLogsForDownload`.
- `onKeyDown` and `onBackspace` are not modelled. They only dispatch keys to focus moves and a slot clear.
- Reading the clipboard is not modelled. The pasted text is a parameter, and a failed read is not modelled.
- `generateId`, `new Date()` and `toISOString` are left out. The id and the ISO timestamp text are parameters.
- Auth.AuthService.constructor: construction and `initializeAuth` are two steps in the model. The source calls `initializeAuth` at the end of its constructor; here a caller runs `InitializeAuth` separately, and may skip it.
- `wrapAsyncOperation` is left out because it is a promise wrapper around `logErrorWithStack`.
- The `logError` calls made by the auth service and the components are not modelled, and neither are the observable emissions to subscribers. The model keeps the values held by the subjects.
- `MAX_LOG_ENTRIES` is declared by the log store and never used, so it is not modelled.
- Serialisation of the log list is not modelled. Storage holds the list itself, or an absent or unreadable snapshot.
- Buckets are values. Sharing of a bucket object between the subject and the copied list is not modelled.
- The interceptor's own instance of the log store is not modelled. Its log calls are recorded as a trace of calls.
- `JSON.parse`, `JSON.stringify` and `atob` are abstract functions. The `exp` claim is an integer.
- `trim` and `toLowerCase` cover ASCII only. White space is the ASCII white space, and Unicode case mapping is not modelled.
- The HTTP calls `register`, `changePassword` and `forgotPassword` of the session store are left out because they do not touch its state.
- The request and retry details of every HTTP call are left out. Each call is reduced to its reply.
- `isFieldInvalid` is left out because it depends on the dirty and touched state of the rendered controls.
- Navigation back, such as `onBack` and `navigateToSignIn`, is left out. Only the routes that follow an outcome are recorded.
- The `ngOnDestroy` clearing of the resend interval is not modelled.
- A chosen course-application file is kept by its name only.
- CourseApplication.CourseApplicationComponent.constructor does not model the learner's `userInfo` display record. Only the console log of `submitApplication` reads it.
- Signup.PasswordValidator counts a password's length in characters (`|p|`), whereas JavaScript's `length` counts UTF-16 code units. A password of four emoji has length 8 in the source and passes `minLength`; here it is reported too short. The two agree on text without characters outside the Basic Multilingual Plane.
- Signup.ErrorsOf counts the names' `minLength(2)` in characters, not UTF-16 code units, for the same reason.
- Signup.FormValid inherits the character count of Signup.ErrorsOf and Signup.PasswordValidator.
- Signup.RequirementsFor computes the length flag `len >= 8` in characters, not UTF-16 code units.
- CreatePassword.PasswordErrorsOf counts `minLength(8)` in characters, not UTF-16 code units.
- EmailVerification.LastTyped keeps the last character, whereas `slice(-1)` keeps the last UTF-16 code unit, half of a surrogate pair for a character outside the Basic Multilingual Plane.
- Signup.SignupComponent keeps the personal-info flag exactly as the source computes it (see "## Findings"). The intended rule, Signup.NoPersonalInfo, is stated beside it, and Signup.IntendedRequirementsFor and Signup.AsWrittenNeverWeaker relate the two records.
- String ordering for the date sort uses Unicode scalar-value order instead of UTF-16 code-unit order and `localeCompare`. Scalar-value order agrees with code-unit order on ASCII, and all three agree on `YYYY-MM-DD` keys.
- The sign-up success route follows the code (`/auth/verify-email`). The component's test expects `/auth/verification`.

## Findings

| source | as written | input that shows it | evidently intended | confidence | as-written member | corrected member |
|---|---|---|---|---|---|---|
| src/app/features/auth/signup/signup.component.ts:120-128 | `&&` binds tighter than `\|\|`, so the check reads `!fn \|\| (!p⊇fn && !ln) \|\| (!p⊇ln && !em) \|\| !p⊇localpart`, and a password naming the user passes once any one disjunct holds | password "john1234", first name "john", last name "doe", e-mail "x@y.com": passes, because the local part "x" is absent | the password contains none of the non-empty first name, last name or e-mail local part | not executed | Signup.AsWrittenAcceptsFirstName | Signup.NoPersonalInfo |
