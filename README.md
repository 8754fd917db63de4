# BerkeleyFind onboarding and profile rules, in Dafny

BerkeleyFind is a student-matching web app. A new user is onboarded in a
fixed order of steps. Each user record carries a `userStatus`: `startprofile`,
then `startcourses`, then `startstudypref`, then `explore`. This project models
the decision logic beneath the user interface and proves properties of it:

- **The three save actions** (`saveUserBasicInfo`, `saveUserCourseInfo`,
  `saveUserStudyPreferences`).
  - Each one authorises the caller against its allowed statuses.
  - The basic-info save maps a failed fetch of the stored user to an error
    response. It reconciles the one hosted profile image by the rule
    "destroy the old one, upload the new one, store it", or clears it.
  - The basic-info save builds its `$set` update field by field. It includes a
    profile field only when the submitted value differs from the stored one.
  - Each action moves the status one step forward, and only from its own
    step.
  - The actions are imperative methods (module `UserInfoModifyActions`). A
    method returns the response, the database write (a user id and an update
    set) and a trace of image-host calls.
- **The profile edit form** (module `ProfileEditForm`). It covers:
  - the default values;
  - the per-field rules (required fields, the graduation-year range, the bio
    word limit, the URL patterns);
  - the select clearing that stores `""`;
  - `checkForErrors`, a loop that counts the failing fields and picks the
    notification text.
- **Two page gates** (module `Pages`). They are the study-times onboarding
  page and the login page. Each chooses between a redirect and a render,
  based on the session and its status.
- **The onboarding funnel** (module `Onboarding`). It is the status order
  and the effect of a save on the status. Its main results:
  - A sequence of successful saves reaches `explore` exactly when it contains
    the remaining steps in order.
  - No save moves a status backward, provided the session check reports
    the status stored in the user's record (see "Left out").
- **Cross-module facts** (module `Funnel`). It covers an untouched form
  submitted through the basic-info save, and a new user who runs the three
  real save methods in order against a stored document.

Records are modelled as follows (module `Records`):
- A stored user is a map from field to value. An absent key is JavaScript's
  `undefined`.
- The database write is MongoDB's `$set`, which is map union.
- JavaScript's `!==` uses `Differs`. Truthiness uses `Truthy`.

Outside collaborators become inputs:
- The session check is a function from the allowed status names to its
  result.
- The fetch of the stored user is an optional response. `None` means the call
  threw.
- The image host's destroy and upload, and the database write, are given as
  their outcomes. A failed call corresponds to the exception the action
  catches.
- The email, Facebook and Instagram patterns and JavaScript's `Number(...)`
  are parameters of the form rules.
- The status-to-URL table is a parameter over the four statuses.

Three behaviours of the source are modelled as written:
- When the submitted image equals the stored URL, there is no upload, and the
  `profileImage` and `profileImagePublicID` keys are set to null wherever
  they are set. The form starts with the stored URL as its image, so a save
  that leaves the image untouched clears the stored image.
  `Funnel.UntouchedImageIsCleared` states this.
- The study-preferences save reports a failure with the course-list message
  "Error in modifying user course list".
- A stored user that comes back with a status below 400 but without a
  `user` makes the action read a field of `undefined`. The action's catch
  then answers with the basic-info failure message.

## Model

| member | source | states |
|---|---|---|
| Onboarding.AllowedNames | src/app/actions/UserInfoModifyActions.ts:25-28 | a save passes the session check exactly two names: `explore` and the status of the save's own step; every name in the list names an allowed status |
| Onboarding.Advance | src/app/actions/UserInfoModifyActions.ts:98-99 | a save writes a status exactly when the session status names the save's own pre-state, and then it writes the next status |
| Onboarding.AdvanceIsOneStepForward | src/app/actions/UserInfoModifyActions.ts:98-99 | a save writes a status only when the session holds its own step's status, and the written status is exactly one rank later |
| Onboarding.ExploreNeverAdvances | src/app/actions/UserInfoModifyActions.ts:142-143 | an `explore` caller's status is never written, by any of the three saves |
| Onboarding.AfterSaveForward | src/app/actions/UserInfoModifyActions.ts:180-181 | a successful save moves an allowed status forward by zero or one rank, and changes it exactly when the status is the save's pre-state |
| Onboarding.WrittenStatus | src/app/actions/UserInfoModifyActions.ts:103-105 | applying a save's update to a record holding status `s` leaves the stored status at `AfterSave(step, s)` |
| Onboarding.RunNeverRegresses | src/app/actions/UserInfoModifyActions.ts:98-99 | no sequence of successful saves lowers the status rank (the status being the one the session check reports) |
| Onboarding.RunAdvancesAtMostOnePerSave | src/app/actions/UserInfoModifyActions.ts:142-143 | a sequence of saves raises the rank by at most its length |
| Onboarding.ExploreIsTerminal | src/app/actions/UserInfoModifyActions.ts:180-181 | once at `explore`, every sequence of saves stays at `explore` |
| Onboarding.ReachesExploreIff | src/app/actions/UserInfoModifyActions.ts:98-99 | a sequence of successful saves from status `s` ends at `explore` exactly when the steps still remaining from `s` occur in it in order (both directions) |
| Onboarding.ThreeSavesReachExplore | src/app/actions/UserInfoModifyActions.ts:142-143 | basic info, courses and study preferences, saved in that order from `startprofile`, reach `explore` |
| Onboarding.OutOfOrderSavesFallShort | src/app/actions/UserInfoModifyActions.ts:180-181 | saving courses before basic info leaves a new user at `startcourses` after all three saves |
| Onboarding.Parse | src/app/actions/UserInfoModifyActions.ts:98 | reading a status name back gives a status whose name is that string |
| Records.ApplySet | src/app/actions/UserInfoModifyActions.ts:103-105 | the `$set` result has the keys of both maps, the update's values win, and every other stored key keeps its value |
| UserInfoModifyActions.OldUser | src/app/actions/UserInfoModifyActions.ts:53-67 | a stored user is available only from a fetch that returned with a status below 400; a fetch below 400 that carries a user yields exactly that user |
| UserInfoModifyActions.NewImage | src/app/actions/UserInfoModifyActions.ts:71 | the submitted image counts as new exactly when it is non-empty and is not the stored image URL |
| UserInfoModifyActions.ImagePlan | src/app/actions/UserInfoModifyActions.ts:71-83 | image-host calls are planned exactly for a new image; the plan has at most two calls; the upload to the `berkeleyfind` folder comes last; it is preceded by a destroy exactly when a public ID is stored, and that destroy names the stored public ID |
| UserInfoModifyActions.ImageCalls | src/app/actions/UserInfoModifyActions.ts:72-80 | the calls actually made are a prefix of the plan; when the destroy throws, the trace is that destroy alone and no upload follows; otherwise the whole plan is made |
| UserInfoModifyActions.ReturnedImage | src/app/actions/UserInfoModifyActions.ts:110-113 | the returned image is the one the `$set` leaves stored: the update's value when the key is in the update (null included), the stored one otherwise |
| UserInfoModifyActions.ReconcileImage | src/app/actions/UserInfoModifyActions.ts:71-87 | the trace is exactly the calls made, which stop after a destroy that throws; `ok` holds exactly when no call throws; on success, the update holds the upload's URL and public ID for a new image, and otherwise null for each stored truthy key |
| UserInfoModifyActions.DiffedFieldsAreTheProfileFields | src/app/actions/UserInfoModifyActions.ts:89-97 | the comparison order names each of the nine profile fields exactly once |
| UserInfoModifyActions.AddChangedFields | src/app/actions/UserInfoModifyActions.ts:89-97 | each of the nine fields is in the update exactly when the submitted value differs from the stored one, and then carries the submitted value; no other key changes |
| UserInfoModifyActions.SaveWithOldUser | src/app/actions/UserInfoModifyActions.ts:69-121 | given the stored user, the trace is exactly the calls made, cut after a destroy that throws; the save writes exactly when every image call and the write succeed; the write goes to the session's id and holds only profile, image and status keys as specified; a 200 returns the image the write leaves stored; any failure answers 500 with the fixed message |
| UserInfoModifyActions.SaveUserBasicInfo | src/app/actions/UserInfoModifyActions.ts:22-122 | a refused session answers 401 with no write and no image call; a fetch status of 500 or 404 is mapped to its fixed error, and any other status of 400 or more is returned unchanged, without effects; once the stored user is known, the trace is exactly the calls made, so a destroy that throws prevents the upload; the write happens exactly when every call before it succeeds, and 200 is answered exactly when it happens |
| UserInfoModifyActions.SaveUserCourseInfo | src/app/actions/UserInfoModifyActions.ts:124-158 | 401 with no write for a refused session; otherwise the update holds the submitted course list wholesale plus the optional status advance, a 200 echoes the list, and a failed write answers 500 |
| UserInfoModifyActions.SaveUserStudyPreferences | src/app/actions/UserInfoModifyActions.ts:160-199 | 401 with no write for a refused session; otherwise the update holds the submitted preferences wholesale plus the optional advance to `explore`, a 200 echoes them, and a failed write answers 500 |
| ProfileEditForm.DefaultValues | src/app/profile/_components/ProfileEditForm.tsx:121-132 | every form default equals its prop; the image field starts at the stored image URL |
| ProfileEditForm.Split | src/app/profile/_components/ProfileEditForm.tsx:170 | a split on a single character has at least one piece, and no piece holds the separator |
| ProfileEditForm.SplitLength | src/app/profile/_components/ProfileEditForm.tsx:168-174 | splitting on a character yields one more piece than the string has occurrences of it |
| ProfileEditForm.SplitJoin | src/app/profile/_components/ProfileEditForm.tsx:168-174 | joining the pieces of a split with the separator gives back the string |
| ProfileEditForm.InvalidYear | src/app/profile/_components/ProfileEditForm.tsx:158-162 | a year fails the validate rule unless it is a finite number within [2000, 2100]; NaN and both infinities fail |
| ProfileEditForm.FieldError | src/app/profile/_components/ProfileEditForm.tsx:135-190 | a field reports only its own rules' messages; a required field reports its required message exactly when it is empty; an empty Facebook or Instagram URL reports nothing |
| ProfileEditForm.GradYearAccepted | src/app/profile/_components/ProfileEditForm.tsx:155-166 | the graduation year is accepted exactly when it is non-empty, converts to a number (not NaN, not infinite) and lies in [2000, 2100] |
| ProfileEditForm.BioWordLimit | src/app/profile/_components/ProfileEditForm.tsx:168-174 | the bio is rejected exactly when it contains at least 50 spaces |
| ProfileEditForm.EmptyBioAccepted | src/app/profile/_components/ProfileEditForm.tsx:168-174 | the empty bio is accepted |
| ProfileEditForm.RequiredFields | src/app/profile/_components/ProfileEditForm.tsx:135-190 | an empty first name, last name, email, major or graduation year fails with its own message; an empty bio, Facebook URL or Instagram URL passes |
| ProfileEditForm.PronounsNeverValidated | src/app/profile/_components/ProfileEditForm.tsx:206-214 | changing the pronouns changes no field's verdict |
| ProfileEditForm.SelectedValue | src/app/profile/_components/ProfileEditForm.tsx:497-499 | a cleared select stores `""`, never null, and a chosen one stores the option's value |
| ProfileEditForm.ClearedMajorIsRequired | src/app/profile/_components/ProfileEditForm.tsx:370 | clearing the major select stores `""`, which fails the major's required rule |
| ProfileEditForm.FailingIsExactlyInvalid | src/app/profile/_components/ProfileEditForm.tsx:206-255 | a field is among the failures exactly when it is triggered and its rules fail |
| ProfileEditForm.FailingCountsInvalidFields | src/app/profile/_components/ProfileEditForm.tsx:206-255 | the number of failures equals the number of form fields whose rules fail |
| ProfileEditForm.SingleFailure | src/app/profile/_components/ProfileEditForm.tsx:257-269 | when exactly one field fails, the failures are that field alone, so its own message is shown |
| ProfileEditForm.CheckForErrors | src/app/profile/_components/ProfileEditForm.tsx:206-270 | the error count is the number of failing triggered fields; no notification with zero failures, the failing field's own message with one, and "Please check your information." with more |
| Pages.StatusTarget | src/app/start/studytimes/page.tsx:12 | the redirect target is the URL of the status the session names, and undefined for a string that names no status |
| Pages.StudyTimesPage | src/app/start/studytimes/page.tsx:8-33 | there is no session: redirect to `/login?redirect=true` (checked first); the status is set and is not `startstudypref`: redirect to that status's URL; otherwise render the form with no week times, in onboarding mode |
| Pages.LoginPage | src/app/login/page.tsx:8-19 | a session with a set status redirects to that status's URL; otherwise the layout renders, with `fromRedirect` being the `redirect` parameter or "false" when there is none |
| Pages.StudyTimesOnlyAtItsStep | src/app/start/studytimes/page.tsx:11-12 | a session holding an onboarding status renders the form exactly at `startstudypref`, and redirects to its status's URL at every other status |
| Pages.SignedInUsersSkipLogin | src/app/login/page.tsx:13-15 | a session holding an onboarding status is always redirected to its status's URL |
| Pages.GuestsLandOnLogin | src/app/login/page.tsx:17-19 | a visitor without a session is sent by the study-times page to the login page, which renders and records that it was reached by a redirect |
| Pages.UnsetStatusRenders | src/app/start/studytimes/page.tsx:11-14 | a session with an unset or empty status renders both the study-times form and the login layout |
| Pages.RedirectParamOf | src/app/start/studytimes/page.tsx:10 | the login URL the study-times page redirects to carries `redirect=true` |
| Funnel.UntouchedImageIsCleared | src/app/profile/_components/ProfileEditForm.tsx:121-123 | a form saved without touching the image makes no image-host call and sets the stored image to null, and the response returns null |
| Funnel.UntouchedFormChangesNoProfileField | src/app/actions/UserInfoModifyActions.ts:89-97 | when the stored profile equals the form's props, an untouched form writes none of the nine profile fields |
| Funnel.BasicInfoStep | src/app/actions/UserInfoModifyActions.ts:98-99 | a successful basic-info save by a `startprofile` user answers 200 and leaves the stored status at `startcourses` |
| Funnel.CoursesStep | src/app/actions/UserInfoModifyActions.ts:141-151 | a successful course save by a `startcourses` user answers 200 and stores the list and `startstudypref` |
| Funnel.StudyPreferencesStep | src/app/actions/UserInfoModifyActions.ts:179-192 | a successful preferences save by a `startstudypref` user answers 200, stores the preferences and `explore`, and keeps the stored course list |
| Funnel.OnboardNewUser | src/app/actions/UserInfoModifyActions.ts:22-199 | the three real saves, run in order from `startprofile` with all outside calls succeeding, answer 200 each and leave the user at `explore` with the submitted courses and preferences stored |

## Left out

- The image host, the database and the session check are not called. Their
  results are inputs: the session check's answer, the fetched response, and
  whether the destroy, the upload and the write succeed.
- The Cloudinary configuration and the database connection have no
  observable effect in the model.
- JSON encoding and decoding of requests and responses are not modelled.
  Responses are a typed datatype.
- The payload is assumed to carry every field as a string. A field missing
  from the payload (JavaScript `undefined`) is not modelled. The graduation
  year is stored as a string.
- The email, Facebook and Instagram regular expressions are parameters.
  Their exact languages are not modelled.
- JavaScript's `Number(...)` conversion of the graduation year is a
  parameter. Floating-point behaviour is not modelled; finite values are
  reals.
- `statusToURL` is a parameter over the four statuses. Its URLs are defined
  in a file that is not part of this model.
- Rendering, toasts, the image dropzone and file reader, router navigation
  and the form library's internals are not modelled. Neither is the
  `errors` object the source reads after each trigger: the model uses each
  field's own verdict at the moment it is triggered.
- `ProfileEditForm.CheckForErrors`: the eight awaited `trigger` calls and
  their eight `if` blocks are modelled as one loop over the fields in the
  same order.
- `UserInfoModifyActions.AddChangedFields`: the nine `if` statements of the
  diff are modelled as one loop over the fields in the same order.
- The funnel results (`Onboarding.AfterSave`, `Onboarding.Run`,
  `Onboarding.WrittenStatus` and the `Funnel` steps) assume that the status
  the session check reports is the status stored in the user's record. The
  actions compare the session's status, and the session check is not part of
  this model. With a stale session (it reports `startprofile` for a record at
  `startstudypref`), `UserInfoModifyActions.SaveUserBasicInfo` writes
  `startcourses` and moves the stored status backward.
- Session, fetch and write are modelled as one call each. Concurrent saves,
  and which of two writes wins, are out of scope.
- The form's submit (`handleSubmitForm`) and the route between the form and
  the action are not modelled. `Funnel.ToPayload` assumes the form's values
  reach the action field for field.
- The request and response type definitions are used only for the shapes of
  `Course` and `StudyPreferences`, which stay opaque. The admin role route
  forwards to code that is not part of this model.
