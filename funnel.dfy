/**
 * The form, the save actions and the onboarding statuses taken together: what
 * an untouched profile form does to the stored user, and the three onboarding
 * saves run one after another against a stored document.
 */
module Funnel {
  import opened Wrappers
  import opened Records
  import opened Onboarding
  import opened ProfileEditForm
  import opened UserInfoModifyActions

  /** The body the form posts for a save: its values, field for field. */
  function ToPayload(v: FormValues): BasicInfoPayload {
    BasicInfoPayload(v.email, v.profileImageFile, v.firstName, v.lastName, v.major,
                     v.gradYear, v.userBio, v.pronouns, v.fbURL, v.igURL)
  }

  /**
   * Submitting the form without touching the image resubmits the stored URL,
   * which is not a new image: nothing is uploaded, and because the stored URL
   * is truthy the save sets the profile image to null and returns null.
   */
  lemma UntouchedImageIsCleared(
    props: ProfileEditFormProps, oldUser: Document, uploaded: Option<UploadResult>, upd: UpdateSet)
    requires props.profileImage != ""
    requires Get(oldUser, ProfileImage) == Some(Str(props.profileImage))
    requires ImageEffect(ToPayload(DefaultValues(props)).profileImageFile, oldUser, uploaded, upd)
    ensures ImagePlan(ToPayload(DefaultValues(props)).profileImageFile, oldUser) == []
    ensures Get(upd, ProfileImage) == Some(Null)
    ensures ReturnedImage(oldUser, upd) == Some(Null)
  {
    assert !NewImage(props.profileImage, oldUser);
  }

  /** When the stored profile matches the props, an untouched form writes none of the nine profile fields. */
  lemma UntouchedFormChangesNoProfileField(
    props: ProfileEditFormProps, oldUser: Document, upd: UpdateSet)
    requires forall f :: IsScalar(f) ==>
      Get(oldUser, f) == Some(Str(Submitted(ToPayload(DefaultValues(props)), f)))
    requires ScalarDiff(ToPayload(DefaultValues(props)), oldUser, upd)
    ensures forall f :: IsScalar(f) ==> Get(upd, f) == None
  {
  }

  /** The stored status as a string, "" when it is missing or not a string. */
  function StoredStatus(doc: Document): string {
    match Get(doc, UserStatus)
    case Some(Str(s)) => s
    case _ => ""
  }

  /** A session resolver for the user `id` whose session status is the stored one. */
  function SessionFor(id: UserId, doc: Document): seq<string> -> SessionCheck {
    var status := StoredStatus(doc);
    (allowed: seq<string>) => SessionCheck(status in allowed, id, status)
  }

  /** The basic-info save of a `startprofile` user whose calls all succeed, applied to the stored document. */
  method BasicInfoStep(id: UserId, doc: Document, basic: BasicInfoPayload, uploaded: UploadResult)
    returns (next: Document, status: int)
    requires Get(doc, UserStatus) == Some(Str(Name(StartProfile)))
    ensures Get(next, UserStatus) == Some(Str(Name(StartCourses)))
    ensures status == 200
  {
    var response, write, _ := SaveUserBasicInfo(
      basic, SessionFor(id, doc), Some(ActionResponse(200, UserData(doc))), true, Some(uploaded), true);
    WrittenStatus(SaveBasicInfo, StartProfile, doc, write.value.fields);
    next := ApplySet(doc, write.value.fields);
    status := response.status;
  }

  /** The course save of a `startcourses` user whose write succeeds, applied to the stored document. */
  method CoursesStep(id: UserId, doc: Document, courses: seq<Course>)
    returns (next: Document, status: int)
    requires Get(doc, UserStatus) == Some(Str(Name(StartCourses)))
    ensures Get(next, UserStatus) == Some(Str(Name(StartStudyPref)))
    ensures Get(next, CourseList) == Some(CourseListValue(courses))
    ensures status == 200
  {
    var response, write := SaveUserCourseInfo(courses, SessionFor(id, doc), true);
    WrittenStatus(SaveCourses, StartCourses, doc, write.value.fields);
    next := ApplySet(doc, write.value.fields);
    status := response.status;
  }

  /** The study-preferences save of a `startstudypref` user whose write succeeds; the course list is kept. */
  method StudyPreferencesStep(id: UserId, doc: Document, prefs: StudyPreferences)
    returns (next: Document, status: int)
    requires Get(doc, UserStatus) == Some(Str(Name(StartStudyPref)))
    ensures Get(next, UserStatus) == Some(Str(Name(Explore)))
    ensures Get(next, UserStudyPreferences) == Some(PrefsValue(prefs))
    ensures Get(next, CourseList) == Get(doc, CourseList)
    ensures status == 200
  {
    var response, write := SaveUserStudyPreferences(prefs, SessionFor(id, doc), true);
    WrittenStatus(SaveStudyPreferences, StartStudyPref, doc, write.value.fields);
    assert Get(write.value.fields, CourseList) == None;
    ApplySetChangesOnlyListedKeys(doc, write.value.fields, CourseList);
    next := ApplySet(doc, write.value.fields);
    status := response.status;
  }

  /**
   * A new user runs the three onboarding saves in order, each calling out to
   * the session, the image host and the database successfully, and each write
   * applied to the stored document. The user ends at `explore`, every save
   * answers 200, and the course list survives the last save.
   */
  method OnboardNewUser(
    id: UserId, doc: Document, basic: BasicInfoPayload, uploaded: UploadResult,
    courses: seq<Course>, prefs: StudyPreferences)
    returns (final: Document, statuses: seq<int>)
    requires Get(doc, UserStatus) == Some(Str(Name(StartProfile)))
    ensures Get(final, UserStatus) == Some(Str(Name(Explore)))
    ensures Get(final, CourseList) == Some(CourseListValue(courses))
    ensures Get(final, UserStudyPreferences) == Some(PrefsValue(prefs))
    ensures statuses == [200, 200, 200]
  {
    var doc1, status1 := BasicInfoStep(id, doc, basic, uploaded);
    var doc2, status2 := CoursesStep(id, doc1, courses);
    var status3;
    final, status3 := StudyPreferencesStep(id, doc2, prefs);
    statuses := [status1, status2, status3];
  }
}
