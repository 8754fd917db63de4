/**
 * The three server actions that save a user's onboarding forms: basic profile
 * information, the course list and the study preferences.
 *
 * Every collaborator is an input. The session resolver is a function from the
 * list of allowed statuses to its verdict, so each action's allowed list is part
 * of the model. The old-user fetch, the image host's destroy and upload, and the
 * database write are given as outcomes: `None` or `false` stands for a call that
 * throws. An action returns its response, the `$set` write it issued (if any)
 * and the image-host calls it made, in order.
 */
module UserInfoModifyActions {
  import opened Wrappers
  import opened Records
  import opened Onboarding

  /** The fields of a `saveUserBasicInfo` request body. */
  datatype BasicInfoPayload = BasicInfoPayload(
    email: string,
    profileImageFile: string,
    firstName: string,
    lastName: string,
    major: string,
    gradYear: string,
    userBio: string,
    pronouns: string,
    fbURL: string,
    igURL: string)

  /** What the session check reports: whether the caller may proceed, who they are and their status. */
  datatype SessionCheck = SessionCheck(ok: bool, id: UserId, userStatus: string)

  /** The `{ status, responseData }` envelope every action returns. */
  datatype ActionResponse = ActionResponse(status: int, responseData: ResponseData)

  datatype ResponseData =
    | ErrorData(error: string)
    | UserData(user: Document)
    | ImageData(profileImage: Option<Value>)
    | CourseData(courseList: seq<Course>)
    | PrefsData(userStudyPreferences: StudyPreferences)
    | OtherData(fields: map<string, string>)

  /** The image host's answer to an upload. */
  datatype UploadResult = UploadResult(secureUrl: string, publicId: string)

  /** A call made to the image host. */
  datatype AssetEvent = Destroy(publicId: Value) | Upload(file: string, folder: string)

  /** A `findByIdAndUpdate(id, { $set: fields })` call. */
  datatype SetWrite = SetWrite(id: UserId, fields: UpdateSet)

  const NotAuthorized := ActionResponse(401, ErrorData("Not authorized"))
  const OldUserFetchFailure := ActionResponse(500, ErrorData("Error in fetching old user."))
  const OldUserNotFound := ActionResponse(404, ErrorData("User not found."))
  const BasicInfoFailure := ActionResponse(500, ErrorData("Error in modifying user basic info."))
  const CourseListFailure := ActionResponse(500, ErrorData("Error in modifying user course list"))
  /** The study-preferences save reports its failures with the course-list message. */
  const StudyPreferencesFailure := ActionResponse(500, ErrorData("Error in modifying user course list"))
  const ImageFolder := "berkeleyfind"

  /** The submitted value of one of the nine diffed profile fields. */
  function Submitted(data: BasicInfoPayload, f: Field): string
    requires IsScalar(f)
  {
    match f
    case Email => data.email
    case FirstName => data.firstName
    case LastName => data.lastName
    case Major => data.major
    case GradYear => data.gradYear
    case UserBio => data.userBio
    case Pronouns => data.pronouns
    case FbURL => data.fbURL
    case IgURL => data.igURL
  }

  /** The stored user carried by a successful old-user fetch, if there is one. */
  function OldUser(fetched: Option<ActionResponse>): (r: Option<Document>)
    ensures r.Some? ==> fetched.Some? && fetched.value.status < 400
    ensures fetched.Some? && fetched.value.status < 400 && fetched.value.responseData.UserData? ==>
      r == Some(fetched.value.responseData.user)
  {
    match fetched
    case Some(ActionResponse(status, UserData(user))) => if status < 400 then Some(user) else None
    case _ => None
  }

  /** The submitted image is a new one: non-empty and not the stored URL. */
  predicate NewImage(file: string, oldUser: Document)
    ensures NewImage(file, oldUser) <==> file != "" && Get(oldUser, ProfileImage) != Some(Str(file))
  {
    file != "" && Differs(oldUser, ProfileImage, Str(file))
  }

  /** The image-host calls a basic-info save makes when none of them fails. */
  function ImagePlan(file: string, oldUser: Document): (r: seq<AssetEvent>)
    ensures NewImage(file, oldUser) <==> r != []
    ensures r != [] ==> r[|r| - 1] == Upload(file, ImageFolder)
    ensures forall i :: 0 <= i < |r| - 1 ==> r[i].Destroy?
    ensures |r| == 2 <==> NewImage(file, oldUser) && Truthy(Get(oldUser, ProfileImagePublicID))
    ensures |r| <= 2
    ensures |r| == 2 ==> r[0] == Destroy(oldUser[ProfileImagePublicID])
  {
    if !NewImage(file, oldUser) then []
    else
      (if Truthy(Get(oldUser, ProfileImagePublicID)) then [Destroy(oldUser[ProfileImagePublicID])] else [])
      + [Upload(file, ImageFolder)]
  }

  /** The image-host calls a basic-info save makes: the plan, cut short after a destroy that throws. */
  function ImageCalls(file: string, oldUser: Document, destroyOk: bool): (r: seq<AssetEvent>)
    ensures r <= ImagePlan(file, oldUser)
    ensures NewImage(file, oldUser) && Truthy(Get(oldUser, ProfileImagePublicID)) && !destroyOk ==>
      r == [Destroy(oldUser[ProfileImagePublicID])]
    ensures (Truthy(Get(oldUser, ProfileImagePublicID)) ==> destroyOk) ==> r == ImagePlan(file, oldUser)
  {
    var plan := ImagePlan(file, oldUser);
    if |plan| == 2 && !destroyOk then plan[..1] else plan
  }

  /** Field `f` is in the update exactly when the submitted `v` differs from the stored value, and then carries `v`. */
  predicate FieldDiffed(oldUser: Document, upd: UpdateSet, f: Field, v: string) {
    Get(upd, f) == if Differs(oldUser, f, Str(v)) then Some(Str(v)) else None
  }

  /** Every one of the nine profile fields is diffed against the stored user. */
  predicate ScalarDiff(data: BasicInfoPayload, oldUser: Document, upd: UpdateSet) {
    forall f :: IsScalar(f) ==> FieldDiffed(oldUser, upd, f, Submitted(data, f))
  }

  /**
   * The image keys of the update: the upload's URL and public ID for a new
   * image; otherwise each of the two keys is set to null exactly when its stored
   * value is truthy.
   */
  predicate ImageEffect(file: string, oldUser: Document, uploaded: Option<UploadResult>, upd: UpdateSet) {
    if NewImage(file, oldUser) then
      && uploaded.Some?
      && Get(upd, ProfileImage) == Some(Str(uploaded.value.secureUrl))
      && Get(upd, ProfileImagePublicID) == Some(Str(uploaded.value.publicId))
    else
      && Get(upd, ProfileImage) == (if Truthy(Get(oldUser, ProfileImage)) then Some(Null) else None)
      && Get(upd, ProfileImagePublicID) == (if Truthy(Get(oldUser, ProfileImagePublicID)) then Some(Null) else None)
  }

  /**
   * The image returned to the client: the update's value when the key is set
   * (null included), the stored one otherwise; that is, the image the write
   * leaves stored.
   */
  function ReturnedImage(oldUser: Document, upd: UpdateSet): (r: Option<Value>)
    ensures r == Get(ApplySet(oldUser, upd), ProfileImage)
  {
    if ProfileImage in upd then Some(upd[ProfileImage]) else Get(oldUser, ProfileImage)
  }

  /** The calls up to the write succeed, so the basic-info save writes. */
  predicate BasicInfoWrites(
    data: BasicInfoPayload, session: SessionCheck, fetched: Option<ActionResponse>,
    destroyOk: bool, uploaded: Option<UploadResult>, writeOk: bool)
  {
    && session.ok
    && OldUser(fetched).Some?
    && (NewImage(data.profileImageFile, OldUser(fetched).value) ==>
          && uploaded.Some?
          && (Truthy(Get(OldUser(fetched).value, ProfileImagePublicID)) ==> destroyOk))
    && writeOk
  }

  /**
   * The image part of `saveUserBasicInfo`. A new image destroys the stored
   * public ID (when there is one) and then uploads; `ok` is false when one of
   * those calls throws. Otherwise both image keys are cleared where set.
   */
  method ReconcileImage(file: string, oldUser: Document, destroyOk: bool, uploaded: Option<UploadResult>)
    returns (updateData: UpdateSet, assets: seq<AssetEvent>, ok: bool)
    ensures assets <= ImagePlan(file, oldUser)
    ensures assets == ImageCalls(file, oldUser, destroyOk)
    ensures ok <==> (NewImage(file, oldUser) ==>
                       uploaded.Some? && (Truthy(Get(oldUser, ProfileImagePublicID)) ==> destroyOk))
    ensures ok ==>
      && assets == ImagePlan(file, oldUser)
      && ImageEffect(file, oldUser, uploaded, updateData)
      && (forall f :: f != ProfileImage && f != ProfileImagePublicID ==> Get(updateData, f) == None)
  {
    updateData, assets, ok := map[], [], true;
    if file != "" && Differs(oldUser, ProfileImage, Str(file)) {
      if Truthy(Get(oldUser, ProfileImagePublicID)) {
        assets := assets + [Destroy(oldUser[ProfileImagePublicID])];
        if !destroyOk {
          ok := false;
          return;
        }
      }
      assets := assets + [Upload(file, ImageFolder)];
      if uploaded.None? {
        ok := false;
        return;
      }
      updateData := updateData[ProfileImage := Str(uploaded.value.secureUrl)];
      updateData := updateData[ProfileImagePublicID := Str(uploaded.value.publicId)];
    } else {
      if Truthy(Get(oldUser, ProfileImage)) {
        updateData := updateData[ProfileImage := Null];
      }
      if Truthy(Get(oldUser, ProfileImagePublicID)) {
        updateData := updateData[ProfileImagePublicID := Null];
      }
    }
  }

  /** The nine diffed profile fields, in the order the action compares them. */
  const DiffedFields: seq<Field> := [Email, FirstName, LastName, Major, GradYear, UserBio, Pronouns, FbURL, IgURL]

  /** The comparison order lists each of the nine profile fields exactly once. */
  lemma DiffedFieldsAreTheProfileFields()
    ensures forall f :: IsScalar(f) <==> f in DiffedFields
    ensures forall i, j :: 0 <= i < j < |DiffedFields| ==> DiffedFields[i] != DiffedFields[j]
  {
  }

  /**
   * The field-by-field diff of `saveUserBasicInfo`: for each profile field in
   * turn, `if (v !== oldUser.f) updateData.f = v`.
   */
  method AddChangedFields(data: BasicInfoPayload, oldUser: Document, updateData: UpdateSet)
    returns (upd: UpdateSet)
    requires forall f :: IsScalar(f) ==> Get(updateData, f) == None
    ensures ScalarDiff(data, oldUser, upd)
    ensures forall f :: !IsScalar(f) ==> Get(upd, f) == Get(updateData, f)
  {
    DiffedFieldsAreTheProfileFields();
    upd := updateData;
    for i := 0 to |DiffedFields|
      invariant forall f :: IsScalar(f) && f in DiffedFields[..i] ==> FieldDiffed(oldUser, upd, f, Submitted(data, f))
      invariant forall f :: f !in DiffedFields[..i] ==> Get(upd, f) == Get(updateData, f)
    {
      var f := DiffedFields[i];
      assert DiffedFields[..i + 1] == DiffedFields[..i] + [f];
      var v := Submitted(data, f);
      if Differs(oldUser, f, Str(v)) {
        upd := upd[f := Str(v)];
      }
    }
    assert DiffedFields[..|DiffedFields|] == DiffedFields;
  }

  /** Setting `userStatus` leaves the diffed fields and the image keys as they were. */
  lemma SettingStatusKeepsFields(
    data: BasicInfoPayload, oldUser: Document, uploaded: Option<UploadResult>, upd: UpdateSet, v: Value)
    requires ScalarDiff(data, oldUser, upd)
    requires ImageEffect(data.profileImageFile, oldUser, uploaded, upd)
    ensures ScalarDiff(data, oldUser, upd[UserStatus := v])
    ensures ImageEffect(data.profileImageFile, oldUser, uploaded, upd[UserStatus := v])
    ensures ReturnedImage(oldUser, upd[UserStatus := v]) == ReturnedImage(oldUser, upd)
  {
  }

  /**
   * The part of `saveUserBasicInfo` that runs once the stored user is known:
   * image reconciliation, the diff, the status step, the write and the reply.
   */
  method SaveWithOldUser(
    data: BasicInfoPayload,
    session: SessionCheck,
    oldUser: Document,
    destroyOk: bool,
    uploaded: Option<UploadResult>,
    writeOk: bool)
    returns (response: ActionResponse, write: Option<SetWrite>, assets: seq<AssetEvent>)
    ensures assets <= ImagePlan(data.profileImageFile, oldUser)
    ensures assets == ImageCalls(data.profileImageFile, oldUser, destroyOk)
    ensures write.Some? <==>
      && (NewImage(data.profileImageFile, oldUser) ==>
            uploaded.Some? && (Truthy(Get(oldUser, ProfileImagePublicID)) ==> destroyOk))
      && writeOk
    ensures write.None? ==> response == BasicInfoFailure
    ensures write.Some? ==>
      var upd := write.value.fields;
        && write.value.id == session.id
        && assets == ImagePlan(data.profileImageFile, oldUser)
        && (forall f :: Get(upd, f).Some? ==>
              IsScalar(f) || f == ProfileImage || f == ProfileImagePublicID || f == UserStatus)
        && ScalarDiff(data, oldUser, upd)
        && ImageEffect(data.profileImageFile, oldUser, uploaded, upd)
        && StatusEffect(SaveBasicInfo, session.userStatus, upd)
        && response == ActionResponse(200, ImageData(ReturnedImage(oldUser, upd)))
  {
    write := None;
    var updateData, imageOk;
    updateData, assets, imageOk := ReconcileImage(data.profileImageFile, oldUser, destroyOk, uploaded);
    if !imageOk {
      response := BasicInfoFailure;
      return;
    }
    updateData := AddChangedFields(data, oldUser, updateData);
    assert Get(updateData, UserStatus) == None;
    if session.userStatus == Name(StartProfile) {
      SettingStatusKeepsFields(data, oldUser, uploaded, updateData, Str(Name(StartCourses)));
      updateData := updateData[UserStatus := Str(Name(StartCourses))];
    }

    if !writeOk {
      response := BasicInfoFailure;
      return;
    }
    write := Some(SetWrite(session.id, updateData));
    response := ActionResponse(200, ImageData(ReturnedImage(oldUser, updateData)));
  }


  /**
   * `saveUserBasicInfo`: check the session for `explore` or `startprofile`,
   * fetch the stored user, reconcile the profile image, diff the nine profile
   * fields, advance `startprofile` to `startcourses` and write the update.
   */
  method SaveUserBasicInfo(
    data: BasicInfoPayload,
    checkSession: seq<string> -> SessionCheck,
    fetched: Option<ActionResponse>,
    destroyOk: bool,
    uploaded: Option<UploadResult>,
    writeOk: bool)
    returns (response: ActionResponse, write: Option<SetWrite>, assets: seq<AssetEvent>)
    // a refused session: 401 and no effect at all
    ensures var session := checkSession(AllowedNames(SaveBasicInfo));
      !session.ok ==> response == NotAuthorized && write == None && assets == []
    // a fetch that answers with an error status: mapped, and no effect at all
    ensures var session := checkSession(AllowedNames(SaveBasicInfo));
      session.ok && fetched.Some? && fetched.value.status >= 400 ==>
        && write == None && assets == []
        && response == (if fetched.value.status == 500 then OldUserFetchFailure
                        else if fetched.value.status == 404 then OldUserNotFound
                        else fetched.value)
    // a fetch that throws or carries no user: the fixed 500, and no effect at all
    ensures var session := checkSession(AllowedNames(SaveBasicInfo));
      session.ok && OldUser(fetched).None? && !(fetched.Some? && fetched.value.status >= 400) ==>
        response == BasicInfoFailure && write == None && assets == []
    // image-host calls are made in plan order, and stop at the first that fails
    ensures var session := checkSession(AllowedNames(SaveBasicInfo));
      session.ok && OldUser(fetched).Some? ==>
        && assets <= ImagePlan(data.profileImageFile, OldUser(fetched).value)
        && assets == ImageCalls(data.profileImageFile, OldUser(fetched).value, destroyOk)
        && (write == None ==> response == BasicInfoFailure)
    // the write happens exactly when every call before it succeeds
    ensures write.Some? <==>
      BasicInfoWrites(data, checkSession(AllowedNames(SaveBasicInfo)), fetched, destroyOk, uploaded, writeOk)
    ensures response.status == 200 <==> write.Some?
    // what a successful save wrote, called and returned
    ensures write.Some? ==>
      var session := checkSession(AllowedNames(SaveBasicInfo));
      var oldUser := OldUser(fetched).value;
      var upd := write.value.fields;
        && write.value.id == session.id
        && assets == ImagePlan(data.profileImageFile, oldUser)
        && (forall f :: Get(upd, f).Some? ==>
              IsScalar(f) || f == ProfileImage || f == ProfileImagePublicID || f == UserStatus)
        && ScalarDiff(data, oldUser, upd)
        && ImageEffect(data.profileImageFile, oldUser, uploaded, upd)
        && StatusEffect(SaveBasicInfo, session.userStatus, upd)
        && response == ActionResponse(200, ImageData(ReturnedImage(oldUser, upd)))
  {
    var session := checkSession(AllowedNames(SaveBasicInfo));
    write, assets := None, [];
    if !session.ok {
      response := NotAuthorized;
      return;
    }
    if fetched.None? {
      response := BasicInfoFailure;
      return;
    }
    var oldUserResponse := fetched.value;
    if oldUserResponse.status >= 400 {
      if oldUserResponse.status == 500 {
        response := OldUserFetchFailure;
      } else if oldUserResponse.status == 404 {
        response := OldUserNotFound;
      } else {
        response := oldUserResponse;
      }
      return;
    }
    if !oldUserResponse.responseData.UserData? {
      // reading a field of the missing user throws
      response := BasicInfoFailure;
      return;
    }
    var oldUser := oldUserResponse.responseData.user;

    response, write, assets := SaveWithOldUser(data, session, oldUser, destroyOk, uploaded, writeOk);
  }

  /**
   * `saveUserCourseInfo`: check the session for `explore` or `startcourses`,
   * replace the course list wholesale and advance `startcourses` to
   * `startstudypref`.
   */
  method SaveUserCourseInfo(courseList: seq<Course>, checkSession: seq<string> -> SessionCheck, writeOk: bool)
    returns (response: ActionResponse, write: Option<SetWrite>)
    ensures var session := checkSession(AllowedNames(SaveCourses));
      !session.ok ==> response == NotAuthorized && write == None
    ensures var session := checkSession(AllowedNames(SaveCourses));
      session.ok && !writeOk ==> response == CourseListFailure && write == None
    ensures var session := checkSession(AllowedNames(SaveCourses));
      session.ok && writeOk ==>
        && write.Some? && write.value.id == session.id
        && var upd := write.value.fields;
        && (forall f :: Get(upd, f).Some? ==> f == CourseList || f == UserStatus)
        && Get(upd, CourseList) == Some(CourseListValue(courseList))
        && StatusEffect(SaveCourses, session.userStatus, upd)
        && response == ActionResponse(200, CourseData(courseList))
  {
    var session := checkSession(AllowedNames(SaveCourses));
    write := None;
    if !session.ok {
      response := NotAuthorized;
      return;
    }
    var updateData: UpdateSet := map[CourseList := CourseListValue(courseList)];
    if session.userStatus == Name(StartCourses) {
      updateData := updateData[UserStatus := Str(Name(StartStudyPref))];
    }
    if !writeOk {
      response := CourseListFailure;
      return;
    }
    write := Some(SetWrite(session.id, updateData));
    response := ActionResponse(200, CourseData(courseList));
  }

  /**
   * `saveUserStudyPreferences`: check the session for `explore` or
   * `startstudypref`, replace the preferences wholesale and advance
   * `startstudypref` to `explore`.
   */
  method SaveUserStudyPreferences(prefs: StudyPreferences, checkSession: seq<string> -> SessionCheck, writeOk: bool)
    returns (response: ActionResponse, write: Option<SetWrite>)
    ensures var session := checkSession(AllowedNames(SaveStudyPreferences));
      !session.ok ==> response == NotAuthorized && write == None
    ensures var session := checkSession(AllowedNames(SaveStudyPreferences));
      session.ok && !writeOk ==> response == StudyPreferencesFailure && write == None
    ensures var session := checkSession(AllowedNames(SaveStudyPreferences));
      session.ok && writeOk ==>
        && write.Some? && write.value.id == session.id
        && var upd := write.value.fields;
        && (forall f :: Get(upd, f).Some? ==> f == UserStudyPreferences || f == UserStatus)
        && Get(upd, UserStudyPreferences) == Some(PrefsValue(prefs))
        && StatusEffect(SaveStudyPreferences, session.userStatus, upd)
        && response == ActionResponse(200, PrefsData(prefs))
  {
    var session := checkSession(AllowedNames(SaveStudyPreferences));
    write := None;
    if !session.ok {
      response := NotAuthorized;
      return;
    }
    var updateData: UpdateSet := map[UserStudyPreferences := PrefsValue(prefs)];
    if session.userStatus == Name(StartStudyPref) {
      updateData := updateData[UserStatus := Str(Name(Explore))];
    }
    if !writeOk {
      response := StudyPreferencesFailure;
      return;
    }
    write := Some(SetWrite(session.id, updateData));
    response := ActionResponse(200, PrefsData(prefs));
  }
}
