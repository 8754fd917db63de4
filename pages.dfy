/**
 * The server-side gates of the study-times onboarding page and the login
 * page. The session is an input (`None` when there is none); the page URL of
 * each onboarding status is a parameter, and a status string that names no
 * onboarding status yields an undefined target.
 */
module Pages {
  import opened Wrappers
  import opened Onboarding

  /** The part of the session the gates read. */
  datatype Session = Session(userStatus: Option<string>)

  /** One entry of the study-times form's initial list; its shape belongs to the form. */
  type WeekTime = string

  /** What a page request produces. */
  datatype Page =
    | Redirect(target: Option<string>)
    | StudyTimesForm(weekTimes: seq<WeekTime>, isStart: bool)
    | LoginLayout(fromRedirect: string)

  const LoginPath := "/login"
  const RedirectFlag := "true"
  const NotFromRedirect := "false"
  /** Where a visitor without a session is sent: the login page, flagged as a redirect. */
  const LoginRedirect := LoginPath + "?redirect=" + RedirectFlag

  /** A status is truthy when it is set and non-empty. */
  predicate HasStatus(session: Session) {
    session.userStatus.Some? && session.userStatus.value != ""
  }

  /** `statusToURL[status]`: the URL of the status the string names, undefined when it names none. */
  function StatusTarget(statusToURL: Status -> string, status: string): (r: Option<string>)
    ensures r.Some? <==> exists s :: Name(s) == status
    ensures forall s :: Name(s) == status ==> r == Some(statusToURL(s))
  {
    match Parse(status)
    case Some(s) => Some(statusToURL(s))
    case None => None
  }

  /** The study-times onboarding page (the last onboarding step). */
  function StudyTimesPage(session: Option<Session>, statusToURL: Status -> string): (p: Page)
    ensures session.None? ==> p == Redirect(Some(LoginRedirect))
    ensures session.Some? && HasStatus(session.value) && session.value.userStatus.value != Name(StartStudyPref) ==>
      p == Redirect(StatusTarget(statusToURL, session.value.userStatus.value))
    ensures p.StudyTimesForm? <==>
      session.Some? && (!HasStatus(session.value) || session.value.userStatus.value == Name(StartStudyPref))
    ensures p.StudyTimesForm? ==> p.weekTimes == [] && p.isStart
  {
    if session.None? then Redirect(Some(LoginRedirect))
    else if HasStatus(session.value) && session.value.userStatus.value != Name(StartStudyPref) then
      Redirect(StatusTarget(statusToURL, session.value.userStatus.value))
    else StudyTimesForm([], true)
  }

  /** The login page; `redirectParam` is the `redirect` search parameter. */
  function LoginPage(session: Option<Session>, redirectParam: Option<string>, statusToURL: Status -> string): (p: Page)
    ensures session.Some? && HasStatus(session.value) ==>
      p == Redirect(StatusTarget(statusToURL, session.value.userStatus.value))
    ensures p.LoginLayout? <==> !(session.Some? && HasStatus(session.value))
    ensures p.LoginLayout? ==> p.fromRedirect == redirectParam.GetOr(NotFromRedirect)
  {
    if session.Some? && HasStatus(session.value) then
      Redirect(StatusTarget(statusToURL, session.value.userStatus.value))
    else LoginLayout(redirectParam.GetOr(NotFromRedirect))
  }

  /**
   * A user whose session holds an onboarding status sees the study-times form
   * exactly at the study-preferences step; at every other status the page
   * sends them to that status's URL.
   */
  lemma StudyTimesOnlyAtItsStep(statusToURL: Status -> string, s: Status)
    ensures StudyTimesPage(Some(Session(Some(Name(s)))), statusToURL).StudyTimesForm? <==> s == StartStudyPref
    ensures s != StartStudyPref ==>
      StudyTimesPage(Some(Session(Some(Name(s)))), statusToURL) == Redirect(Some(statusToURL(s)))
  {
    ParseName(s);
    ParseName(StartStudyPref);
  }

  /** A signed-in user with an onboarding status never sees the login layout: they go to their status's URL. */
  lemma SignedInUsersSkipLogin(statusToURL: Status -> string, s: Status, redirectParam: Option<string>)
    ensures LoginPage(Some(Session(Some(Name(s)))), redirectParam, statusToURL) == Redirect(Some(statusToURL(s)))
  {
    ParseName(s);
  }

  /**
   * The text after `/login?redirect=` in a URL, or `None` when the URL does not
   * start that way. It is not a query-string parser: it serves only to read the
   * one login URL this page redirects to.
   */
  function RedirectParamOf(url: string): (r: Option<string>)
    ensures url == LoginRedirect ==> r == Some(RedirectFlag)
  {
    var prefix := LoginPath + "?redirect=";
    if |prefix| <= |url| && url[..|prefix|] == prefix then Some(url[|prefix|..]) else None
  }

  /**
   * A visitor without a session who opens the study-times page is sent to the
   * login page, which then renders (no redirect loop) and knows it was reached
   * by a redirect.
   */
  lemma GuestsLandOnLogin(statusToURL: Status -> string)
    ensures StudyTimesPage(None, statusToURL) == Redirect(Some(LoginRedirect))
    ensures LoginPage(None, RedirectParamOf(LoginRedirect), statusToURL) == LoginLayout(RedirectFlag)
  {
  }

  /** A session without a status is treated like an onboarding user: both pages render. */
  lemma UnsetStatusRenders(statusToURL: Status -> string, redirectParam: Option<string>, status: Option<string>)
    requires status == None || status == Some("")
    ensures StudyTimesPage(Some(Session(status)), statusToURL) == StudyTimesForm([], true)
    ensures LoginPage(Some(Session(status)), redirectParam, statusToURL).LoginLayout?
  {
  }
}
