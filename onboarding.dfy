/**
 * The onboarding funnel: four user statuses visited in a fixed order,
 * `startprofile -> startcourses -> startstudypref -> explore`, and the three
 * save actions that each complete one step of it.
 */
module Onboarding {
  import opened Wrappers
  import opened Records

  datatype Status = StartProfile | StartCourses | StartStudyPref | Explore

  /** The string stored in `userStatus` for each status. */
  function Name(s: Status): string {
    match s
    case StartProfile => "startprofile"
    case StartCourses => "startcourses"
    case StartStudyPref => "startstudypref"
    case Explore => "explore"
  }

  /** Reads a stored `userStatus` string back; any other string is no status. */
  function Parse(name: string): (r: Option<Status>)
    ensures r.Some? ==> Name(r.value) == name
  {
    if name == "startprofile" then Some(StartProfile)
    else if name == "startcourses" then Some(StartCourses)
    else if name == "startstudypref" then Some(StartStudyPref)
    else if name == "explore" then Some(Explore)
    else None
  }

  lemma ParseName(s: Status)
    ensures Parse(Name(s)) == Some(s)
    ensures Name(s) != ""
  {
  }

  /** Position of a status in the funnel. */
  function Rank(s: Status): nat {
    match s
    case StartProfile => 0
    case StartCourses => 1
    case StartStudyPref => 2
    case Explore => 3
  }

  /** The three save actions, one per onboarding form. */
  datatype Step = SaveBasicInfo | SaveCourses | SaveStudyPreferences

  /** The onboarding status whose form the step saves. */
  function Pre(step: Step): Status {
    match step
    case SaveBasicInfo => StartProfile
    case SaveCourses => StartCourses
    case SaveStudyPreferences => StartStudyPref
  }

  /** The status the step moves a user to when it completes `Pre(step)`. */
  function Post(step: Step): Status {
    match step
    case SaveBasicInfo => StartCourses
    case SaveCourses => StartStudyPref
    case SaveStudyPreferences => Explore
  }

  /** Each step's target is the next status of the funnel. */
  lemma PostFollowsPre(step: Step)
    ensures Rank(Post(step)) == Rank(Pre(step)) + 1
  {
  }

  /** The statuses allowed to call a step's action: `explore` and the step's own onboarding status. */
  function Allowed(step: Step): set<Status> {
    {Explore, Pre(step)}
  }

  /** The list each action hands to the session check, in the order it is written there. */
  function AllowedNames(step: Step): (r: seq<string>)
    ensures forall s :: Name(s) in r <==> s in Allowed(step)
    ensures |r| == 2
    ensures forall i :: 0 <= i < |r| ==> Parse(r[i]).Some? && Parse(r[i]).value in Allowed(step)
  {
    [Name(Explore), Name(Pre(step))]
  }

  /**
   * The status a step writes, given the caller's session status: the step's
   * target when the session is at the step's own onboarding status, and nothing
   * otherwise.
   */
  function Advance(step: Step, sessionStatus: string): (r: Option<Status>)
    ensures r.Some? <==> Parse(sessionStatus) == Some(Pre(step))
    ensures r.Some? ==> r.value == Post(step)
  {
    if sessionStatus == Name(Pre(step)) then Some(Post(step)) else None
  }

  /** A written status is always exactly one step forward from the caller's status. */
  lemma AdvanceIsOneStepForward(step: Step, sessionStatus: string)
    requires Advance(step, sessionStatus).Some?
    ensures Parse(sessionStatus) == Some(Pre(step))
    ensures Rank(Advance(step, sessionStatus).value) == Rank(Pre(step)) + 1
  {
    ParseName(Pre(step));
  }

  /** An `explore` caller's status is never written. */
  lemma ExploreNeverAdvances(step: Step)
    ensures Advance(step, Name(Explore)) == None
  {
  }

  /** The part of an update set that concerns `userStatus`, as `Advance` prescribes. */
  predicate StatusEffect(step: Step, sessionStatus: string, upd: UpdateSet) {
    Get(upd, UserStatus) == match Advance(step, sessionStatus)
      case None => None
      case Some(t) => Some(Str(Name(t)))
  }

  /**
   * The stored status after one save when the session check reports the stored
   * status truthfully: a caller outside the allowed set is refused and keeps
   * its status; an allowed one moves as `Advance` says.
   */
  function AfterSave(step: Step, s: Status): Status {
    if s !in Allowed(step) then s
    else match Advance(step, Name(s))
      case Some(t) => t
      case None => s
  }

  /** One save never moves the status backward, moves it at most one place, and moves it only from the step's own status. */
  lemma AfterSaveForward(step: Step, s: Status)
    ensures Rank(s) <= Rank(AfterSave(step, s)) <= Rank(s) + 1
    ensures AfterSave(step, s) != s <==> s == Pre(step)
  {
  }

  /**
   * Writing an update that obeys `StatusEffect` for an allowed caller leaves the
   * stored status at `AfterSave`.
   */
  lemma WrittenStatus(step: Step, s: Status, doc: Document, upd: UpdateSet)
    requires Get(doc, UserStatus) == Some(Str(Name(s)))
    requires s in Allowed(step)
    requires StatusEffect(step, Name(s), upd)
    ensures Get(ApplySet(doc, upd), UserStatus) == Some(Str(Name(AfterSave(step, s))))
  {
  }

  /** The stored status after a sequence of saves, each refused or written. */
  function Run(s: Status, steps: seq<Step>): Status
    decreases |steps|
  {
    if steps == [] then s else Run(AfterSave(steps[0], s), steps[1..])
  }

  lemma {:induction false} RunNeverRegresses(s: Status, steps: seq<Step>)
    ensures Rank(s) <= Rank(Run(s, steps))
    decreases |steps|
  {
    if steps != [] {
      AfterSaveForward(steps[0], s);
      RunNeverRegresses(AfterSave(steps[0], s), steps[1..]);
    }
  }

  lemma {:induction false} RunAdvancesAtMostOnePerSave(s: Status, steps: seq<Step>)
    ensures Rank(Run(s, steps)) <= Rank(s) + |steps|
    decreases |steps|
  {
    if steps != [] {
      AfterSaveForward(steps[0], s);
      RunAdvancesAtMostOnePerSave(AfterSave(steps[0], s), steps[1..]);
    }
  }

  lemma {:induction false} ExploreIsTerminal(steps: seq<Step>)
    ensures Run(Explore, steps) == Explore
    decreases |steps|
  {
    if steps != [] {
      ExploreIsTerminal(steps[1..]);
    }
  }

  /** The saves still needed, in order, to get from `s` to `explore`. */
  function Remaining(s: Status): (r: seq<Step>)
    ensures |r| == 3 - Rank(s)
  {
    match s
    case StartProfile => [SaveBasicInfo, SaveCourses, SaveStudyPreferences]
    case StartCourses => [SaveCourses, SaveStudyPreferences]
    case StartStudyPref => [SaveStudyPreferences]
    case Explore => []
  }

  /** `xs` occurs in `ys` in order, possibly with other elements in between. */
  predicate IsSubsequence<T(==)>(xs: seq<T>, ys: seq<T>)
    decreases |ys|
  {
    if xs == [] then true
    else if ys == [] then false
    else if xs[0] == ys[0] then IsSubsequence(xs[1..], ys[1..])
    else IsSubsequence(xs, ys[1..])
  }

  /**
   * A sequence of saves takes a user from `s` to `explore` exactly when it
   * contains the remaining steps of the funnel in funnel order.
   */
  lemma {:induction false} ReachesExploreIff(s: Status, steps: seq<Step>)
    ensures Run(s, steps) == Explore <==> IsSubsequence(Remaining(s), steps)
    decreases |steps|
  {
    if steps != [] {
      var x := steps[0];
      var s' := AfterSave(x, s);
      ReachesExploreIff(s', steps[1..]);
      if s == Explore {
        assert Remaining(s) == [] && s' == Explore;
      } else if s == Pre(x) {
        assert Remaining(s) == [x] + Remaining(s');
        assert ([x] + Remaining(s'))[1..] == Remaining(s');
      } else {
        assert s' == s;
        assert Remaining(s)[0] != x;
      }
    }
  }

  /** Three saves made in funnel order from `startprofile` reach `explore`. */
  lemma ThreeSavesReachExplore()
    ensures Run(StartProfile, [SaveBasicInfo, SaveCourses, SaveStudyPreferences]) == Explore
  {
    ReachesExploreIff(StartProfile, [SaveBasicInfo, SaveCourses, SaveStudyPreferences]);
  }

  /** Saves made out of order leave a new user short of `explore`. */
  lemma OutOfOrderSavesFallShort()
    ensures Run(StartProfile, [SaveCourses, SaveBasicInfo, SaveStudyPreferences]) == StartCourses
  {
  }
}
