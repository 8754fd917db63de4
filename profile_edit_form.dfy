/**
 * Client-side rules of the profile edit form: its default values, the
 * per-field validation rules, the clearing of a select, and the error count
 * and notification chosen when the form is submitted.
 *
 * The three regular expressions (email, Facebook URL, Instagram URL) and
 * JavaScript's `Number(...)` conversion are parameters, bundled in `Primitives`.
 */
module ProfileEditForm {
  import opened Wrappers

  /** The props the form is created with: the stored profile and the onboarding flag. */
  datatype ProfileEditFormProps = ProfileEditFormProps(
    profileImage: string,
    firstName: string,
    lastName: string,
    email: string,
    major: string,
    gradYear: string,
    userBio: string,
    pronouns: string,
    fbURL: string,
    igURL: string,
    isStart: bool)

  /** The form's values (`IUserBasicInfo`); `profileImageFile` holds a URL or a data URL. */
  datatype FormValues = FormValues(
    profileImageFile: string,
    firstName: string,
    lastName: string,
    email: string,
    major: string,
    gradYear: string,
    userBio: string,
    pronouns: string,
    fbURL: string,
    igURL: string)

  /** The form's `defaultValues`: every field starts at its prop, the image at the stored URL. */
  function DefaultValues(props: ProfileEditFormProps): (v: FormValues)
    ensures v.profileImageFile == props.profileImage
    ensures v.firstName == props.firstName && v.lastName == props.lastName
    ensures v.email == props.email && v.major == props.major && v.gradYear == props.gradYear
    ensures v.userBio == props.userBio && v.pronouns == props.pronouns
    ensures v.fbURL == props.fbURL && v.igURL == props.igURL
  {
    FormValues(props.profileImage, props.firstName, props.lastName, props.email, props.major,
               props.gradYear, props.userBio, props.pronouns, props.fbURL, props.igURL)
  }

  /** A JavaScript number as `Number(...)` yields it. */
  datatype JsNumber = NaN | Finite(value: real) | PositiveInfinity | NegativeInfinity

  /** `n < bound` in JavaScript (false for NaN). */
  predicate Below(n: JsNumber, bound: real) {
    match n
    case Finite(r) => r < bound
    case NegativeInfinity => true
    case _ => false
  }

  /** `n > bound` in JavaScript (false for NaN). */
  predicate Above(n: JsNumber, bound: real) {
    match n
    case Finite(r) => r > bound
    case PositiveInfinity => true
    case _ => false
  }

  /** The regular-expression tests and the number conversion the rules use. */
  datatype Primitives = Primitives(
    emailPattern: string -> bool,
    facebookPattern: string -> bool,
    instagramPattern: string -> bool,
    toNumber: string -> JsNumber)

  /** The fields that carry validation rules. */
  datatype FormField = FirstName | LastName | Email | Major | GradYear | UserBio | FbURL | IgURL

  const FirstNameRequired := "First name is required."
  const LastNameRequired := "Last name is required."
  const EmailRequired := "Email address is required."
  const EmailInvalid := "Invalid email address format."
  const MajorRequired := "Major is required."
  const GradYearRequired := "Grad year is required."
  const GradYearInvalid := "Please enter a valid graduation year."
  const BioTooLong := "Please keep your bio under 50 words."
  const FacebookInvalid := "Invalid facebook url format."
  const InstagramInvalid := "Invalid instagram url format."
  const CheckInformation := "Please check your information."

  const MinGradYear: real := 2000.0
  const MaxGradYear: real := 2100.0
  const MaxBioPieces := 50

  /**
   * JavaScript's `s.split(sep)` for a one-character separator: there is always
   * at least one piece, and no piece holds the separator.
   */
  function Split(s: string, sep: char): (r: seq<string>)
    ensures |r| >= 1
    ensures forall i :: 0 <= i < |r| ==> sep !in r[i]
  {
    if s == [] then [[]]
    else
      var rest := Split(s[1..], sep);
      if s[0] == sep then [[]] + rest else [[s[0]] + rest[0]] + rest[1..]
  }

  /** `parts.join(sep)`. */
  function Join(parts: seq<string>, sep: char): string
    requires |parts| >= 1
  {
    if |parts| == 1 then parts[0] else parts[0] + [sep] + Join(parts[1..], sep)
  }

  /** Splitting yields one more piece than there are separators. */
  lemma {:induction false} SplitLength(s: string, sep: char)
    ensures |Split(s, sep)| == multiset(s)[sep] + 1
  {
    if s != [] {
      SplitLength(s[1..], sep);
      assert s == [s[0]] + s[1..];
      assert multiset(s) == multiset([s[0]]) + multiset(s[1..]);
    }
  }

  /** Joining the pieces back with the separator gives the original string. */
  lemma {:induction false} SplitJoin(s: string, sep: char)
    ensures Join(Split(s, sep), sep) == s
  {
    if s != [] {
      SplitJoin(s[1..], sep);
      var rest := Split(s[1..], sep);
      if s[0] != sep && |rest| > 1 {
        assert ([[s[0]] + rest[0]] + rest[1..])[1..] == rest[1..];
        assert Join(rest, sep) == rest[0] + [sep] + Join(rest[1..], sep);
      }
    }
  }


  /**
   * `Number.isNaN(n) || n < 2000 || n > 2100`: only a finite number within
   * [2000, 2100] is a valid year; NaN and both infinities are not.
   */
  predicate InvalidYear(n: JsNumber)
    ensures !InvalidYear(n) <==> n.Finite? && MinGradYear <= n.value <= MaxGradYear
  {
    n.NaN? || Below(n, MinGradYear) || Above(n, MaxGradYear)
  }

  /** The value a field's rules are checked against. */
  function ValueOf(v: FormValues, f: FormField): string {
    match f
    case FirstName => v.firstName
    case LastName => v.lastName
    case Email => v.email
    case Major => v.major
    case GradYear => v.gradYear
    case UserBio => v.userBio
    case FbURL => v.fbURL
    case IgURL => v.igURL
  }

  /** The message of a field's `required` rule, `None` for a field without one. */
  function RequiredMessage(f: FormField): Option<string> {
    match f
    case FirstName => Some(FirstNameRequired)
    case LastName => Some(LastNameRequired)
    case Email => Some(EmailRequired)
    case Major => Some(MajorRequired)
    case GradYear => Some(GradYearRequired)
    case _ => None
  }

  /** Every message a field's rules can report. */
  function MessagesOf(f: FormField): set<string> {
    match f
    case FirstName => {FirstNameRequired}
    case LastName => {LastNameRequired}
    case Email => {EmailRequired, EmailInvalid}
    case Major => {MajorRequired}
    case GradYear => {GradYearRequired, GradYearInvalid}
    case UserBio => {BioTooLong}
    case FbURL => {FacebookInvalid}
    case IgURL => {InstagramInvalid}
  }

  /**
   * The message a field's rules produce, or `None` when it is valid. The rules
   * are tried in the order required, pattern, validate; a pattern is not
   * checked on an empty value.
   */
  function FieldError(prim: Primitives, v: FormValues, f: FormField): (r: Option<string>)
    ensures r.Some? ==> r.value in MessagesOf(f)
    ensures RequiredMessage(f).Some? ==> (r == RequiredMessage(f) <==> ValueOf(v, f) == "")
    ensures RequiredMessage(f).None? && ValueOf(v, f) == "" && f != UserBio ==> r == None
  {
    var value := ValueOf(v, f);
    match f
    case FirstName => if value == "" then Some(FirstNameRequired) else None
    case LastName => if value == "" then Some(LastNameRequired) else None
    case Email =>
      if value == "" then Some(EmailRequired)
      else if !prim.emailPattern(value) then Some(EmailInvalid)
      else None
    case Major => if value == "" then Some(MajorRequired) else None
    case GradYear =>
      if value == "" then Some(GradYearRequired)
      else if InvalidYear(prim.toNumber(value)) then Some(GradYearInvalid)
      else None
    case UserBio => if |Split(value, ' ')| > MaxBioPieces then Some(BioTooLong) else None
    case FbURL => if value != "" && !prim.facebookPattern(value) then Some(FacebookInvalid) else None
    case IgURL => if value != "" && !prim.instagramPattern(value) then Some(InstagramInvalid) else None
  }

  /** The graduation year is accepted exactly when it is non-empty and converts to a number in [2000, 2100]. */
  lemma GradYearAccepted(prim: Primitives, v: FormValues)
    ensures FieldError(prim, v, GradYear) == None <==>
      && v.gradYear != ""
      && prim.toNumber(v.gradYear).Finite?
      && MinGradYear <= prim.toNumber(v.gradYear).value <= MaxGradYear
  {
  }

  /** The bio is rejected exactly when it holds at least 50 space characters. */
  lemma BioWordLimit(prim: Primitives, v: FormValues)
    ensures FieldError(prim, v, UserBio).Some? <==> multiset(v.userBio)[' '] >= MaxBioPieces
  {
    SplitLength(v.userBio, ' ');
  }

  /** An empty bio is accepted. */
  lemma EmptyBioAccepted(prim: Primitives, v: FormValues)
    requires v.userBio == ""
    ensures FieldError(prim, v, UserBio) == None
  {
  }

  /**
   * First name, last name, email, major and graduation year are required, each
   * with its own message; an empty bio, Facebook URL or Instagram URL is valid.
   */
  lemma RequiredFields(prim: Primitives, v: FormValues)
    ensures v.firstName == "" ==> FieldError(prim, v, FirstName) == Some(FirstNameRequired)
    ensures v.lastName == "" ==> FieldError(prim, v, LastName) == Some(LastNameRequired)
    ensures v.email == "" ==> FieldError(prim, v, Email) == Some(EmailRequired)
    ensures v.major == "" ==> FieldError(prim, v, Major) == Some(MajorRequired)
    ensures v.gradYear == "" ==> FieldError(prim, v, GradYear) == Some(GradYearRequired)
    ensures v.userBio == "" ==> FieldError(prim, v, UserBio) == None
    ensures v.fbURL == "" ==> FieldError(prim, v, FbURL) == None
    ensures v.igURL == "" ==> FieldError(prim, v, IgURL) == None
  {
  }

  /** Pronouns carry no rule: changing them changes no field's verdict. */
  lemma PronounsNeverValidated(prim: Primitives, v: FormValues, pronouns: string, f: FormField)
    ensures FieldError(prim, v.(pronouns := pronouns), f) == FieldError(prim, v, f)
  {
  }

  /** An entry of the major or pronouns select. */
  datatype DropdownOption = DropdownOption(labelText: string, value: string)

  /** The value a select's `onChange` stores: the chosen option's value, or "" when cleared. */
  function SelectedValue(e: Option<DropdownOption>): (r: string)
    ensures e.None? ==> r == ""
    ensures e.Some? ==> r == e.value.value
  {
    if e == None then "" else e.value.value
  }

  /** Clearing the major select leaves an empty major, which the required rule rejects. */
  lemma ClearedMajorIsRequired(prim: Primitives, v: FormValues)
    ensures FieldError(prim, v.(major := SelectedValue(None)), Major) == Some(MajorRequired)
  {
  }

  /** The fields checked on submit, in the order they are triggered. */
  const TriggerOrder: seq<FormField> := [FirstName, LastName, Email, Major, GradYear, UserBio, FbURL, IgURL]

  /** The elements of `xs` that satisfy `keep`, in order. */
  function Filter<T>(xs: seq<T>, keep: T -> bool): seq<T>
    decreases |xs|
  {
    if xs == [] then []
    else
      var last := xs[|xs| - 1];
      Filter(xs[..|xs| - 1], keep) + (if keep(last) then [last] else [])
  }

  /** An element is kept exactly when it occurs in `xs` and satisfies `keep`. */
  lemma {:induction false} FilterMembers<T>(xs: seq<T>, keep: T -> bool, x: T)
    ensures x in Filter(xs, keep) <==> x in xs && keep(x)
    decreases |xs|
  {
    if xs != [] {
      var init := xs[..|xs| - 1];
      FilterMembers(init, keep, x);
      assert xs == init + [xs[|xs| - 1]];
    }
  }

  /** The distinct elements of `xs` that satisfy `keep`. */
  function KeptSet<T>(xs: seq<T>, keep: T -> bool): set<T> {
    set x | x in xs && keep(x)
  }

  /** Appending an element adds it to the kept set exactly when it is kept. */
  lemma KeptSetAppend<T>(xs: seq<T>, x: T, keep: T -> bool)
    ensures KeptSet(xs + [x], keep) == KeptSet(xs, keep) + (if keep(x) then {x} else {})
  {
    var lhs := KeptSet(xs + [x], keep);
    var rhs := KeptSet(xs, keep) + (if keep(x) then {x} else {});
    forall y
      ensures y in lhs <==> y in rhs
    {
      assert y in xs + [x] <==> y in xs || y == x;
    }
  }

  /** Over a sequence without repetitions, the filter's length is the number of distinct kept elements. */
  lemma {:induction false} FilterCount<T>(xs: seq<T>, keep: T -> bool)
    requires forall i, j :: 0 <= i < j < |xs| ==> xs[i] != xs[j]
    ensures |Filter(xs, keep)| == |KeptSet(xs, keep)|
    decreases |xs|
  {
    if xs != [] {
      var init := xs[..|xs| - 1];
      var last := xs[|xs| - 1];
      FilterCount(init, keep);
      assert xs == init + [last];
      KeptSetAppend(init, last, keep);
      assert last !in KeptSet(init, keep);
    }
  }

  /** Over a sequence without repetitions, when `x` is the only kept element, the filter is `x` alone. */
  lemma {:induction false} FilterOnly<T>(xs: seq<T>, keep: T -> bool, x: T)
    requires forall i, j :: 0 <= i < j < |xs| ==> xs[i] != xs[j]
    requires x in xs && keep(x)
    requires forall y :: y != x ==> !keep(y)
    ensures Filter(xs, keep) == [x]
    decreases |xs|
  {
    var init := xs[..|xs| - 1];
    var last := xs[|xs| - 1];
    assert xs == init + [last];
    if last == x {
      var before := Filter(init, keep);
      if before != [] {
        FilterMembers(init, keep, before[0]);
        assert false;
      }
    } else {
      FilterOnly(init, keep, x);
    }
  }

  /** Whether a field's rules fail on the given values. */
  function Fails(prim: Primitives, v: FormValues): FormField -> bool {
    (f: FormField) => FieldError(prim, v, f).Some?
  }

  /** The fields of `fields` whose rules fail, in order. */
  function Failing(prim: Primitives, v: FormValues, fields: seq<FormField>): seq<FormField> {
    Filter(fields, Fails(prim, v))
  }

  /** A field is listed as failing exactly when it is among `fields` and its rules fail. */
  lemma FailingIsExactlyInvalid(prim: Primitives, v: FormValues, fields: seq<FormField>, f: FormField)
    ensures f in Failing(prim, v, fields) <==> f in fields && FieldError(prim, v, f).Some?
  {
    FilterMembers(fields, Fails(prim, v), f);
  }

  /** The fields whose rules fail on the given values. */
  function InvalidFields(prim: Primitives, v: FormValues): set<FormField> {
    set f: FormField | FieldError(prim, v, f).Some?
  }

  /** The failing count of a submit is the number of fields whose rules fail. */
  lemma FailingCountsInvalidFields(prim: Primitives, v: FormValues)
    ensures |Failing(prim, v, TriggerOrder)| == |InvalidFields(prim, v)|
  {
    var keep := Fails(prim, v);
    FilterCount(TriggerOrder, keep);
    forall f
      ensures f in KeptSet(TriggerOrder, keep) <==> f in InvalidFields(prim, v)
    {
      assert f in TriggerOrder by {
        match f
        case FirstName => assert TriggerOrder[0] == f;
        case LastName => assert TriggerOrder[1] == f;
        case Email => assert TriggerOrder[2] == f;
        case Major => assert TriggerOrder[3] == f;
        case GradYear => assert TriggerOrder[4] == f;
        case UserBio => assert TriggerOrder[5] == f;
        case FbURL => assert TriggerOrder[6] == f;
        case IgURL => assert TriggerOrder[7] == f;
      }
    }
    assert KeptSet(TriggerOrder, keep) == InvalidFields(prim, v);
  }

  /** When exactly one field fails, the failing list is that field alone. */
  lemma SingleFailure(prim: Primitives, v: FormValues, f: FormField)
    requires FieldError(prim, v, f).Some?
    requires forall g :: g != f ==> FieldError(prim, v, g).None?
    ensures Failing(prim, v, TriggerOrder) == [f]
  {
    FilterOnly(TriggerOrder, Fails(prim, v), f);
  }

  /**
   * `checkForErrors`: trigger every field's rules in order, count the failures
   * and keep the message of the last one; with more than one failure the
   * message becomes the generic one. `toast` is the description of the error
   * notification, `None` when none is shown.
   */
  method CheckForErrors(prim: Primitives, v: FormValues) returns (numErrors: nat, toast: Option<string>)
    ensures numErrors == |Failing(prim, v, TriggerOrder)|
    ensures numErrors == 0 <==> toast == None
    ensures numErrors == 1 ==> toast == FieldError(prim, v, Failing(prim, v, TriggerOrder)[0])
    ensures numErrors > 1 ==> toast == Some(CheckInformation)
  {
    numErrors := 0;
    var errorMsg: Option<string> := None;
    for i := 0 to |TriggerOrder|
      invariant numErrors == |Failing(prim, v, TriggerOrder[..i])|
      invariant numErrors == 0 ==> errorMsg == None
      invariant numErrors > 0 ==>
        var failing := Failing(prim, v, TriggerOrder[..i]);
        errorMsg == FieldError(prim, v, failing[|failing| - 1]) && errorMsg.Some?
    {
      var f := TriggerOrder[i];
      assert TriggerOrder[..i + 1][..i] == TriggerOrder[..i];
      var error := FieldError(prim, v, f);
      if error.Some? {
        numErrors := numErrors + 1;
        errorMsg := error;
      }
    }
    assert TriggerOrder[..|TriggerOrder|] == TriggerOrder;
    if numErrors > 1 {
      errorMsg := Some(CheckInformation);
    }
    toast := errorMsg;
  }
}
