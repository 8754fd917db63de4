/**
 * The stored user document and the field-level `$set` write applied to it.
 *
 * A document is a map from field to value; a field that is absent from the map
 * reads as `undefined`. `$set` overwrites exactly the listed keys (a key set to
 * `null` is stored as null, not removed).
 */
module Records {
  import opened Wrappers

  type UserId = string

  /** One entry of a user's course list. */
  datatype Course = Course(courseAbrName: string, courseLongName: string)

  /**
   * The study-preference structure. Its fields are not interpreted by the
   * actions; they only store it and echo it back.
   */
  datatype StudyPreferences = StudyPreferences(entries: map<string, string>)

  /** The document fields the profile and onboarding actions read or write. */
  datatype Field =
    | Email | FirstName | LastName | Major | GradYear | UserBio | Pronouns | FbURL | IgURL
    | ProfileImage | ProfileImagePublicID
    | UserStatus
    | CourseList
    | UserStudyPreferences

  /** A stored value: JSON null, a string, a course list or a preference object. */
  datatype Value =
    | Null
    | Str(s: string)
    | CourseListValue(courses: seq<Course>)
    | PrefsValue(prefs: StudyPreferences)

  type Document = map<Field, Value>

  /** The update dictionary built by an action and passed as `{ $set: ... }`. */
  type UpdateSet = map<Field, Value>

  /** `doc.f` in JavaScript: `None` when the key is absent. */
  function Get(doc: Document, f: Field): Option<Value> {
    if f in doc then Some(doc[f]) else None
  }

  /** `v !== doc.f` in JavaScript: the key is absent or holds another value. */
  predicate Differs(doc: Document, f: Field, v: Value)
    ensures Differs(doc, f, v) <==> Get(doc, f) != Some(v)
  {
    f !in doc || doc[f] != v
  }

  /**
   * JavaScript truthiness of a possibly-undefined value: undefined, null and the
   * empty string are falsy; every other string and every array or object is truthy.
   */
  predicate Truthy(v: Option<Value>) {
    match v
    case None => false
    case Some(Null) => false
    case Some(Str(s)) => s != ""
    case Some(_) => true
  }

  /** The nine profile fields that the basic-info save diffs one by one. */
  predicate IsScalar(f: Field) {
    f.Email? || f.FirstName? || f.LastName? || f.Major? || f.GradYear? || f.UserBio?
    || f.Pronouns? || f.FbURL? || f.IgURL?
  }

  /** MongoDB `$set`: every key of `upd` takes its new value, every other key keeps its old one. */
  function ApplySet(doc: Document, upd: UpdateSet): (r: Document)
    ensures r.Keys == doc.Keys + upd.Keys
    ensures forall f :: f in upd ==> r[f] == upd[f]
    ensures forall f :: f in doc && f !in upd ==> r[f] == doc[f]
  {
    doc + upd
  }

  /** A `$set` write changes a key only when the key is in the update set. */
  lemma ApplySetChangesOnlyListedKeys(doc: Document, upd: UpdateSet, f: Field)
    requires f !in upd
    ensures Get(ApplySet(doc, upd), f) == Get(doc, f)
  {
  }
}
