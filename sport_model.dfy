/** models/Sport.js: a declarative schema with required paths, the level enum
    and its default. */
module SportModel {
  import opened Common
  import opened Text

  datatype Level = All | Beginner | Intermediate | Advanced

  /** `default: 'all'` */
  const DefaultLevel := All

  /** The enum's strings, in the order the schema lists them. */
  const LevelNames := ["all", "beginner", "intermediate", "advanced"]

  function LevelName(l: Level): (s: string)
    ensures s in LevelNames
  {
    match l
    case All => "all"
    case Beginner => "beginner"
    case Intermediate => "intermediate"
    case Advanced => "advanced"
  }

  /** The enum validator: the level a string names, if it names one. */
  function ParseLevel(s: string): (r: Option<Level>)
    ensures r.Some? <==> s in LevelNames
    ensures r.Some? ==> LevelName(r.value) == s
  {
    if s == "all" then Some(All)
    else if s == "beginner" then Some(Beginner)
    else if s == "intermediate" then Some(Intermediate)
    else if s == "advanced" then Some(Advanced)
    else None
  }

  /** Each level is stored under its own name and read back as itself. */
  lemma ParseLevelName(l: Level)
    ensures ParseLevel(LevelName(l)) == Some(l)
  {
  }

  /** A stored sport. */
  datatype Sport = Sport(
    title: string, description: string, rules: string, cost: Option<real>,
    level: Level, createdAt: int, event: Id, user: Id)

  /** The schema paths a request body may carry. */
  datatype SportFields = SportFields(
    title: Option<string>, description: Option<string>, rules: Option<string>,
    cost: Option<real>, level: Option<string>, event: Option<Id>, user: Option<Id>)

  /** `required` on a trimmed path: something other than white space. */
  predicate TitleOk(t: string) {
    Trim(t) != []
  }

  predicate TitlePathOk(b: SportFields, required: bool) {
    Supplied(b.title, required) && (b.title.Some? ==> TitleOk(b.title.value))
  }

  /** A present string path under `required` must not be empty. */
  predicate TextPathOk(v: Option<string>, required: bool) {
    Supplied(v, required) && v != Some("")
  }

  predicate LevelPathOk(b: SportFields) {
    b.level.Some? ==> ParseLevel(b.level.value).Some?
  }

  /** Every validator of SportSchema holds; see EventModel.EventConforms for `required`. */
  predicate SportConforms(b: SportFields, required: bool) {
    && TitlePathOk(b, required)
    && TextPathOk(b.description, required)
    && TextPathOk(b.rules, required)
    && LevelPathOk(b)
    && Supplied(b.event, required)
    && Supplied(b.user, required)
  }

  /** The paths a ValidationError names, in schema order. */
  function SportViolations(b: SportFields, required: bool): (errs: seq<string>)
    ensures errs == [] <==> SportConforms(b, required)
  {
    (if TitlePathOk(b, required) then [] else ["title"])
    + (if TextPathOk(b.description, required) then [] else ["description"])
    + (if TextPathOk(b.rules, required) then [] else ["rules"])
    + (if LevelPathOk(b) then [] else ["level"])
    + (if Supplied(b.event, required) then [] else ["event"])
    + (if Supplied(b.user, required) then [] else ["user"])
  }

  /** What every stored sport satisfies. */
  predicate SportOk(s: Sport) {
    s.title != [] && Trimmed(s.title) && s.description != [] && s.rules != []
  }

  /** The sports collection: every record well formed. */
  predicate SportsOk(sports: map<Id, Sport>) {
    forall k :: k in sports ==> SportOk(sports[k])
  }

  /** `Sport.create(body)` on a body that passes validation: the title trimmed,
      the level read from its name or defaulted, cost optional. */
  function NewSport(b: SportFields, now: int): (s: Sport)
    requires SportConforms(b, true)
    ensures SportOk(s)
    ensures b.level.None? ==> s.level == DefaultLevel
    ensures b.level.Some? ==> LevelName(s.level) == b.level.value
    ensures s.event == b.event.value && s.user == b.user.value && s.cost == b.cost
  {
    Sport(Trim(b.title.value), b.description.value, b.rules.value, b.cost,
          if b.level.Some? then ParseLevel(b.level.value).value else DefaultLevel,
          now, b.event.value, b.user.value)
  }

  /** `findByIdAndUpdate(id, body)` on a sport: the paths present replace the stored ones. */
  function PatchedSport(s: Sport, p: SportFields): (r: Sport)
    requires SportConforms(p, false)
    ensures r.createdAt == s.createdAt
    ensures p.level.Some? ==> LevelName(r.level) == p.level.value
    ensures p.level.None? ==> r.level == s.level
  {
    s.(title := if p.title.Some? then Trim(p.title.value) else s.title,
       description := p.description.GetOr(s.description),
       rules := p.rules.GetOr(s.rules),
       cost := if p.cost.Some? then p.cost else s.cost,
       level := if p.level.Some? then ParseLevel(p.level.value).value else s.level,
       event := p.event.GetOr(s.event),
       user := p.user.GetOr(s.user))
  }

  /** An update that passes the update validators keeps a stored sport well formed. */
  lemma PatchKeepsSportOk(s: Sport, p: SportFields)
    requires SportOk(s) && SportConforms(p, false)
    ensures SportOk(PatchedSport(s, p))
  {
  }
}
