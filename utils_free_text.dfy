/** Normalisation of the three accepted input shapes into the canonical agent input,
    and the two-attempt JSON extraction from a completion response
    (Backend/utils_free_text.py). The completion call and json.loads are parameters:
    `response` is the text the completion service returned, `parse` is json.loads
    (None when it raises JSONDecodeError) and `show` is Python's str() of a value. */
module FreeText {
  import opened Outcomes
  import opened Json
  import opened Strings

  /** The pydantic model ProjectInput: eleven strings, six lists of strings and an
      optional string. */
  datatype ProjectInput = ProjectInput(
    projectName: string,
    projectDescription: string,
    stakeholder: string,
    category: string,
    startDate: string,
    expectedDuration: string,
    durationUnit: string,
    teamSize: string,
    budget: string,
    experience: string,
    locationType: string,
    frontend: seq<string>,
    backend: seq<string>,
    database: seq<string>,
    cloud: seq<string>,
    devops: seq<string>,
    design: seq<string>,
    otherTech: Option<string>)

  /** What normalize_input can be handed: the model itself, a JSON value (a str, a
      dict or anything else json.loads makes), or some other object, given by its str(). */
  datatype Payload =
    | Structured(input: ProjectInput)
    | Value(json: Json)
    | Foreign(shown: string)

  /** The keys the model declares, by name. */
  datatype Key =
    | ProjectName | ProjectDescription | Stakeholder | Category | StartDate
    | ExpectedDuration | DurationUnit | TeamSize | Budget | Experience | LocationType
    | Frontend | Backend | Database | Cloud | Devops | Design | OtherTech

  function KeyName(k: Key): string {
    match k
    case ProjectName => "projectName"
    case ProjectDescription => "projectDescription"
    case Stakeholder => "stakeholder"
    case Category => "category"
    case StartDate => "startDate"
    case ExpectedDuration => "expectedDuration"
    case DurationUnit => "durationUnit"
    case TeamSize => "teamSize"
    case Budget => "budget"
    case Experience => "experience"
    case LocationType => "locationType"
    case Frontend => "frontend"
    case Backend => "backend"
    case Database => "database"
    case Cloud => "cloud"
    case Devops => "devops"
    case Design => "design"
    case OtherTech => "otherTech"
  }

  predicate IsListKey(k: Key) {
    k in {Frontend, Backend, Database, Cloud, Devops, Design}
  }

  /** The JSON value of an optional string: Python's None becomes null. */
  function OptStr(o: Option<string>): (r: Json)
    ensures o.None? <==> r == JNull
    ensures o.Some? ==> r == JStr(o.value)
  {
    if o.Some? then JStr(o.value) else JNull
  }

  /** The value `input.dict()` has under a key. */
  function FieldValue(pi: ProjectInput, k: Key): Json {
    match k
    case ProjectName => JStr(pi.projectName)
    case ProjectDescription => JStr(pi.projectDescription)
    case Stakeholder => JStr(pi.stakeholder)
    case Category => JStr(pi.category)
    case StartDate => JStr(pi.startDate)
    case ExpectedDuration => JStr(pi.expectedDuration)
    case DurationUnit => JStr(pi.durationUnit)
    case TeamSize => JStr(pi.teamSize)
    case Budget => JStr(pi.budget)
    case Experience => JStr(pi.experience)
    case LocationType => JStr(pi.locationType)
    case Frontend => Strs(pi.frontend)
    case Backend => Strs(pi.backend)
    case Database => Strs(pi.database)
    case Cloud => Strs(pi.cloud)
    case Devops => Strs(pi.devops)
    case Design => Strs(pi.design)
    case OtherTech => OptStr(pi.otherTech)
  }

  /** The declared type of each field: str, List[str], or Optional[str] = None. */
  datatype Kind = Text | TextList | OptionalText

  function KindOf(k: Key): Kind {
    if IsListKey(k) then TextList else if k == OtherTech then OptionalText else Text
  }

  /** A dict that holds the model's values under the model's keys (other keys may follow). */
  predicate HoldsModel(m: map<string, Json>, pi: ProjectInput) {
    forall k: Key :: GetOr(m, KeyName(k), JNull) == FieldValue(pi, k)
  }

  // ---------------------------------------------------------------- pydantic

  /** The value under `k` has the field's declared type (a missing Optional field is None). */
  predicate HasKind(m: map<string, Json>, k: Key) {
    var v := GetOr(m, KeyName(k), JNull);
    match KindOf(k)
    case Text => v.JStr?
    case TextList => v.JArr? && forall i :: 0 <= i < |v.items| ==> v.items[i].JStr?
    case OptionalText => v.JNull? || v.JStr?
  }

  /** The str a well-typed str field holds. */
  function TextOf(m: map<string, Json>, k: Key): (r: string)
    requires HasKind(m, k) && KindOf(k) == Text
    ensures GetOr(m, KeyName(k), JNull) == JStr(r)
  {
    GetOr(m, KeyName(k), JNull).s
  }

  /** The list a well-typed List[str] field holds. */
  function TextListOf(m: map<string, Json>, k: Key): (r: seq<string>)
    requires HasKind(m, k) && KindOf(k) == TextList
    ensures GetOr(m, KeyName(k), JNull) == Strs(r)
  {
    var items := GetOr(m, KeyName(k), JNull).items;
    var xs := seq(|items|, i requires 0 <= i < |items| => items[i].s);
    assert items == Strs(xs).items;
    xs
  }

  /** The optional str a well-typed Optional[str] field holds. */
  function OptionalTextOf(m: map<string, Json>, k: Key): (r: Option<string>)
    requires HasKind(m, k) && KindOf(k) == OptionalText
    ensures GetOr(m, KeyName(k), JNull) == OptStr(r)
  {
    var v := GetOr(m, KeyName(k), JNull);
    if v.JStr? then Some(v.s) else None
  }

  /** The model pydantic builds from a well-typed dict. */
  function Build(m: map<string, Json>): ProjectInput
    requires forall k: Key :: HasKind(m, k)
  {
    ProjectInput(
      TextOf(m, ProjectName), TextOf(m, ProjectDescription), TextOf(m, Stakeholder),
      TextOf(m, Category), TextOf(m, StartDate), TextOf(m, ExpectedDuration),
      TextOf(m, DurationUnit), TextOf(m, TeamSize), TextOf(m, Budget),
      TextOf(m, Experience), TextOf(m, LocationType),
      TextListOf(m, Frontend), TextListOf(m, Backend), TextListOf(m, Database),
      TextListOf(m, Cloud), TextListOf(m, Devops), TextListOf(m, Design),
      OptionalTextOf(m, OtherTech))
  }

  /** The built model holds the dict's values, key by key. */
  lemma BuildHolds(m: map<string, Json>)
    requires forall k: Key :: HasKind(m, k)
    ensures HoldsModel(m, Build(m))
  {
    forall k: Key ensures GetOr(m, KeyName(k), JNull) == FieldValue(Build(m), k) {
      match k
      case ProjectName =>
      case ProjectDescription =>
      case Stakeholder =>
      case Category =>
      case StartDate =>
      case ExpectedDuration =>
      case DurationUnit =>
      case TeamSize =>
      case Budget =>
      case Experience =>
      case LocationType =>
      case Frontend =>
      case Backend =>
      case Database =>
      case Cloud =>
      case Devops =>
      case Design =>
      case OtherTech =>
    }
  }

  /** `ProjectInput(**m)`: pydantic accepts the dict exactly when every field has its
      declared type (keys the model does not declare are ignored; nothing is coerced),
      and the model it builds holds exactly the values `m` has under the model's keys.
      None stands for the ValidationError it raises otherwise. */
  function Validate(m: map<string, Json>): (r: Option<ProjectInput>)
    ensures r.Some? <==> forall k: Key :: HasKind(m, k)
    ensures r.Some? ==> HoldsModel(m, r.value)
  {
    if forall k: Key :: HasKind(m, k) then
      BuildHolds(m);
      Some(Build(m))
    else None
  }

  /** Every model's own values have the declared types. */
  lemma ModelIsWellTyped(pi: ProjectInput, k: Key)
    ensures KindOf(k) == Text ==> FieldValue(pi, k).JStr?
    ensures KindOf(k) == TextList ==> FieldValue(pi, k).JArr? && forall i :: 0 <= i < |FieldValue(pi, k).items| ==> FieldValue(pi, k).items[i].JStr?
    ensures KindOf(k) == OptionalText ==> FieldValue(pi, k).JNull? || FieldValue(pi, k).JStr?
  {
  }

  /** Two models with the same value under every key are the same model. */
  lemma {:induction false} FieldValuesDetermine(pi: ProjectInput, pj: ProjectInput)
    requires forall k: Key :: FieldValue(pi, k) == FieldValue(pj, k)
    ensures pi == pj
  {
    TextFieldsAgree(pi, pj);
    ListFieldsAgree(pi, pj);
    assert FieldValue(pi, OtherTech) == FieldValue(pj, OtherTech);
  }

  lemma TextFieldsAgree(pi: ProjectInput, pj: ProjectInput)
    requires forall k: Key :: FieldValue(pi, k) == FieldValue(pj, k)
    ensures && pi.projectName == pj.projectName && pi.projectDescription == pj.projectDescription
            && pi.stakeholder == pj.stakeholder && pi.category == pj.category
            && pi.startDate == pj.startDate && pi.expectedDuration == pj.expectedDuration
            && pi.durationUnit == pj.durationUnit && pi.teamSize == pj.teamSize
            && pi.budget == pj.budget && pi.experience == pj.experience
            && pi.locationType == pj.locationType
  {
    assert FieldValue(pi, ProjectName) == FieldValue(pj, ProjectName);
    assert FieldValue(pi, ProjectDescription) == FieldValue(pj, ProjectDescription);
    assert FieldValue(pi, Stakeholder) == FieldValue(pj, Stakeholder);
    assert FieldValue(pi, Category) == FieldValue(pj, Category);
    assert FieldValue(pi, StartDate) == FieldValue(pj, StartDate);
    assert FieldValue(pi, ExpectedDuration) == FieldValue(pj, ExpectedDuration);
    assert FieldValue(pi, DurationUnit) == FieldValue(pj, DurationUnit);
    assert FieldValue(pi, TeamSize) == FieldValue(pj, TeamSize);
    assert FieldValue(pi, Budget) == FieldValue(pj, Budget);
    assert FieldValue(pi, Experience) == FieldValue(pj, Experience);
    assert FieldValue(pi, LocationType) == FieldValue(pj, LocationType);
  }

  lemma ListFieldsAgree(pi: ProjectInput, pj: ProjectInput)
    requires forall k: Key :: FieldValue(pi, k) == FieldValue(pj, k)
    ensures && pi.frontend == pj.frontend && pi.backend == pj.backend
            && pi.database == pj.database && pi.cloud == pj.cloud
            && pi.devops == pj.devops && pi.design == pj.design
  {
    assert FieldValue(pi, Frontend) == FieldValue(pj, Frontend);
    StrsInjective(pi.frontend, pj.frontend);
    assert FieldValue(pi, Backend) == FieldValue(pj, Backend);
    StrsInjective(pi.backend, pj.backend);
    assert FieldValue(pi, Database) == FieldValue(pj, Database);
    StrsInjective(pi.database, pj.database);
    assert FieldValue(pi, Cloud) == FieldValue(pj, Cloud);
    StrsInjective(pi.cloud, pj.cloud);
    assert FieldValue(pi, Devops) == FieldValue(pj, Devops);
    StrsInjective(pi.devops, pj.devops);
    assert FieldValue(pi, Design) == FieldValue(pj, Design);
    StrsInjective(pi.design, pj.design);
  }

  /** Conversely, a dict holding a model's values validates to that model. */
  lemma {:induction false} ValidateHeldModel(m: map<string, Json>, pi: ProjectInput)
    requires HoldsModel(m, pi)
    ensures Validate(m) == Some(pi)
  {
    forall k: Key ensures HasKind(m, k) {
      assert GetOr(m, KeyName(k), JNull) == FieldValue(pi, k);
    match k
    case ProjectName =>
    case ProjectDescription =>
    case Stakeholder =>
    case Category =>
    case StartDate =>
    case ExpectedDuration =>
    case DurationUnit =>
    case TeamSize =>
    case Budget =>
    case Experience =>
    case LocationType =>
    case Frontend =>
    case Backend =>
    case Database =>
    case Cloud =>
    case Devops =>
    case Design =>
    case OtherTech =>
    }
    var r := Validate(m).value;
    forall k: Key ensures FieldValue(r, k) == FieldValue(pi, k) {
    assert GetOr(m, KeyName(k), JNull) == FieldValue(pi, k);
    assert GetOr(m, KeyName(k), JNull) == FieldValue(r, k);
    }
    FieldValuesDetermine(r, pi);
  }

  /** `ProjectInput(**d)` reads only the declared fields: a key no field has, set to any
      value, leaves the validation as it was. */
  lemma ValidateIgnoresUndeclared(m: map<string, Json>, key: string, v: Json)
    requires forall k: Key :: KeyName(k) != key
    ensures Validate(m[key := v]) == Validate(m)
  {
    var n := m[key := v];
    forall k: Key ensures GetOr(n, KeyName(k), JNull) == GetOr(m, KeyName(k), JNull) {
    }
    forall k: Key ensures HasKind(n, k) == HasKind(m, k) {
    }
    if Validate(m).Some? {
      var p, q := Validate(n).value, Validate(m).value;
      forall k: Key ensures FieldValue(p, k) == FieldValue(q, k) {
        assert GetOr(n, KeyName(k), JNull) == FieldValue(p, k);
        assert GetOr(m, KeyName(k), JNull) == FieldValue(q, k);
      }
      FieldValuesDetermine(p, q);
    }
  }

  /** "text" is not a field of the model. */
  lemma TextUndeclared()
    ensures forall k: Key :: KeyName(k) != "text"
  {
    forall k: Key ensures KeyName(k) != "text" {
      match k
      case ProjectName =>
      case ProjectDescription =>
      case Stakeholder =>
      case Category =>
      case StartDate =>
      case ExpectedDuration =>
      case DurationUnit =>
      case TeamSize =>
      case Budget =>
      case Experience =>
      case LocationType =>
      case Frontend =>
      case Backend =>
      case Database =>
      case Cloud =>
      case Devops =>
      case Design =>
      case OtherTech =>
    }
  }

  // ---------------------------------------------------------------- records

  /** The techStack block: one entry per technology category. */
  datatype TechStack = TechStack(frontend: Json, backend: Json, database: Json, cloud: Json, devops: Json, design: Json)

  /** The meta block. */
  datatype Meta = Meta(startDate: Json, duration: Json, teamSize: Json, budget: Json,
                     experience: Json, locationType: Json, otherTech: Json)

  /** The dict normalize_input returns, by shape: the canonical record; the degraded
    free-text record whose techStack and meta are `{}`; or `{"projectDescription": ...}`. */
  datatype AgentInput =
    | Full(projectName: Json, projectDescription: Json, stakeholders: Json, techStack: TechStack, meta: Meta)
    | EmptySections(projectName: Json, projectDescription: Json, stakeholders: Json)
    | DescriptionOnly(projectDescription: Json)

  /** Where the canonical record keeps the value that came from input key `k`:
    `stakeholder` lands in `stakeholders`, `expectedDuration` in `meta.duration`, and
    `category` and `durationUnit` have no place. */
  function Slot(a: AgentInput, k: Key): Option<Json>
    requires a.Full?
  {
    match k
    case ProjectName => Some(a.projectName)
    case ProjectDescription => Some(a.projectDescription)
    case Stakeholder => Some(a.stakeholders)
    case Category => None
    case StartDate => Some(a.meta.startDate)
    case ExpectedDuration => Some(a.meta.duration)
    case DurationUnit => None
    case TeamSize => Some(a.meta.teamSize)
    case Budget => Some(a.meta.budget)
    case Experience => Some(a.meta.experience)
    case LocationType => Some(a.meta.locationType)
    case Frontend => Some(a.techStack.frontend)
    case Backend => Some(a.techStack.backend)
    case Database => Some(a.techStack.database)
    case Cloud => Some(a.techStack.cloud)
    case Devops => Some(a.techStack.devops)
    case Design => Some(a.techStack.design)
    case OtherTech => Some(a.meta.otherTech)
  }

  /** The structured branch (lines 100-122): every field of the model except `category`
    and `durationUnit` is copied, unchanged, into its slot. */
  function StructuredRecord(pi: ProjectInput): (r: AgentInput)
    ensures r.Full?
    ensures forall k: Key :: Slot(r, k).Some? <==> k != Category && k != DurationUnit
    ensures forall k: Key :: Slot(r, k).Some? ==> Slot(r, k).value == FieldValue(pi, k)
  {
    Full(JStr(pi.projectName), JStr(pi.projectDescription), JStr(pi.stakeholder),
    TechStack(Strs(pi.frontend), Strs(pi.backend), Strs(pi.database), Strs(pi.cloud),
              Strs(pi.devops), Strs(pi.design)),
    Meta(JStr(pi.startDate), JStr(pi.expectedDuration), JStr(pi.teamSize), JStr(pi.budget),
         JStr(pi.experience), JStr(pi.locationType), OptStr(pi.otherTech)))
  }

  /** Changing only `category` and `durationUnit` does not change the structured record. */
  lemma StructuredIgnoresDropped(pi: ProjectInput, category: string, durationUnit: string)
    ensures StructuredRecord(pi.(category := category, durationUnit := durationUnit))
       == StructuredRecord(pi)
  {
  }

  /** List[str] values are told apart by their JSON form. */
  lemma StrsInjective(xs: seq<string>, ys: seq<string>)
    requires Strs(xs) == Strs(ys)
    ensures xs == ys
  {
    assert |xs| == |ys|;
    forall i | 0 <= i < |xs| ensures xs[i] == ys[i] {
    assert Strs(xs).items[i] == Strs(ys).items[i];
    }
  }

  /** The default `.get` supplies for a key the extraction lacks: [] for a list, else "". */
  function Default(k: Key): Json {
    if IsListKey(k) then JArr([]) else JStr("")
  }

  /** What the free-text branch reads for input key `k`. */
  function Pick(m: map<string, Json>, k: Key): Json {
    GetOr(m, KeyName(k), Default(k))
  }

  /** The free-text branch on an extracted dict (lines 128-150): every slot is filled; a
    key the extraction has is copied verbatim, whatever its type, and a missing one
    takes its default ([] for a technology list, "" otherwise). */
  function FreeTextRecord(m: map<string, Json>): (r: AgentInput)
    ensures r.Full?
  {
    Full(Pick(m, ProjectName), Pick(m, ProjectDescription), Pick(m, Stakeholder),
    TechStack(Pick(m, Frontend), Pick(m, Backend), Pick(m, Database), Pick(m, Cloud),
              Pick(m, Devops), Pick(m, Design)),
    Meta(Pick(m, StartDate), Pick(m, ExpectedDuration), Pick(m, TeamSize), Pick(m, Budget),
         Pick(m, Experience), Pick(m, LocationType), Pick(m, OtherTech)))
  }

  /** Where FreeTextRecord puts what it reads: in every slot, the input key's value or
    its default; `category` and `durationUnit` are not read. */
  lemma FreeTextSlots(m: map<string, Json>)
    ensures forall k: Key :: Slot(FreeTextRecord(m), k).Some? <==> k != Category && k != DurationUnit
    ensures forall k: Key :: Slot(FreeTextRecord(m), k).Some? ==> Slot(FreeTextRecord(m), k).value == Pick(m, k)
  {
    forall k: Key ensures && (Slot(FreeTextRecord(m), k).Some? <==> k != Category && k != DurationUnit)
                        && (Slot(FreeTextRecord(m), k).Some? ==> Slot(FreeTextRecord(m), k).value == Pick(m, k)) {
    match k
    case ProjectName =>
    case ProjectDescription =>
    case Stakeholder =>
    case Category =>
    case StartDate =>
    case ExpectedDuration =>
    case DurationUnit =>
    case TeamSize =>
    case Budget =>
    case Experience =>
    case LocationType =>
    case Frontend =>
    case Backend =>
    case Database =>
    case Cloud =>
    case Devops =>
    case Design =>
    case OtherTech =>
    }
  }

  /** The two branches agree: on a dict holding a model's values, with otherTech present,
    the free-text record is the structured record of that model. */
  lemma {:induction false} FreeTextOfHeldModel(m: map<string, Json>, pi: ProjectInput)
    requires HoldsModel(m, pi) && KeyName(OtherTech) in m
    ensures FreeTextRecord(m) == StructuredRecord(pi)
  {
    FreeTextSlots(m);
    var a, b := FreeTextRecord(m), StructuredRecord(pi);
    forall k: Key ensures Slot(a, k) == Slot(b, k) {
    if k != Category && k != DurationUnit {
      PickHeld(m, pi, k);
    }
    }
    SlotsDetermine(FreeTextRecord(m), StructuredRecord(pi));
  }

  /** The free-text branch reads a held model's value under each key it keeps. */
  lemma PickHeld(m: map<string, Json>, pi: ProjectInput, k: Key)
    requires HoldsModel(m, pi) && KeyName(OtherTech) in m
    requires k != Category && k != DurationUnit
    ensures Pick(m, k) == FieldValue(pi, k)
  {
    assert GetOr(m, KeyName(k), JNull) == FieldValue(pi, k);
    match k
    case ProjectName =>
    case ProjectDescription =>
    case Stakeholder =>
    case Category =>
    case StartDate =>
    case ExpectedDuration =>
    case DurationUnit =>
    case TeamSize =>
    case Budget =>
    case Experience =>
    case LocationType =>
    case Frontend =>
    case Backend =>
    case Database =>
    case Cloud =>
    case Devops =>
    case Design =>
    case OtherTech =>
  }

  /** A canonical record is determined by its slots. */
  lemma {:induction false} SlotsDetermine(a: AgentInput, b: AgentInput)
    requires a.Full? && b.Full?
    requires forall k: Key :: Slot(a, k) == Slot(b, k)
    ensures a == b
  {
    assert Slot(a, ProjectName) == Slot(b, ProjectName);
    assert Slot(a, ProjectDescription) == Slot(b, ProjectDescription);
    assert Slot(a, Stakeholder) == Slot(b, Stakeholder);
    assert Slot(a, StartDate) == Slot(b, StartDate);
    assert Slot(a, ExpectedDuration) == Slot(b, ExpectedDuration);
    assert Slot(a, TeamSize) == Slot(b, TeamSize);
    assert Slot(a, Budget) == Slot(b, Budget);
    assert Slot(a, Experience) == Slot(b, Experience);
    assert Slot(a, LocationType) == Slot(b, LocationType);
    assert Slot(a, Frontend) == Slot(b, Frontend);
    assert Slot(a, Backend) == Slot(b, Backend);
    assert Slot(a, Database) == Slot(b, Database);
    assert Slot(a, Cloud) == Slot(b, Cloud);
    assert Slot(a, Devops) == Slot(b, Devops);
    assert Slot(a, Design) == Slot(b, Design);
    assert Slot(a, OtherTech) == Slot(b, OtherTech);
  }

  /** The Python dict of an agent input, as str() and the agents see it. */
  function ToJson(a: AgentInput): (r: Json)
    ensures r.JObj? && "projectDescription" in r.fields
  {
    match a
    case Full(name, description, stakeholders, t, m) =>
      JObj(map["projectName" := name, "projectDescription" := description,
        "stakeholders" := stakeholders,
        "techStack" := JObj(map["frontend" := t.frontend, "backend" := t.backend,
          "database" := t.database, "cloud" := t.cloud, "devops" := t.devops,
          "design" := t.design]),
        "meta" := JObj(map["startDate" := m.startDate, "duration" := m.duration,
          "teamSize" := m.teamSize, "budget" := m.budget, "experience" := m.experience,
          "locationType" := m.locationType, "otherTech" := m.otherTech])])
    case EmptySections(name, description, stakeholders) =>
      JObj(map["projectName" := name, "projectDescription" := description,
        "stakeholders" := stakeholders, "techStack" := JObj(map[]), "meta" := JObj(map[])])
    case DescriptionOnly(description) =>
      Single("projectDescription", description)
  }

  const TopKeys: set<string> := {"projectName", "projectDescription", "stakeholders", "techStack", "meta"}
  const TechKeys: set<string> := {"frontend", "backend", "database", "cloud", "devops", "design"}
  const MetaKeys: set<string> :=
    {"startDate", "duration", "teamSize", "budget", "experience", "locationType", "otherTech"}

  /** The dict of the canonical record has the five top-level keys, six techStack keys and
      seven meta keys. */
  lemma FullKeys(a: AgentInput)
    requires a.Full?
    ensures ToJson(a).fields.Keys == TopKeys
    ensures ToJson(a).fields["techStack"].fields.Keys == TechKeys
    ensures ToJson(a).fields["meta"].fields.Keys == MetaKeys
  {
  }

  /** The degraded record has the same five keys, with empty techStack and meta. */
  lemma EmptySectionsKeys(a: AgentInput)
    requires a.EmptySections?
    ensures ToJson(a).fields.Keys == TopKeys
    ensures ToJson(a).fields["techStack"] == JObj(map[]) && ToJson(a).fields["meta"] == JObj(map[])
  {
  }

  // ---------------------------------------------------------------- extraction

  /** The characters of the argument of `strip("```json")`: stripped as a set, not as a prefix. */
  predicate IsFenceChar(c: char) {
    c == '`' || c == 'j' || c == 's' || c == 'o' || c == 'n'
  }

  predicate IsBacktick(c: char) {
    c == '`'
  }

  /** `raw_output.strip("```json").strip("```").strip()` (line 82). */
  function CleanFences(raw: string): string {
    Strip(StripBy(StripBy(raw, IsFenceChar), IsBacktick))
  }

  /** The middle strip never removes anything: after the character-set strip no backtick
      is left at either end. */
  lemma BacktickStripIsNoop(raw: string)
    ensures StripBy(StripBy(raw, IsFenceChar), IsBacktick) == StripBy(raw, IsFenceChar)
  {
    var s := StripBy(raw, IsFenceChar);
    StripByNoop(s, IsBacktick);
  }

  /** The cleaned text is a piece of the raw text: what was cut from each end is a run of
      fence characters followed (inwards) by a run of whitespace. */
  lemma CleanFencesShape(raw: string)
    ensures exists a, b, c, d :: Framed(raw, CleanFences(raw), IsFenceChar, IsPythonSpace, a, b, c, d)
  {
    BacktickStripIsNoop(raw);
    var t := StripBy(raw, IsFenceChar);
    var a, d := StripByCut(raw, IsFenceChar);
    var b, c := StripByCut(t, IsPythonSpace);
    var m := StripBy(t, IsPythonSpace);
    assert CleanFences(raw) == m;
    FrameOf(raw, t, m, IsFenceChar, IsPythonSpace, a, b, c, d);
  }

  /** try_extract_hidden_plan_json (lines 74-86): the direct parse whenever the raw text
      parses; only when it does not, the parse of the cleaned text, which is None when that
      fails too. */
  function TryExtract(raw: string, parse: string -> Option<Json>): (r: Option<Json>)
    ensures parse(raw).Some? ==> r == parse(raw)
    ensures parse(raw).None? ==> r == parse(CleanFences(raw))
  {
    match parse(raw)
    case Some(v) => Some(v)
    case None => parse(CleanFences(raw))
  }

  /** Conversely, fence runs outside whitespace runs are exactly what the cleaning removes. */
  lemma CleanFencesRuns(a: string, b: string, r: string, c: string, d: string)
    requires All(a, IsFenceChar) && All(d, IsFenceChar)
    requires All(b, IsPythonSpace) && All(c, IsPythonSpace)
    requires b + r + c != [] && !IsFenceChar((b + r + c)[0]) && !IsFenceChar((b + r + c)[|b + r + c| - 1])
    requires r != [] && !IsPythonSpace(r[0]) && !IsPythonSpace(r[|r| - 1])
    ensures CleanFences(a + (b + r + c) + d) == r
  {
    var raw := a + (b + r + c) + d;
    assert raw == a + (b + r + c) + d;
    StripByRuns(a, b + r + c, d, IsFenceChar);
    BacktickStripIsNoop(raw);
    StripByRuns(b, r, c, IsPythonSpace);
  }

  /** The usual fenced reply: fence and newlines are removed, so the JSON array alone is parsed. */
  lemma CleanFencedArray()
    ensures CleanFences("```json\n[1]\n```") == "[1]"
  {
    assert "```json\n[1]\n```" == "```json" + ("\n" + "[1]" + "\n") + "```";
    CleanFencesRuns("```json", "\n", "[1]", "\n", "```");
  }

  /** The strip is by character set: leading letters of "json" go too, so "no [1]" is
      cleaned to "[1]", which prefix removal of "```json" would not do. */
  lemma CleanFencesIsCharacterSet()
    ensures CleanFences("no [1]") == "[1]"
  {
    assert "no [1]" == "no" + (" " + "[1]" + "") + "";
    CleanFencesRuns("no", " ", "[1]", "", "");
  }

  // ---------------------------------------------------------------- normalize_input

  /** What the free-text branch extracts from the completion `response`: the completion
      text is stripped (line 71) and handed to the extraction (line 126). */
  function Brief(response: string, parse: string -> Option<Json>): Option<Json> {
    TryExtract(Strip(response), parse)
  }

  /** The free-text branch (lines 124-158) once the extraction `brief` is known: a truthy
      dict gives the canonical record, a truthy value of any other type makes `.get` raise
      AttributeError, and a failed or falsy extraction gives the degraded record that keeps
      the text as the description. */
  function FromText(text: string, brief: Option<Json>): (r: Try<AgentInput>)
    ensures r.Raised? <==> brief.Some? && Truthy(brief.value) && !brief.value.JObj?
    ensures r.Raised? ==> r.error == AttributeError
    ensures r.Returned? && r.value.Full? <==> brief.Some? && Truthy(brief.value) && brief.value.JObj?
    ensures r.Returned? && r.value.Full? ==> r.value == FreeTextRecord(brief.value.fields)
    ensures r.Returned? && !r.value.Full? ==> r.value == EmptySections(JStr(""), JStr(text), JStr(""))
  {
    if brief.Some? && Truthy(brief.value) then
      if brief.value.JObj? then Returned(FreeTextRecord(brief.value.fields))
      else Raised(AttributeError)
    else Returned(EmptySections(JStr(""), JStr(text), JStr("")))
  }

  /** The agent input is the canonical record exactly in these cases: a model, a dict that
      validates, or free text whose extraction gave a non-empty dict. */
  predicate Usable(p: Payload, response: string, parse: string -> Option<Json>) {
    match p
    case Structured(_) => true
    case Value(v) =>
      if v.JObj? then Validate(v.fields).Some?
      else if v.JStr? then
        var b := Brief(response, parse);
        b.Some? && b.value.JObj? && Truthy(b.value)
      else false
    case Foreign(_) => false
  }

  /** normalize_input (lines 91-169). `response` is what the completion service returns for
      a free-text payload. The result always holds the description; it is the canonical
      record exactly when the input was usable; and the only exception is the
      AttributeError of calling `.get` on an extraction that is truthy but not a dict. */
  function Normalize(p: Payload, response: string, parse: string -> Option<Json>, show: Json -> string): (r: Try<AgentInput>)
    decreases if p.Structured? then 0 else 1
    ensures r.Returned? ==> (r.value.Full? <==> Usable(p, response, parse))
    ensures r.Raised? <==>
      && p.Value? && p.json.JStr?
      && var b := Brief(response, parse); b.Some? && Truthy(b.value) && !b.value.JObj?
    ensures r.Raised? ==> r.error == AttributeError
  {
    match p
    case Structured(pi) => Returned(StructuredRecord(pi))
    case Value(v) =>
      if v.JStr? then FromText(v.s, Brief(response, parse))
      else if v.JObj? then
        (match Validate(v.fields)
         case Some(pi) => Normalize(Structured(pi), response, parse, show)
         case None => Returned(DescriptionOnly(JStr(show(v)))))
      else Returned(DescriptionOnly(JStr(show(v))))
    case Foreign(shown) => Returned(DescriptionOnly(JStr(shown)))
  }

  /** A dict holding a model's values (under the model's keys, other keys ignored)
      normalises exactly as the model does. */
  lemma NormalizeValidDict(m: map<string, Json>, pi: ProjectInput, response: string,
                           parse: string -> Option<Json>, show: Json -> string)
    requires HoldsModel(m, pi)
    ensures Normalize(Value(JObj(m)), response, parse, show) == Normalize(Structured(pi), response, parse, show)
  {
    ValidateHeldModel(m, pi);
    NormalizeDictStep(m, pi, response, parse, show);
  }

  /** The dict branch of normalize_input hands a validated model on. */
  lemma NormalizeDictStep(m: map<string, Json>, pi: ProjectInput, response: string,
                          parse: string -> Option<Json>, show: Json -> string)
    requires Validate(m) == Some(pi)
    ensures Normalize(Value(JObj(m)), response, parse, show) == Normalize(Structured(pi), response, parse, show)
  {
  }

  /** A dict pydantic refuses, and a value that is neither str nor dict, become the
      single-key `{"projectDescription": str(x)}`. */
  lemma NormalizeUnusableValue(v: Json, response: string, parse: string -> Option<Json>, show: Json -> string)
    requires !v.JStr?
    requires v.JObj? ==> Validate(v.fields).None?
    ensures Normalize(Value(v), response, parse, show) == Returned(DescriptionOnly(JStr(show(v))))
  {
  }

  /** Free text whose extraction fails, or gives a falsy value such as {} or null:
      projectName and stakeholders are "", the description is the text itself, and
      techStack and meta are empty. */
  lemma NormalizeFallback(text: string, response: string, parse: string -> Option<Json>, show: Json -> string)
    requires var b := Brief(response, parse); b.None? || !Truthy(b.value)
    ensures Normalize(Value(JStr(text)), response, parse, show) == Returned(EmptySections(JStr(""), JStr(text), JStr("")))
  {
  }
}
