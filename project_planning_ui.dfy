/** The four-step project form (Frontend/Plan2Code/src/pages/project-planning-ui.tsx):
    the component's state is the active step, the form data and the error map, and
    every handler replaces one of them. */
module PlanningForm {

  /** The string fields of FormData. `otherTech` is typed `string | undefined`, but it
      starts as "" and is only ever set to a string, so it is a string here. */
  datatype TextField =
    | ProjectName | ProjectDescription | Stakeholder | Category
    | StartDate | ExpectedDuration | DurationUnit | TeamSize | Budget
    | Experience | LocationType | OtherTech

  /** The six checkbox lists of FormData. */
  datatype TechField = Frontend | Backend | Database | Cloud | Devops | Design

  datatype FormData = FormData(text: map<TextField, string>, tech: map<TechField, seq<string>>)

  const AllText: seq<TextField> := [
    ProjectName, ProjectDescription, Stakeholder, Category, StartDate, ExpectedDuration,
    DurationUnit, TeamSize, Budget, Experience, LocationType, OtherTech]

  const AllTech: seq<TechField> := [Frontend, Backend, Database, Cloud, Devops, Design]

  const StepLabels: seq<string> := ["Project Overview", "Timeline & Resources", "Tech Stack", "Review & Generate"]

  /** The two field lists name every field. */
  lemma AllFieldsListed()
    ensures forall f: TextField :: f in AllText
    ensures forall g: TechField :: g in AllTech
  {
    forall f: TextField ensures f in AllText {
      match f
      case ProjectName => case ProjectDescription => case Stakeholder => case Category =>
      case StartDate => case ExpectedDuration => case DurationUnit => case TeamSize =>
      case Budget => case Experience => case LocationType => case OtherTech =>
    }
    forall g: TechField ensures g in AllTech {
      match g
      case Frontend => case Backend => case Database => case Cloud => case Devops => case Design =>
    }
  }

  /** Every field of the form has a value. */
  predicate Complete(fd: FormData) {
    (forall f: TextField :: f in fd.text) && (forall g: TechField :: g in fd.tech)
  }

  /** The value a field reads as; a missing one reads as undefined, which is falsy like "". */
  function Value(text: map<TextField, string>, f: TextField): string {
    if f in text then text[f] else ""
  }

  /** The form's initial state: every string field is "" but durationUnit, which is
      "months", and every checkbox list is empty. */
  function InitialForm(): (fd: FormData)
    ensures Complete(fd)
    ensures forall f: TextField :: fd.text[f] == (if f == DurationUnit then "months" else "")
    ensures forall g: TechField :: fd.tech[g] == []
  {
    AllFieldsListed();
    FormData(
      map f | f in AllText :: if f == DurationUnit then "months" else "",
      map g | g in AllTech :: [])
  }

  /** `xs.filter(item => item !== option)`. */
  function Without(xs: seq<string>, option: string): (r: seq<string>)
    ensures option !in r && |r| <= |xs|
  {
    if xs == [] then []
    else if xs[0] == option then Without(xs[1..], option)
    else [xs[0]] + Without(xs[1..], option)
  }

  /** Filtering keeps every other item, as many times as it occurred. */
  lemma {:induction false} WithoutKeepsOthers(xs: seq<string>, option: string, x: string)
    requires x != option
    ensures multiset(Without(xs, option))[x] == multiset(xs)[x]
  {
    if xs != [] {
      WithoutKeepsOthers(xs[1..], option, x);
      assert xs == [xs[0]] + xs[1..];
    }
  }

  /** Filtering out an option that is not there changes nothing. */
  lemma {:induction false} WithoutAbsent(xs: seq<string>, option: string)
    requires option !in xs
    ensures Without(xs, option) == xs
  {
    if xs != [] {
      assert xs[0] != option;
      assert option !in xs[1..];
      WithoutAbsent(xs[1..], option);
      assert xs == [xs[0]] + xs[1..];
    }
  }

  /** Filtering distributes over concatenation. */
  lemma {:induction false} WithoutAppend(xs: seq<string>, ys: seq<string>, option: string)
    ensures Without(xs + ys, option) == Without(xs, option) + Without(ys, option)
  {
    if xs == [] {
      assert xs + ys == ys;
    } else {
      assert (xs + ys)[0] == xs[0];
      assert (xs + ys)[1..] == xs[1..] + ys;
      WithoutAppend(xs[1..], ys, option);
    }
  }

  /** The update of handleCheckboxChange: remove an option that is there, append one that is not. */
  function Toggle(current: seq<string>, option: string): seq<string> {
    if option in current then Without(current, option) else current + [option]
  }

  /** Toggling a present option removes every occurrence of it and keeps the others. */
  lemma ToggleRemoves(current: seq<string>, option: string)
    requires option in current
    ensures option !in Toggle(current, option)
    ensures forall x :: x != option ==> multiset(Toggle(current, option))[x] == multiset(current)[x]
  {
    forall x | x != option
      ensures multiset(Toggle(current, option))[x] == multiset(current)[x]
    {
      WithoutKeepsOthers(current, option, x);
    }
  }

  /** Toggling an absent option appends it at the end. */
  lemma ToggleAppends(current: seq<string>, option: string)
    requires option !in current
    ensures Toggle(current, option) == current + [option]
  {
  }

  /** Toggling an absent option twice gives the list back. */
  lemma ToggleTwiceAbsent(current: seq<string>, option: string)
    requires option !in current
    ensures Toggle(Toggle(current, option), option) == current
  {
    var once := current + [option];
    assert option in once;
    WithoutAppend(current, [option], option);
    WithoutAbsent(current, option);
    assert Without([option], option) == [];
  }

  /** The fields validateStep requires at a step, in the order it checks them. */
  function RequiredFields(step: nat): seq<TextField> {
    if step == 0 then OverviewFields
    else if step == 1 then TimelineFields
    else []
  }

  const OverviewFields: seq<TextField> := [ProjectName, Stakeholder, Category, ProjectDescription]
  const TimelineFields: seq<TextField> :=
    [StartDate, ExpectedDuration, TeamSize, Budget, Experience, LocationType]

  /** The error map validateStep builds from `fields`: each empty one is flagged "Required". */
  function Flags(fields: seq<TextField>, text: map<TextField, string>): map<TextField, string> {
    if fields == [] then map[]
    else
      var init := Flags(fields[..|fields| - 1], text);
      var f := fields[|fields| - 1];
      if Value(text, f) == "" then init[f := "Required"] else init
  }

  /** The error map validateStep leaves for a step. */
  function ValidationErrors(step: nat, text: map<TextField, string>): map<TextField, string> {
    Flags(RequiredFields(step), text)
  }

  /** Exactly the empty fields among `fields` are flagged, each with "Required". */
  lemma {:induction false} FlagsExact(fields: seq<TextField>, text: map<TextField, string>)
    ensures forall f :: f in Flags(fields, text) <==> f in fields && Value(text, f) == ""
    ensures forall f :: f in Flags(fields, text) ==> Flags(fields, text)[f] == "Required"
  {
    if fields != [] {
      var init := fields[..|fields| - 1];
      FlagsExact(init, text);
      assert fields == init + [fields[|fields| - 1]];
    }
  }

  /** At a step, a field is flagged iff the step requires it and it is empty; the later steps
      flag nothing; durationUnit and otherTech are never flagged. */
  lemma ValidationErrorsExact(step: nat, text: map<TextField, string>)
    ensures forall f :: f in ValidationErrors(step, text) <==> f in RequiredFields(step) && Value(text, f) == ""
    ensures forall f :: f in ValidationErrors(step, text) ==> ValidationErrors(step, text)[f] == "Required"
    ensures step >= 2 ==> ValidationErrors(step, text) == map[]
    ensures DurationUnit !in ValidationErrors(step, text) && OtherTech !in ValidationErrors(step, text)
  {
    FlagsExact(RequiredFields(step), text);
  }

  /** A step validates iff every field it requires is filled in. */
  lemma ValidationPasses(step: nat, text: map<TextField, string>)
    ensures ValidationErrors(step, text) == map[] <==> forall f :: f in RequiredFields(step) ==> Value(text, f) != ""
  {
    ValidationErrorsExact(step, text);
    if ValidationErrors(step, text) != map[] {
      var f :| f in ValidationErrors(step, text);
      assert f in RequiredFields(step) && Value(text, f) == "";
    }
  }

  /** Filling in a field removes its flag and no other. */
  lemma FillingUnflags(step: nat, text: map<TextField, string>, f: TextField, v: string)
    requires v != ""
    ensures ValidationErrors(step, text[f := v]).Keys == ValidationErrors(step, text).Keys - {f}
  {
    ValidationErrorsExact(step, text);
    ValidationErrorsExact(step, text[f := v]);
    assert forall g :: g != f ==> Value(text[f := v], g) == Value(text, g);
  }

  /** The checks of validateStep (lines 142-158), building `newErrors`: exactly the
      step's empty required fields end up flagged. */
  method CollectErrors(step: nat, t: map<TextField, string>) returns (newErrors: map<TextField, string>)
    ensures newErrors == ValidationErrors(step, t)
  {
    newErrors := map[];
    if step == 0 {
      newErrors := CheckOverview(t);
    }
    if step == 1 {
      newErrors := CheckTimeline(t);
    }
  }

  /** The step-0 checks (lines 145-149), one field at a time. */
  method CheckOverview(t: map<TextField, string>) returns (newErrors: map<TextField, string>)
    ensures newErrors == Flags(OverviewFields, t)
  {
    // the k-th check adds the flag of OverviewFields[k]
    ghost var fields := OverviewFields;
    newErrors := Require(map[], t, ProjectName, fields, 0);
    newErrors := Require(newErrors, t, Stakeholder, fields, 1);
    newErrors := Require(newErrors, t, Category, fields, 2);
    newErrors := Require(newErrors, t, ProjectDescription, fields, 3);
    FlagsUpToAll(fields, t);
  }

  /** The step-1 checks (lines 152-157), one field at a time. */
  method CheckTimeline(t: map<TextField, string>) returns (newErrors: map<TextField, string>)
    ensures newErrors == Flags(TimelineFields, t)
  {
    ghost var fields := TimelineFields;
    newErrors := Require(map[], t, StartDate, fields, 0);
    newErrors := Require(newErrors, t, ExpectedDuration, fields, 1);
    newErrors := Require(newErrors, t, TeamSize, fields, 2);
    newErrors := CheckResources(newErrors, t);
    FlagsUpToAll(fields, t);
  }

  /** The last three step-1 checks (lines 155-157), after the first three. */
  method CheckResources(newErrors: map<TextField, string>, t: map<TextField, string>) returns (r: map<TextField, string>)
    requires newErrors == FlagsUpTo(TimelineFields, 3, t)
    ensures r == FlagsUpTo(TimelineFields, 6, t)
  {
    ghost var fields := TimelineFields;
    r := Require(newErrors, t, Budget, fields, 3);
    r := Require(r, t, Experience, fields, 4);
    r := Require(r, t, LocationType, fields, 5);
  }

  /** The flags of the first `k` of `fields`. */
  function FlagsUpTo(fields: seq<TextField>, k: nat, text: map<TextField, string>): map<TextField, string>
    requires k <= |fields|
  {
    if k == 0 then map[]
    else
      var init := FlagsUpTo(fields, k - 1, text);
      if Value(text, fields[k - 1]) == "" then init[fields[k - 1] := "Required"] else init
  }

  /** The flags of the first `k` fields are those of the prefix of length `k`. */
  lemma {:induction false} FlagsUpToPrefix(fields: seq<TextField>, k: nat, text: map<TextField, string>)
    requires k <= |fields|
    ensures FlagsUpTo(fields, k, text) == Flags(fields[..k], text)
  {
    if k > 0 {
      FlagsUpToPrefix(fields, k - 1, text);
      assert fields[..k][..k - 1] == fields[..k - 1];
    }
  }

  lemma FlagsUpToAll(fields: seq<TextField>, text: map<TextField, string>)
    ensures FlagsUpTo(fields, |fields|, text) == Flags(fields, text)
  {
    FlagsUpToPrefix(fields, |fields|, text);
    assert fields[..|fields|] == fields;
  }

  /** One `if (!formData.field) newErrors.field = "Required"` of validateStep: the map of
      the fields checked so far grows by the next field's flag. */
  method Require(newErrors: map<TextField, string>, t: map<TextField, string>, f: TextField,
                 ghost fields: seq<TextField>, ghost k: nat) returns (r: map<TextField, string>)
    requires k < |fields| && fields[k] == f && newErrors == FlagsUpTo(fields, k, t)
    ensures r == FlagsUpTo(fields, k + 1, t)
  {
    r := newErrors;
    if Value(t, f) == "" {
      r := r[f := "Required"];
    }
  }

  /** The StepperForm component's state. */
  class StepperForm {
    var activeStep: nat
    var formData: FormData
    var errors: map<TextField, string>
    var submitted: bool

    /** The step is one of the four and every field has a value. */
    predicate Valid()
      reads this
    {
      activeStep < |StepLabels| && Complete(formData)
    }

    constructor ()
      ensures Valid()
      ensures activeStep == 0 && formData == InitialForm() && errors == map[] && !submitted
    {
      activeStep := 0;
      formData := InitialForm();
      errors := map[];
      submitted := false;
    }

    /** handleChange: set one string field and clear that field's error. */
    method HandleChange(field: TextField, value: string)
      requires Valid()
      modifies this
      ensures Valid()
      ensures formData == old(formData).(text := old(formData).text[field := value])
      ensures errors == old(errors)[field := ""]
      ensures activeStep == old(activeStep) && submitted == old(submitted)
    {
      formData := formData.(text := formData.text[field := value]);
      errors := errors[field := ""];
    }

    /** handleCheckboxChange: toggle one option of one checkbox list. */
    method HandleCheckboxChange(field: TechField, option: string)
      requires Valid()
      modifies this
      ensures Valid()
      ensures formData == old(formData).(tech := old(formData).tech[field := Toggle(old(formData).tech[field], option)])
      ensures errors == old(errors) && activeStep == old(activeStep) && submitted == old(submitted)
    {
      var current := formData.tech[field];
      var updated := if option in current then Without(current, option) else current + [option];
      formData := formData.(tech := formData.tech[field := updated]);
    }

    /** validateStep: the active step's flags replace the error map, and it reports
        whether there were none. */
    method ValidateStep() returns (ok: bool)
      requires Valid()
      modifies this
      ensures Valid()
      ensures errors == ValidationErrors(activeStep, formData.text)
      ensures ok <==> errors == map[]
      ensures activeStep == old(activeStep) && formData == old(formData) && submitted == old(submitted)
    {
      var newErrors := CollectErrors(activeStep, formData.text);
      errors := newErrors;
      ok := |newErrors| == 0;
    }

    /** The Next button, shown while a later step exists: advance only if the step validates. */
    method Next() returns (advanced: bool)
      requires Valid() && activeStep < |StepLabels| - 1
      modifies this
      ensures Valid()
      ensures errors == ValidationErrors(old(activeStep), formData.text)
      ensures advanced <==> errors == map[]
      ensures activeStep == if advanced then old(activeStep) + 1 else old(activeStep)
      ensures formData == old(formData) && submitted == old(submitted)
    {
      advanced := ValidateStep();
      if advanced {
        activeStep := activeStep + 1;
      }
    }

    /** The Back button, shown after the first step: go back one step. */
    method Back()
      requires Valid() && activeStep > 0
      modifies this
      ensures Valid()
      ensures activeStep == old(activeStep) - 1
      ensures formData == old(formData) && errors == old(errors) && submitted == old(submitted)
    {
      activeStep := activeStep - 1;
    }

    /** handleSubmit: mark the form submitted and hand the form data to the results page. */
    method HandleSubmit() returns (state: FormData)
      requires Valid()
      modifies this
      ensures Valid() && submitted
      ensures state == formData == old(formData)
      ensures activeStep == old(activeStep) && errors == old(errors)
    {
      submitted := true;
      state := formData;
    }
  }
}
