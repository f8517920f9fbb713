/**
 The demographic questionnaire's validation logic: the consent check, the
 demographics check (a form record in, a map of error keys out) and the
 error-clearing done when a field is edited.
 */
module DemographicForm {
  import opened Wrappers

  datatype DemographicData = DemographicData(
    consent: bool,
    gender: Option<string>,
    age: Option<int>,
    position: Option<string>,
    otherPosition: Option<string>,
    experienceYears: Option<int>,
    workFormat: Option<string>,
    workHours: Option<string>,
    overtime: Option<string>)

  /** The keys of the form record. */
  datatype Field = Consent | Gender | Age | Position | OtherPosition | ExperienceYears | WorkFormat | WorkHours | Overtime

  /** The messages the validators can set (each a non-empty text in the form). */
  datatype ErrorKind =
    | ConsentRequired
    | AgeRequired
    | AgeOutOfRange
    | NegativeExperience
    | PositionRequired
    | WorkFormatRequired
    | WorkHoursRequired
    | OvertimeRequired

  type Errors = map<Field, ErrorKind>

  /** The form's initial state: no consent, empty text choices, no numbers. */
  function InitialForm(): DemographicData {
    DemographicData(false, Some(""), None, Some(""), None, None, Some(""), Some(""), Some(""))
  }

  /** JavaScript truthiness of an optional string: present and non-empty. */
  predicate Truthy(s: Option<string>) {
    s.Some? && s.value != ""
  }

  datatype Validation = Validation(ok: bool, errors: Errors)

  /** The consent step: without consent the errors become just the consent error. */
  function ValidateConsent(form: DemographicData, errors: Errors): (v: Validation)
    ensures v.ok <==> form.consent
    ensures !form.consent ==> v.errors.Keys == {Consent} && v.errors[Consent] == ConsentRequired
    ensures form.consent ==> v.errors == errors
  {
    if !form.consent then Validation(false, map[Consent := ConsentRequired])
    else Validation(true, errors)
  }

  /** The errors of the two number inputs, age and experience. */
  function NumberErrors(form: DemographicData): (e: Errors)
    ensures e.Keys <= {Age, ExperienceYears}
    ensures Age in e <==> form.age.Some? && (form.age.value < 18 || form.age.value > 100)
    ensures Age in e ==> e[Age] == (if form.age.value == 0 then AgeRequired else AgeOutOfRange)
    ensures ExperienceYears in e <==> form.experienceYears.Some? && form.experienceYears.value < 0
    ensures ExperienceYears in e ==> e[ExperienceYears] == NegativeExperience
  {
    var e0: Errors := map[];
    var e1 :=
      if form.age.Some? then
        if form.age.value == 0 then e0[Age := AgeRequired]
        else if form.age.value < 18 || form.age.value > 100 then e0[Age := AgeOutOfRange]
        else e0
      else e0;
    if form.experienceYears.Some? && form.experienceYears.value < 0 then e1[ExperienceYears := NegativeExperience] else e1
  }

  /** The errors of the four required choices. */
  function ChoiceErrors(form: DemographicData): (e: Errors)
    ensures e.Keys <= {Position, WorkFormat, WorkHours, Overtime}
    ensures Position in e <==> !Truthy(form.position)
    ensures WorkFormat in e <==> !Truthy(form.workFormat)
    ensures WorkHours in e <==> !Truthy(form.workHours)
    ensures Overtime in e <==> !Truthy(form.overtime)
    ensures Position in e ==> e[Position] == PositionRequired
    ensures WorkFormat in e ==> e[WorkFormat] == WorkFormatRequired
    ensures WorkHours in e ==> e[WorkHours] == WorkHoursRequired
    ensures Overtime in e ==> e[Overtime] == OvertimeRequired
  {
    var e0: Errors := map[];
    var e1 := if !Truthy(form.position) then e0[Position := PositionRequired] else e0;
    var e2 := if !Truthy(form.workFormat) then e1[WorkFormat := WorkFormatRequired] else e1;
    var e3 := if !Truthy(form.workHours) then e2[WorkHours := WorkHoursRequired] else e2;
    if !Truthy(form.overtime) then e3[Overtime := OvertimeRequired] else e3
  }

  /**
   The errors the demographics step computes for `form`: the number checks, then
   the required choices, each setting its own key.
   */
  function DemographicErrors(form: DemographicData): (e: Errors)
    ensures Age in e <==> form.age.Some? && (form.age.value < 18 || form.age.value > 100)
    ensures Age in e ==> e[Age] == (if form.age.value == 0 then AgeRequired else AgeOutOfRange)
    ensures ExperienceYears in e <==> form.experienceYears.Some? && form.experienceYears.value < 0
    ensures Position in e <==> !Truthy(form.position)
    ensures WorkFormat in e <==> !Truthy(form.workFormat)
    ensures WorkHours in e <==> !Truthy(form.workHours)
    ensures Overtime in e <==> !Truthy(form.overtime)
    ensures Consent !in e && Gender !in e && OtherPosition !in e
    ensures ExperienceYears in e ==> e[ExperienceYears] == NegativeExperience
    ensures Position in e ==> e[Position] == PositionRequired
    ensures WorkFormat in e ==> e[WorkFormat] == WorkFormatRequired
    ensures WorkHours in e ==> e[WorkHours] == WorkHoursRequired
    ensures Overtime in e ==> e[Overtime] == OvertimeRequired
  {
    NumberErrors(form) + ChoiceErrors(form)
  }

  /** The demographics step: the computed errors replace the old ones; it passes iff there are none. */
  function ValidateDemographics(form: DemographicData): (v: Validation)
    ensures v.errors == DemographicErrors(form)
    ensures v.ok <==> |v.errors| == 0
  {
    var errors := DemographicErrors(form);
    Validation(|errors| == 0, errors)
  }

  /**
   The demographics step passes exactly when every required choice is made, a
   given age lies in [18, 100] and a given experience is not negative; gender is
   never checked.
   */
  lemma ValidDemographicsExactly(form: DemographicData)
    ensures ValidateDemographics(form).ok <==>
      && (form.age.None? || 18 <= form.age.value <= 100)
      && (form.experienceYears.None? || form.experienceYears.value >= 0)
      && Truthy(form.position) && Truthy(form.workFormat) && Truthy(form.workHours) && Truthy(form.overtime)
  {
  }

  /**
   The initial form fails both steps: the consent step with the consent error, and
   the demographics step with exactly the four required-choice errors.
   */
  lemma InitialFormRejected()
    ensures !ValidateConsent(InitialForm(), map[]).ok
    ensures ValidateDemographics(InitialForm()).errors ==
      map[Position := PositionRequired, WorkFormat := WorkFormatRequired,
          WorkHours := WorkHoursRequired, Overtime := OvertimeRequired]
  {
    var e := DemographicErrors(InitialForm());
    assert e.Keys == {Position, WorkFormat, WorkHours, Overtime};
  }

  /** A value written into a field by the form's inputs. */
  datatype Value = BoolValue(b: bool) | NumberValue(n: Option<int>) | TextValue(s: Option<string>)

  /** The input bound to field `f` produces values of this shape. */
  predicate Fits(f: Field, v: Value) {
    match f
    case Consent => v.BoolValue?
    case Age => v.NumberValue?
    case ExperienceYears => v.NumberValue?
    case _ => v.TextValue?
  }

  function Get(form: DemographicData, f: Field): (v: Value)
    ensures Fits(f, v)
  {
    match f
    case Consent => BoolValue(form.consent)
    case Gender => TextValue(form.gender)
    case Age => NumberValue(form.age)
    case Position => TextValue(form.position)
    case OtherPosition => TextValue(form.otherPosition)
    case ExperienceYears => NumberValue(form.experienceYears)
    case WorkFormat => TextValue(form.workFormat)
    case WorkHours => TextValue(form.workHours)
    case Overtime => TextValue(form.overtime)
  }

  /** `{...prev, [field]: value}` */
  function Set(form: DemographicData, f: Field, v: Value): (r: DemographicData)
    requires Fits(f, v)
    ensures Get(r, f) == v
    ensures forall g :: g != f ==> Get(r, g) == Get(form, g)
  {
    match f
    case Consent => form.(consent := v.b)
    case Gender => form.(gender := v.s)
    case Age => form.(age := v.n)
    case Position => form.(position := v.s)
    case OtherPosition => form.(otherPosition := v.s)
    case ExperienceYears => form.(experienceYears := v.n)
    case WorkFormat => form.(workFormat := v.s)
    case WorkHours => form.(workHours := v.s)
    case Overtime => form.(overtime := v.s)
  }

  datatype FormState = FormState(form: DemographicData, errors: Errors)

  /**
   Editing field `f`: only that field of the form changes, and only that field's
   error (if it had one) is cleared.
   */
  function HandleChange(s: FormState, f: Field, v: Value): (r: FormState)
    requires Fits(f, v)
    ensures Get(r.form, f) == v
    ensures forall g :: g != f ==> Get(r.form, g) == Get(s.form, g)
    ensures f !in r.errors
    ensures forall g :: g != f ==> (g in r.errors <==> g in s.errors)
    ensures forall g :: g != f && g in s.errors ==> r.errors[g] == s.errors[g]
  {
    var form := Set(s.form, f, v);
    if f in s.errors then FormState(form, s.errors - {f}) else FormState(form, s.errors)
  }
}
