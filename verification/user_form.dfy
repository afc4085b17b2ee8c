/**
 * The details form (src/components/UserForm.tsx): one `formData` record,
 * replaced on every change event by a copy that differs in the named field,
 * and handed on unchanged on submit.
 */
module UserForm {
  import opened Wrappers
  import opened JsText
  import opened Types

  /** The form's controls; `FieldName` is each control's `name` attribute. */
  datatype Field =
    | NameField | AgeField | GenderField | HeightField | WeightField | GoalField | LevelField
    | LocationField | DietField | MedicalField | StressField

  function FieldName(f: Field): string {
    match f
    case NameField => "name"
    case AgeField => "age"
    case GenderField => "gender"
    case HeightField => "height"
    case WeightField => "weight"
    case GoalField => "fitnessGoal"
    case LevelField => "fitnessLevel"
    case LocationField => "workoutLocation"
    case DietField => "dietaryPreference"
    case MedicalField => "medicalHistory"
    case StressField => "stressLevel"
  }

  /** The controls whose value is stored as `Number(value)`: age, height and weight. */
  predicate IsNumeric(f: Field) {
    f == AgeField || f == HeightField || f == WeightField
  }

  /** Different controls carry different `name` attributes. */
  lemma FieldNameInjective(f: Field, g: Field)
    requires FieldName(f) == FieldName(g)
    ensures f == g
  {
  }

  /**
   * `["age", "height", "weight"].includes(name)`: the numeric fields are
   * exactly the controls with one of those three names.
   */
  lemma IsNumericByName(f: Field)
    ensures IsNumeric(f) <==> FieldName(f) in ["age", "height", "weight"]
  {
  }

  /** A property of the record as JavaScript sees it. */
  datatype FieldValue = TextValue(text: string) | NumberValue(number: JsNum) | Unset

  /**
   * `formData[FieldName(f)]`: the numeric fields hold numbers, and only the
   * two optional fields can be unset.
   */
  function Get(d: UserDetails, f: Field): (r: FieldValue)
    ensures r.NumberValue? <==> IsNumeric(f)
    ensures r.Unset? ==> f == MedicalField || f == StressField
  {
    match f
    case NameField => TextValue(d.name)
    case AgeField => NumberValue(d.age)
    case GenderField => TextValue(GenderLabel(d.gender))
    case HeightField => NumberValue(d.height)
    case WeightField => NumberValue(d.weight)
    case GoalField => TextValue(GoalLabel(d.fitnessGoal))
    case LevelField => TextValue(LevelLabel(d.fitnessLevel))
    case LocationField => TextValue(LocationLabel(d.workoutLocation))
    case DietField => TextValue(DietLabel(d.dietaryPreference))
    case MedicalField => if d.medicalHistory.Some? then TextValue(d.medicalHistory.value) else Unset
    case StressField => if d.stressLevel.Some? then TextValue(StressLabel(d.stressLevel.value)) else Unset
  }

  /** A change event the form can raise: for a select, the value is one of its options. */
  predicate IsControlEvent(f: Field, value: string) {
    match f
    case GenderField => ParseGender(value).Some?
    case GoalField => ParseGoal(value).Some?
    case LevelField => ParseLevel(value).Some?
    case LocationField => ParseLocation(value).Some?
    case DietField => ParseDiet(value).Some?
    case StressField => ParseStress(value).Some?
    case _ => true
  }

  /**
   * `{...prev, [name]: numeric ? Number(value) : value}`: the named field
   * takes the new value and every other field keeps its old one.
   */
  function UpdateField(prev: UserDetails, f: Field, value: string, toNumber: string -> JsNum): (r: UserDetails)
    requires IsControlEvent(f, value)
    ensures forall g :: g != f ==> Get(r, g) == Get(prev, g)
    ensures IsNumeric(f) ==> Get(r, f) == NumberValue(toNumber(value))
    ensures !IsNumeric(f) ==> Get(r, f) == TextValue(value)
  {
    match f
    case NameField => prev.(name := value)
    case AgeField => prev.(age := toNumber(value))
    case GenderField => prev.(gender := ParseGender(value).value)
    case HeightField => prev.(height := toNumber(value))
    case WeightField => prev.(weight := toNumber(value))
    case GoalField => prev.(fitnessGoal := ParseGoal(value).value)
    case LevelField => prev.(fitnessLevel := ParseLevel(value).value)
    case LocationField => prev.(workoutLocation := ParseLocation(value).value)
    case DietField => prev.(dietaryPreference := ParseDiet(value).value)
    case MedicalField => prev.(medicalHistory := Some(value))
    case StressField => prev.(stressLevel := Some(ParseStress(value).value))
  }

  /** A record is determined by what its eleven properties read. */
  lemma FieldsDetermineRecord(a: UserDetails, b: UserDetails)
    requires forall g :: Get(a, g) == Get(b, g)
    ensures a == b
  {
    assert Get(a, GenderField) == Get(b, GenderField);
    assert ParseGender(GenderLabel(a.gender)) == Some(a.gender);
    assert Get(a, GoalField) == Get(b, GoalField);
    assert ParseGoal(GoalLabel(a.fitnessGoal)) == Some(a.fitnessGoal);
    assert Get(a, LevelField) == Get(b, LevelField);
    assert ParseLevel(LevelLabel(a.fitnessLevel)) == Some(a.fitnessLevel);
    assert Get(a, LocationField) == Get(b, LocationField);
    assert ParseLocation(LocationLabel(a.workoutLocation)) == Some(a.workoutLocation);
    assert Get(a, DietField) == Get(b, DietField);
    assert ParseDiet(DietLabel(a.dietaryPreference)) == Some(a.dietaryPreference);
    assert Get(a, NameField) == Get(b, NameField) && Get(a, AgeField) == Get(b, AgeField);
    assert Get(a, HeightField) == Get(b, HeightField) && Get(a, WeightField) == Get(b, WeightField);
    assert Get(a, MedicalField) == Get(b, MedicalField);
    assert Get(a, StressField) == Get(b, StressField);
    if a.stressLevel.Some? {
      assert ParseStress(StressLabel(a.stressLevel.value)) == Some(a.stressLevel.value);
    }
  }

  /** Changes to two different controls commute: the order of the events does not matter. */
  lemma ChangesCommute(p: UserDetails, f1: Field, v1: string, f2: Field, v2: string, toNumber: string -> JsNum)
    requires IsControlEvent(f1, v1) && IsControlEvent(f2, v2) && f1 != f2
    ensures UpdateField(UpdateField(p, f1, v1, toNumber), f2, v2, toNumber)
         == UpdateField(UpdateField(p, f2, v2, toNumber), f1, v1, toNumber)
  {
    var a := UpdateField(UpdateField(p, f1, v1, toNumber), f2, v2, toNumber);
    var b := UpdateField(UpdateField(p, f2, v2, toNumber), f1, v1, toNumber);
    forall g ensures Get(a, g) == Get(b, g) {
    }
    FieldsDetermineRecord(a, b);
  }

  /** Repeating a change event changes nothing more. */
  lemma ChangeIdempotent(p: UserDetails, f: Field, v: string, toNumber: string -> JsNum)
    requires IsControlEvent(f, v)
    ensures UpdateField(UpdateField(p, f, v, toNumber), f, v, toNumber) == UpdateField(p, f, v, toNumber)
  {
    var a := UpdateField(UpdateField(p, f, v, toNumber), f, v, toNumber);
    var b := UpdateField(p, f, v, toNumber);
    forall g ensures Get(a, g) == Get(b, g) {
    }
    FieldsDetermineRecord(a, b);
  }

  /** The record the form starts from when there is no earlier input. */
  const DefaultDetails := UserDetails(
    "", Finite(25.0), Male, Finite(170.0), Finite(70.0), MuscleGain, Beginner, Gym, NonVegetarian,
    Some(""), Some(Medium))

  class Form {
    var formData: UserDetails

    /** `useState(initialData || default)`. */
    constructor (initialData: Option<UserDetails>)
      ensures formData == if initialData.Some? then initialData.value else DefaultDetails
    {
      formData := if initialData.Some? then initialData.value else DefaultDetails;
    }

    /** `handleChange`. */
    method HandleChange(f: Field, value: string, toNumber: string -> JsNum)
      requires IsControlEvent(f, value)
      modifies this
      ensures formData == UpdateField(old(formData), f, value, toNumber)
    {
      formData := UpdateField(formData, f, value, toNumber);
    }

    /** `handleSubmit`: the record handed to `onSubmit`. */
    method HandleSubmit() returns (submitted: UserDetails)
      ensures submitted == formData
    {
      submitted := formData;
    }
  }
}
