/**
 * The records exchanged between the form, the plan route, storage and the
 * viewers. Union-typed fields become enumerations with their wire labels.
 */
module Types {
  import opened Wrappers
  import opened JsText

  datatype Gender = Male | Female | Other
  datatype FitnessGoal = WeightLoss | MuscleGain | Maintenance | Endurance
  datatype FitnessLevel = Beginner | Intermediate | Advanced
  datatype WorkoutLocation = Home | Gym | Outdoor
  datatype DietaryPreference = Vegetarian | NonVegetarian | Vegan | Keto
  datatype StressLevel = Low | Medium | High

  datatype UserDetails = UserDetails(
    name: string,
    age: JsNum,
    gender: Gender,
    height: JsNum,
    weight: JsNum,
    fitnessGoal: FitnessGoal,
    fitnessLevel: FitnessLevel,
    workoutLocation: WorkoutLocation,
    dietaryPreference: DietaryPreference,
    medicalHistory: Option<string>,
    stressLevel: Option<StressLevel>)

  datatype Exercise = Exercise(name: string, sets: JsNum, reps: string, restTime: string, notes: Option<string>)

  datatype WorkoutDay = WorkoutDay(day: string, exercises: seq<Exercise>)

  datatype Meal = Meal(name: string, items: seq<string>, calories: Option<string>, protein: Option<string>)

  /** One `[key, meal]` pair of `Object.entries(plan.dietPlan)`, in insertion order. */
  datatype MealEntry = MealEntry(key: string, meal: Meal)

  datatype FitnessPlan = FitnessPlan(workoutPlan: seq<WorkoutDay>, dietPlan: seq<MealEntry>, tips: seq<string>, motivation: string)

  function GenderLabel(g: Gender): string {
    match g
    case Male => "male"
    case Female => "female"
    case Other => "other"
  }

  function GoalLabel(g: FitnessGoal): string {
    match g
    case WeightLoss => "weight-loss"
    case MuscleGain => "muscle-gain"
    case Maintenance => "maintenance"
    case Endurance => "endurance"
  }

  function LevelLabel(l: FitnessLevel): string {
    match l
    case Beginner => "beginner"
    case Intermediate => "intermediate"
    case Advanced => "advanced"
  }

  function LocationLabel(l: WorkoutLocation): string {
    match l
    case Home => "home"
    case Gym => "gym"
    case Outdoor => "outdoor"
  }

  function DietLabel(d: DietaryPreference): string {
    match d
    case Vegetarian => "vegetarian"
    case NonVegetarian => "non-vegetarian"
    case Vegan => "vegan"
    case Keto => "keto"
  }

  function StressLabel(s: StressLevel): string {
    match s
    case Low => "low"
    case Medium => "medium"
    case High => "high"
  }

  /** The option value a `<select>` emits, read back as the enumeration it names. */
  function ParseGender(s: string): (r: Option<Gender>)
    ensures forall g :: r == Some(g) <==> GenderLabel(g) == s
  {
    if s == "male" then Some(Male) else if s == "female" then Some(Female)
    else if s == "other" then Some(Other) else None
  }

  function ParseGoal(s: string): (r: Option<FitnessGoal>)
    ensures forall g :: r == Some(g) <==> GoalLabel(g) == s
  {
    if s == "weight-loss" then Some(WeightLoss) else if s == "muscle-gain" then Some(MuscleGain)
    else if s == "maintenance" then Some(Maintenance) else if s == "endurance" then Some(Endurance)
    else None
  }

  function ParseLevel(s: string): (r: Option<FitnessLevel>)
    ensures forall l :: r == Some(l) <==> LevelLabel(l) == s
  {
    if s == "beginner" then Some(Beginner) else if s == "intermediate" then Some(Intermediate)
    else if s == "advanced" then Some(Advanced) else None
  }

  function ParseLocation(s: string): (r: Option<WorkoutLocation>)
    ensures forall l :: r == Some(l) <==> LocationLabel(l) == s
  {
    if s == "home" then Some(Home) else if s == "gym" then Some(Gym)
    else if s == "outdoor" then Some(Outdoor) else None
  }

  function ParseDiet(s: string): (r: Option<DietaryPreference>)
    ensures forall d :: r == Some(d) <==> DietLabel(d) == s
  {
    if s == "vegetarian" then Some(Vegetarian) else if s == "non-vegetarian" then Some(NonVegetarian)
    else if s == "vegan" then Some(Vegan) else if s == "keto" then Some(Keto) else None
  }

  function ParseStress(s: string): (r: Option<StressLevel>)
    ensures forall l :: r == Some(l) <==> StressLabel(l) == s
  {
    if s == "low" then Some(Low) else if s == "medium" then Some(Medium)
    else if s == "high" then Some(High) else None
  }
}
