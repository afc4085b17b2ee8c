/**
 * The read-aloud control (src/components/VoiceReader.tsx): two text builders
 * that turn the plan into one string each, and the `isReading` /
 * `selectedSection` state toggled by the button and by the speech engine's
 * callbacks. The engine itself is represented only by the utterance it was
 * last handed.
 */
module VoiceReader {
  import opened Wrappers
  import opened JsText
  import opened Types

  // ----- What is read, as a function of the plan -----

  const WorkoutIntro := "Your workout plan for the week. "
  const DietIntro := "Your diet plan. "

  /** `${name}, ${sets} sets of ${reps} reps, rest for ${restTime}. ` */
  function ExerciseSpeech(e: Exercise, show: JsNum -> string): string {
    e.name + ", " + show(e.sets) + " sets of " + e.reps + " reps, rest for " + e.restTime + ". "
  }

  function ExercisesSpeech(exs: seq<Exercise>, show: JsNum -> string): string {
    if exs == [] then ""
    else ExercisesSpeech(exs[..|exs| - 1], show) + ExerciseSpeech(exs[|exs| - 1], show)
  }

  /** `${day}. ` */
  function DayIntro(day: WorkoutDay): string {
    day.day + ". "
  }

  function DaySpeech(day: WorkoutDay, show: JsNum -> string): string {
    DayIntro(day) + ExercisesSpeech(day.exercises, show)
  }

  function DaysSpeech(days: seq<WorkoutDay>, show: JsNum -> string): string {
    if days == [] then ""
    else DaysSpeech(days[..|days| - 1], show) + DaySpeech(days[|days| - 1], show)
  }

  /** The workout text: the fixed opening, then each day in order. */
  function WorkoutSpeech(plan: FitnessPlan, show: JsNum -> string): (r: string)
    ensures WorkoutIntro <= r
  {
    WorkoutIntro + DaysSpeech(plan.workoutPlan, show)
  }

  /** `${meal}. ${name}. It includes ` */
  function MealIntro(e: MealEntry): string {
    e.key + ". " + e.meal.name + ". It includes "
  }

  /** `items.join(", ") + ". "` */
  function ItemsSpeech(m: Meal): string {
    Join(m.items, ", ") + ". "
  }

  /** Read only when `calories` is truthy. */
  function CaloriesSpeech(m: Meal): (r: string)
    ensures r == "" <==> !OptTruthy(m.calories)
  {
    if OptTruthy(m.calories) then "Approximately " + m.calories.value + ". " else ""
  }

  function MealSpeech(e: MealEntry): string {
    MealIntro(e) + ItemsSpeech(e.meal) + CaloriesSpeech(e.meal)
  }

  function MealsSpeech(entries: seq<MealEntry>): string {
    if entries == [] then ""
    else MealsSpeech(entries[..|entries| - 1]) + MealSpeech(entries[|entries| - 1])
  }

  /** The diet text: the fixed opening, then each meal entry in order. */
  function DietSpeech(plan: FitnessPlan): (r: string)
    ensures DietIntro <= r
  {
    DietIntro + MealsSpeech(plan.dietPlan)
  }

  // ----- Properties of the texts -----

  /** Reading days one after another: the text of a joined list is the joined texts. */
  lemma {:induction false} DaysSpeechAppend(a: seq<WorkoutDay>, b: seq<WorkoutDay>, show: JsNum -> string)
    ensures DaysSpeech(a + b, show) == DaysSpeech(a, show) + DaysSpeech(b, show)
    decreases |b|
  {
    if b == [] {
      assert a + b == a;
    } else {
      var b' := b[..|b| - 1];
      assert (a + b)[..|a + b| - 1] == a + b';
      assert (a + b)[|a + b| - 1] == b[|b| - 1];
      DaysSpeechAppend(a, b', show);
      AppendAssoc(DaysSpeech(a, show), DaysSpeech(b', show), DaySpeech(b[|b| - 1], show));
    }
  }

  /** Two exercise lists that differ at most in their notes. */
  predicate SameButNotes(a: seq<Exercise>, b: seq<Exercise>) {
    |a| == |b| && forall k :: 0 <= k < |a| ==> a[k].(notes := None) == b[k].(notes := None)
  }

  /** Two workout plans that differ at most in the exercises' notes. */
  predicate DaysSameButNotes(a: seq<WorkoutDay>, b: seq<WorkoutDay>) {
    |a| == |b| && forall k :: 0 <= k < |a| ==> a[k].day == b[k].day && SameButNotes(a[k].exercises, b[k].exercises)
  }

  lemma {:induction false} ExercisesSpeechIgnoresNotes(a: seq<Exercise>, b: seq<Exercise>, show: JsNum -> string)
    requires SameButNotes(a, b)
    ensures ExercisesSpeech(a, show) == ExercisesSpeech(b, show)
    decreases |a|
  {
    if a != [] {
      var n := |a| - 1;
      assert SameButNotes(a[..n], b[..n]) by {
        forall k | 0 <= k < n ensures a[..n][k].(notes := None) == b[..n][k].(notes := None) {
          assert a[..n][k] == a[k] && b[..n][k] == b[k];
        }
      }
      ExercisesSpeechIgnoresNotes(a[..n], b[..n], show);
      assert a[n].(notes := None) == b[n].(notes := None);
      assert a[n].name == b[n].name && a[n].sets == b[n].sets && a[n].reps == b[n].reps
        && a[n].restTime == b[n].restTime;
    }
  }

  /** The notes of an exercise are never read aloud. */
  lemma {:induction false} WorkoutSpeechIgnoresNotes(a: seq<WorkoutDay>, b: seq<WorkoutDay>, show: JsNum -> string)
    requires DaysSameButNotes(a, b)
    ensures DaysSpeech(a, show) == DaysSpeech(b, show)
    decreases |a|
  {
    if a != [] {
      var n := |a| - 1;
      assert DaysSameButNotes(a[..n], b[..n]) by {
        forall k | 0 <= k < n
          ensures a[..n][k].day == b[..n][k].day && SameButNotes(a[..n][k].exercises, b[..n][k].exercises)
        {
          assert a[..n][k] == a[k] && b[..n][k] == b[k];
        }
      }
      WorkoutSpeechIgnoresNotes(a[..n], b[..n], show);
      ExercisesSpeechIgnoresNotes(a[n].exercises, b[n].exercises, show);
    }
  }

  /** Two diet plans that differ at most in the meals' protein. */
  predicate SameButProtein(a: seq<MealEntry>, b: seq<MealEntry>) {
    |a| == |b| && forall k :: 0 <= k < |a| ==> a[k].key == b[k].key && a[k].meal.(protein := None) == b[k].meal.(protein := None)
  }

  /** The protein of a meal is never read aloud. */
  lemma {:induction false} DietSpeechIgnoresProtein(a: seq<MealEntry>, b: seq<MealEntry>)
    requires SameButProtein(a, b)
    ensures MealsSpeech(a) == MealsSpeech(b)
    decreases |a|
  {
    if a != [] {
      var n := |a| - 1;
      assert SameButProtein(a[..n], b[..n]) by {
        forall k | 0 <= k < n
          ensures a[..n][k].key == b[..n][k].key && a[..n][k].meal.(protein := None) == b[..n][k].meal.(protein := None)
        {
          assert a[..n][k] == a[k] && b[..n][k] == b[k];
        }
      }
      DietSpeechIgnoresProtein(a[..n], b[..n]);
      assert a[n].meal.(protein := None) == b[n].meal.(protein := None);
      assert a[n].meal.name == b[n].meal.name && a[n].meal.items == b[n].meal.items
        && a[n].meal.calories == b[n].meal.calories;
    }
  }

  // ----- The builders -----

  /** `generateWorkoutText`. */
  method GenerateWorkoutText(plan: FitnessPlan, show: JsNum -> string) returns (text: string)
    ensures text == WorkoutSpeech(plan, show)
  {
    var days := plan.workoutPlan;
    text := WorkoutIntro;
    assert days[..0] == [];
    for i := 0 to |days|
      invariant text == WorkoutIntro + DaysSpeech(days[..i], show)
    {
      ghost var before := text;
      var day := days[i];
      text := text + DayIntro(day);
      var exs := day.exercises;
      assert exs[..0] == [];
      for j := 0 to |exs|
        invariant text == before + DayIntro(day) + ExercisesSpeech(exs[..j], show)
      {
        assert exs[..j + 1][..j] == exs[..j];
        AppendAssoc(before + DayIntro(day), ExercisesSpeech(exs[..j], show), ExerciseSpeech(exs[j], show));
        text := text + ExerciseSpeech(exs[j], show);
      }
      assert exs[..|exs|] == exs;
      assert days[..i + 1][..i] == days[..i];
      AppendAssoc(before, DayIntro(day), ExercisesSpeech(exs, show));
      AppendAssoc(WorkoutIntro, DaysSpeech(days[..i], show), DaySpeech(day, show));
    }
    assert days[..|days|] == days;
  }

  /** `generateDietText`. */
  method GenerateDietText(plan: FitnessPlan) returns (text: string)
    ensures text == DietSpeech(plan)
  {
    var entries := plan.dietPlan;
    text := DietIntro;
    assert entries[..0] == [];
    for i := 0 to |entries|
      invariant text == DietIntro + MealsSpeech(entries[..i])
    {
      ghost var before := text;
      var e := entries[i];
      text := text + MealIntro(e);
      text := text + ItemsSpeech(e.meal);
      if OptTruthy(e.meal.calories) {
        text := text + ("Approximately " + e.meal.calories.value + ". ");
      }
      assert text == before + MealIntro(e) + ItemsSpeech(e.meal) + CaloriesSpeech(e.meal);
      AppendAssoc(before, MealIntro(e), ItemsSpeech(e.meal));
      AppendAssoc(before, MealIntro(e) + ItemsSpeech(e.meal), CaloriesSpeech(e.meal));
      assert entries[..i + 1][..i] == entries[..i];
      AppendAssoc(DietIntro, MealsSpeech(entries[..i]), MealSpeech(e));
    }
    assert entries[..|entries|] == entries;
  }

  // ----- The toggle -----

  datatype Section = WorkoutSection | DietSection

  /** The text `handleRead` builds for a section. */
  function SectionText(plan: FitnessPlan, section: Section, show: JsNum -> string): string {
    match section
    case WorkoutSection => WorkoutSpeech(plan, show)
    case DietSection => DietSpeech(plan)
  }

  class Reader {
    const plan: FitnessPlan
    /** `"speechSynthesis" in window`. */
    const speechSupported: bool
    var isReading: bool
    var selectedSection: Option<Section>
    /** The text last handed to `speechSynthesis.speak`, until it is cancelled or finishes. */
    var utterance: Option<string>

    /** Reading implies an utterance is under way, which needs speech support. */
    predicate Valid()
      reads this
    {
      && (isReading ==> utterance.Some?)
      && (utterance.Some? ==> speechSupported)
    }

    constructor (plan: FitnessPlan, speechSupported: bool)
      ensures this.plan == plan && this.speechSupported == speechSupported
      ensures !isReading && selectedSection == None && utterance == None
      ensures Valid()
    {
      this.plan := plan;
      this.speechSupported := speechSupported;
      isReading := false;
      selectedSection := None;
      utterance := None;
    }

    /** `speakText`: cancel what is queued and queue `text`; reading starts only on `onstart`. */
    method SpeakText(text: string)
      requires Valid()
      modifies this
      ensures utterance == if speechSupported then Some(text) else old(utterance)
      ensures isReading == old(isReading) && selectedSection == old(selectedSection)
      ensures Valid()
    {
      if speechSupported {
        utterance := Some(text);
      }
    }

    /** `stopSpeaking`. */
    method StopSpeaking()
      requires Valid()
      modifies this
      ensures speechSupported ==> !isReading && utterance == None
      ensures !speechSupported ==> isReading == old(isReading) && utterance == old(utterance)
      ensures selectedSection == old(selectedSection)
      ensures Valid()
    {
      if speechSupported {
        utterance := None;
        isReading := false;
      }
    }

    /** `utterance.onstart`. */
    method SpeechStarted()
      requires Valid() && utterance.Some?
      modifies this
      ensures isReading && utterance == old(utterance) && selectedSection == old(selectedSection)
      ensures Valid()
    {
      isReading := true;
    }

    /** `utterance.onend` and `utterance.onerror`. */
    method SpeechEnded()
      requires Valid()
      modifies this
      ensures !isReading && utterance == None && selectedSection == old(selectedSection)
      ensures Valid()
    {
      isReading := false;
      utterance := None;
    }

    /**
     * `handleRead`: while reading, the button only stops the speech; otherwise
     * it selects the section and hands its text to the speech engine.
     */
    method HandleRead(section: Section, show: JsNum -> string)
      requires Valid()
      modifies this
      ensures old(isReading) ==> selectedSection == old(selectedSection) && !isReading && utterance == None
      ensures !old(isReading) ==> selectedSection == Some(section) && !isReading
      ensures !old(isReading) && speechSupported ==> utterance == Some(SectionText(plan, section, show))
      ensures !old(isReading) && !speechSupported ==> utterance == None
      ensures Valid()
    {
      if isReading {
        StopSpeaking();
        return;
      }
      selectedSection := Some(section);
      var text;
      if section == WorkoutSection {
        text := GenerateWorkoutText(plan, show);
      } else {
        text := GenerateDietText(plan);
      }
      SpeakText(text);
    }
  }
}
