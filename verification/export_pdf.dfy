/**
 * The PDF export (`generatePDF` in src/components/ExportPDF.tsx). The jsPDF
 * document is modelled by the sequence of operations it receives: new pages
 * and text blocks, each text block with the vertical cursor `yPos` it is drawn
 * at. `splitTextToSize` is supplied as `wrap`, the number of lines a text
 * wraps to at the page's width.
 */
module ExportPdf {
  import opened Wrappers
  import opened JsText
  import opened Types

  /** What a text block is, which decides how far the cursor moves past it. */
  datatype Kind =
    | Title | NameLine | StatsLine | GoalLine | WorkoutHeading
    | DayHeading | ExerciseLine
    | DietHeading | MealHeading | ItemLine | NutritionLine
    | TipsHeading | TipLine | MotivationText

  /** `doc.addPage()`, or `doc.text(text, x, y)` of a block of `lines` lines. */
  datatype Op = AddPage | Text(kind: Kind, text: string, lines: nat, y: int)

  /** The blocks preceded by a `yPos` check (and a possible new page). */
  predicate Checked(k: Kind) {
    k in {DayHeading, ExerciseLine, DietHeading, MealHeading, ItemLine, TipsHeading, TipLine, MotivationText}
  }

  /** The limit of that check: beyond it the block goes to a new page. */
  function Threshold(k: Kind): int {
    if k == DietHeading || k == TipsHeading then 200
    else if k == MotivationText then 240
    else 250
  }

  /** The largest cursor a block of each kind can be drawn at. */
  function Bound(k: Kind): int {
    match k
    case Title => 20
    case NameLine => 35
    case StatsLine => 42
    case GoalLine => 49
    case WorkoutHeading => 64
    case NutritionLine => 256
    case _ => Threshold(k)
  }

  /** The advance right after drawing a block. */
  function Step(k: Kind, lines: nat): nat {
    match k
    case Title => 15
    case NameLine => 7
    case StatsLine => 7
    case GoalLine => 15
    case WorkoutHeading => 10
    case DayHeading => 6
    case ExerciseLine => 5 * lines
    case DietHeading => 10
    case MealHeading => 6
    case ItemLine => 5
    case NutritionLine => 5
    case TipsHeading => 10
    case TipLine => 5 * lines + 2
    case MotivationText => 0
  }

  /**
   * The extra `yPos += 5` passed between a block of kind `k` and the next
   * block, of kind `next`: the end of a day, the end of a meal, or the gap
   * before the motivation.
   */
  function Closing(k: Kind, next: Kind): nat {
    if next == MotivationText then 5
    else if (k == DayHeading || k == ExerciseLine) && (next == DayHeading || next == DietHeading) then 5
    else if (k == MealHeading || k == ItemLine || k == NutritionLine) && (next == MealHeading || next == TipsHeading) then 5
    else 0
  }

  /** The cursor when a `next` block comes after block `a`, before any page check. */
  function After(a: Op, next: Kind): int
    requires a.Text?
  {
    a.y + Step(a.kind, a.lines) + Closing(a.kind, next)
  }

  /** A new page at `i` sits between two blocks, was forced by the cursor, and restarts it at 20. */
  predicate BreakAt(ops: seq<Op>, i: int)
    requires 0 <= i < |ops|
  {
    && 0 < i < |ops| - 1
    && ops[i - 1].Text? && ops[i + 1].Text?
    && ops[i + 1].y == 20
    && Checked(ops[i + 1].kind)
    && After(ops[i - 1], ops[i + 1].kind) > Threshold(ops[i + 1].kind)
  }

  /** Two blocks on the same page: the second is at the cursor the first left, which passed its check. */
  predicate Follows(a: Op, b: Op)
    requires a.Text? && b.Text?
  {
    && b.y == After(a, b.kind)
    && (Checked(b.kind) ==> b.y <= Threshold(b.kind))
  }

  /** The page break at `i`, if there is one, is a proper one. */
  predicate BreakOk(ops: seq<Op>, i: int)
    requires 0 <= i < |ops|
  {
    ops[i].AddPage? ==> BreakAt(ops, i)
  }

  /** Blocks `i` and `i + 1`, if there is no break between them, are consecutive on one page. */
  predicate LinkOk(ops: seq<Op>, i: int)
    requires 0 <= i < |ops| - 1
  {
    ops[i].Text? && ops[i + 1].Text? ==> Follows(ops[i], ops[i + 1])
  }

  /** The cursor discipline of the whole document. */
  predicate Flow(ops: seq<Op>) {
    && (forall i | 0 <= i < |ops| :: BreakOk(ops, i))
    && (forall i | 0 <= i < |ops| - 1 :: LinkOk(ops, i))
  }

  /** Block `i` lies between the top margin and the bound of its kind. */
  predicate PlacedAt(ops: seq<Op>, i: int)
    requires 0 <= i < |ops|
  {
    ops[i].Text? ==> 20 <= ops[i].y <= Bound(ops[i].kind)
  }

  predicate Placed(ops: seq<Op>) {
    forall i | 0 <= i < |ops| :: PlacedAt(ops, i)
  }

  /** Exercises, tips and the motivation are wrapped; every other block is one line. */
  function LineCount(k: Kind, text: string, wrap: string -> nat): nat {
    if k == ExerciseLine || k == TipLine || k == MotivationText then wrap(text) else 1
  }

  predicate WrappedAt(ops: seq<Op>, i: int, wrap: string -> nat)
    requires 0 <= i < |ops|
  {
    ops[i].Text? ==> ops[i].lines == LineCount(ops[i].kind, ops[i].text, wrap)
  }

  predicate Wrapped(ops: seq<Op>, wrap: string -> nat) {
    forall i | 0 <= i < |ops| :: WrappedAt(ops, i, wrap)
  }

  /** A document under construction: it ends with a block and keeps all three disciplines. */
  predicate Good(ops: seq<Op>, wrap: string -> nat) {
    |ops| > 0 && ops[|ops| - 1].Text? && Flow(ops) && Placed(ops) && Wrapped(ops, wrap)
  }

  function Last(ops: seq<Op>): Op
    requires |ops| > 0
  {
    ops[|ops| - 1]
  }

  /** The cursor right after the last block. */
  function Cursor(ops: seq<Op>): int
    requires |ops| > 0 && Last(ops).Text?
  {
    Last(ops).y + Step(Last(ops).kind, Last(ops).lines)
  }

  /** The blocks' kinds and texts in order: what the reader sees, whatever the pagination. */
  function Texts(ops: seq<Op>): seq<(Kind, string)>
    decreases |ops|
  {
    if ops == [] then []
    else
      Texts(ops[..|ops| - 1]) +
        match ops[|ops| - 1]
        case AddPage => []
        case Text(k, t, _, _) => [(k, t)]
  }

  // ----- The document's content, independent of the cursor -----

  const Bullet := "\U{2022} "

  const TitleText := "AI Fitness Coach - Your Personalized Plan"

  function StatsText(d: UserDetails, show: JsNum -> string): string {
    "Age: " + show(d.age) + " | Gender: " + GenderLabel(d.gender) + " | Height: " + show(d.height)
      + "cm | Weight: " + show(d.weight) + "kg"
  }

  function GoalText(d: UserDetails): string {
    "Goal: " + GoalLabel(d.fitnessGoal) + " | Level: " + LevelLabel(d.fitnessLevel)
      + " | Location: " + LocationLabel(d.workoutLocation)
  }

  function HeaderTexts(d: UserDetails, show: JsNum -> string): seq<(Kind, string)> {
    [(Title, TitleText)] + [(NameLine, "Name: " + d.name)] + [(StatsLine, StatsText(d, show))]
      + [(GoalLine, GoalText(d))] + [(WorkoutHeading, "Workout Plan")]
  }

  /** `• name: sets sets x reps reps, rest restTime`; the notes are not printed. */
  function ExerciseText(e: Exercise, show: JsNum -> string): string {
    Bullet + e.name + ": " + show(e.sets) + " sets x " + e.reps + " reps, rest " + e.restTime
  }

  lemma ExerciseNotesNotPrinted(e: Exercise, notes: Option<string>, show: JsNum -> string)
    ensures ExerciseText(e.(notes := notes), show) == ExerciseText(e, show)
  {
  }

  function ExerciseTexts(exs: seq<Exercise>, show: JsNum -> string): (r: seq<(Kind, string)>)
    ensures |r| == |exs|
    ensures forall k :: 0 <= k < |exs| ==> r[k] == (ExerciseLine, ExerciseText(exs[k], show))
  {
    if exs == [] then []
    else ExerciseTexts(exs[..|exs| - 1], show) + [(ExerciseLine, ExerciseText(exs[|exs| - 1], show))]
  }

  lemma ExerciseTextsStep(exs: seq<Exercise>, j: nat, show: JsNum -> string)
    requires j < |exs|
    ensures ExerciseTexts(exs[..j + 1], show) == ExerciseTexts(exs[..j], show) + [(ExerciseLine, ExerciseText(exs[j], show))]
  {
    assert exs[..j + 1][..j] == exs[..j];
  }

  function DayTexts(day: WorkoutDay, show: JsNum -> string): seq<(Kind, string)> {
    [(DayHeading, day.day)] + ExerciseTexts(day.exercises, show)
  }

  function WorkoutTexts(days: seq<WorkoutDay>, show: JsNum -> string): seq<(Kind, string)> {
    if days == [] then []
    else WorkoutTexts(days[..|days| - 1], show) + DayTexts(days[|days| - 1], show)
  }

  lemma WorkoutTextsStep(days: seq<WorkoutDay>, j: nat, show: JsNum -> string)
    requires j < |days|
    ensures WorkoutTexts(days[..j + 1], show) == WorkoutTexts(days[..j], show) + DayTexts(days[j], show)
  {
    assert days[..j + 1][..j] == days[..j];
  }

  function MealHeadingText(e: MealEntry): string {
    AsciiUpper(e.key) + ": " + e.meal.name
  }

  function ItemTexts(items: seq<string>): (r: seq<(Kind, string)>)
    ensures |r| == |items|
    ensures forall k :: 0 <= k < |items| ==> r[k] == (ItemLine, Bullet + items[k])
  {
    if items == [] then []
    else ItemTexts(items[..|items| - 1]) + [(ItemLine, Bullet + items[|items| - 1])]
  }

  /** The nutrition line: present when calories or protein is, with "N/A" for the missing one. */
  function NutritionText(m: Meal): (r: Option<string>)
    ensures r.Some? <==> OptTruthy(m.calories) || OptTruthy(m.protein)
    ensures r.Some? && !OptTruthy(m.calories) ==> r.value == "Nutrition: N/A | Protein: " + m.protein.value
    ensures r.Some? && !OptTruthy(m.protein) ==> r.value == "Nutrition: " + m.calories.value + " | Protein: N/A"
  {
    if OptTruthy(m.calories) || OptTruthy(m.protein) then
      Some("Nutrition: " + OrElse(m.calories, "N/A") + " | Protein: " + OrElse(m.protein, "N/A"))
    else None
  }

  function NutritionTexts(m: Meal): seq<(Kind, string)> {
    match NutritionText(m)
    case Some(t) => [(NutritionLine, t)]
    case None => []
  }

  lemma ItemTextsStep(items: seq<string>, j: nat)
    requires j < |items|
    ensures ItemTexts(items[..j + 1]) == ItemTexts(items[..j]) + [(ItemLine, Bullet + items[j])]
  {
    assert items[..j + 1][..j] == items[..j];
  }

  function MealTexts(e: MealEntry): seq<(Kind, string)> {
    [(MealHeading, MealHeadingText(e))] + ItemTexts(e.meal.items) + NutritionTexts(e.meal)
  }

  function DietTexts(entries: seq<MealEntry>): seq<(Kind, string)> {
    if entries == [] then []
    else DietTexts(entries[..|entries| - 1]) + MealTexts(entries[|entries| - 1])
  }

  lemma DietTextsStep(entries: seq<MealEntry>, j: nat)
    requires j < |entries|
    ensures DietTexts(entries[..j + 1]) == DietTexts(entries[..j]) + MealTexts(entries[j])
  {
    assert entries[..j + 1][..j] == entries[..j];
  }

  function TipTexts(tips: seq<string>): (r: seq<(Kind, string)>)
    ensures |r| == |tips|
    ensures forall k :: 0 <= k < |tips| ==> r[k] == (TipLine, Bullet + tips[k])
  {
    if tips == [] then []
    else TipTexts(tips[..|tips| - 1]) + [(TipLine, Bullet + tips[|tips| - 1])]
  }

  lemma TipTextsStep(tips: seq<string>, j: nat)
    requires j < |tips|
    ensures TipTexts(tips[..j + 1]) == TipTexts(tips[..j]) + [(TipLine, Bullet + tips[j])]
  {
    assert tips[..j + 1][..j] == tips[..j];
  }

  function MotivationQuoted(plan: FitnessPlan): string {
    "\"" + plan.motivation + "\""
  }

  /** The whole document's blocks in order. */
  function DocumentTexts(plan: FitnessPlan, d: UserDetails, show: JsNum -> string): (r: seq<(Kind, string)>)
    ensures HeaderTexts(d, show) <= r
    ensures |r| >= 1 && r[|r| - 1] == (MotivationText, MotivationQuoted(plan))
  {
    HeaderTexts(d, show) + WorkoutTexts(plan.workoutPlan, show)
      + [(DietHeading, "Diet Plan")] + DietTexts(plan.dietPlan)
      + [(TipsHeading, "Tips & Recommendations")] + TipTexts(plan.tips)
      + [(MotivationText, MotivationQuoted(plan))]
  }

  /** The saved file's name: the user's name, then `_Fitness_Plan.pdf`. */
  function FileName(d: UserDetails): (r: string)
    ensures d.name <= r && |r| == |d.name| + 17
  {
    d.name + "_Fitness_Plan.pdf"
  }

  // ----- Drawing -----

  lemma CursorFloor(ops: seq<Op>, wrap: string -> nat)
    requires Good(ops, wrap)
    ensures 20 <= Last(ops).y <= Bound(Last(ops).kind)
    ensures Cursor(ops) >= 20
  {
    assert PlacedAt(ops, |ops| - 1);
  }

  /**
   * One block: the page check of its kind (a new page and the cursor back
   * to 20 when it is past the threshold), the `doc.text` call, and the advance.
   */
  method Emit(ops: seq<Op>, y: int, kind: Kind, text: string, wrap: string -> nat)
    returns (ops': seq<Op>, y': int)
    requires Good(ops, wrap)
    requires y == After(Last(ops), kind) && y >= 20
    requires !Checked(kind) ==> y <= Bound(kind)
    ensures Good(ops', wrap)
    ensures ops' == ops + (if Checked(kind) && y > Threshold(kind)
                           then [AddPage, Text(kind, text, LineCount(kind, text, wrap), 20)]
                           else [Text(kind, text, LineCount(kind, text, wrap), y)])
    ensures Extends(ops', ops)
    ensures Last(ops').kind == kind
    ensures y' == Cursor(ops')
    ensures Texts(ops') == Texts(ops) + [(kind, text)]
  {
    var drawAt := y;
    if Checked(kind) && y > Threshold(kind) {
      ops' := ops + [AddPage];
      drawAt := 20;
      assert Texts(ops') == Texts(ops) by { assert ops'[..|ops'| - 1] == ops; }
    } else {
      ops' := ops;
    }
    var block := Text(kind, text, LineCount(kind, text, wrap), drawAt);
    var before := ops';
    ops' := ops' + [block];
    assert ops'[..|ops'| - 1] == before;
    y' := drawAt + Step(kind, block.lines);
    EmitKeepsGood(ops, ops', y, kind, wrap);
  }

  lemma EmitKeepsGood(ops: seq<Op>, ops': seq<Op>, y: int, kind: Kind, wrap: string -> nat)
    requires Good(ops, wrap)
    requires y == After(Last(ops), kind)
    requires Extends(ops', ops) && |ops'| > |ops| && Last(ops').Text? && Last(ops').kind == kind
    requires 20 <= Last(ops').y <= Bound(kind)
    requires Last(ops').lines == LineCount(kind, Last(ops').text, wrap)
    requires |ops'| == |ops| + 1 ==> Last(ops').y == y && (Checked(kind) ==> y <= Threshold(kind))
    requires |ops'| == |ops| + 2 ==>
      ops'[|ops|] == AddPage && Last(ops').y == 20 && Checked(kind) && y > Threshold(kind)
    requires |ops'| <= |ops| + 2
    ensures Good(ops', wrap)
  {
    var n := |ops|;
    forall i | 0 <= i < |ops'|
      ensures BreakOk(ops', i) && PlacedAt(ops', i) && WrappedAt(ops', i, wrap)
    {
      if i < n {
        assert ops'[i] == ops[i];
        assert BreakOk(ops, i) && PlacedAt(ops, i) && WrappedAt(ops, i, wrap);
        if ops[i].AddPage? {
          assert ops'[i - 1] == ops[i - 1] && ops'[i + 1] == ops[i + 1];
        }
      }
    }
    forall i | 0 <= i < |ops'| - 1
      ensures LinkOk(ops', i)
    {
      if i < n - 1 {
        assert ops'[i] == ops[i] && ops'[i + 1] == ops[i + 1];
        assert LinkOk(ops, i);
      }
    }
  }

  /** Lines 54-76 for one day: its heading, its exercises, then `yPos += 5`. */
  method WriteDay(ops: seq<Op>, y: int, day: WorkoutDay, show: JsNum -> string, wrap: string -> nat)
    returns (ops': seq<Op>, y': int)
    requires Good(ops, wrap)
    requires Last(ops).kind in {WorkoutHeading, DayHeading, ExerciseLine}
    requires y == After(Last(ops), DayHeading)
    ensures Good(ops', wrap) && Extends(ops', ops)
    ensures Last(ops').kind in {DayHeading, ExerciseLine}
    ensures y' == After(Last(ops'), DayHeading)
    ensures Texts(ops') == Texts(ops) + DayTexts(day, show)
  {
    CursorFloor(ops, wrap);
    ops', y' := Emit(ops, y, DayHeading, day.day, wrap);
    ghost var head := Texts(ops');
    var exs := day.exercises;
    var j := 0;
    assert exs[..0] == [];
    while j < |exs|
      invariant 0 <= j <= |exs|
      invariant Good(ops', wrap) && Extends(ops', ops)
      invariant Last(ops').kind in {DayHeading, ExerciseLine}
      invariant y' == Cursor(ops')
      invariant Texts(ops') == head + ExerciseTexts(exs[..j], show)
    {
      CursorFloor(ops', wrap);
      var before := ops';
      ops', y' := Emit(ops', y', ExerciseLine, ExerciseText(exs[j], show), wrap);
      ExerciseTextsStep(exs, j, show);
      AppendAssoc(head, ExerciseTexts(exs[..j], show), [(ExerciseLine, ExerciseText(exs[j], show))]);
      ExtendsTrans(ops, before, ops');
      j := j + 1;
    }
    assert exs[..|exs|] == exs;
    AppendAssoc(Texts(ops), [(DayHeading, day.day)], ExerciseTexts(exs, show));
    y' := y' + 5;
  }

  /** Lines 54-76: the days in order. */
  method WriteWorkout(ops: seq<Op>, y: int, days: seq<WorkoutDay>, show: JsNum -> string, wrap: string -> nat)
    returns (ops': seq<Op>, y': int)
    requires Good(ops, wrap)
    requires Last(ops).kind == WorkoutHeading
    requires y == Cursor(ops)
    ensures Good(ops', wrap) && Extends(ops', ops)
    ensures Last(ops').kind in {WorkoutHeading, DayHeading, ExerciseLine}
    ensures y' == After(Last(ops'), DietHeading)
    ensures Texts(ops') == Texts(ops) + WorkoutTexts(days, show)
  {
    ops', y' := ops, y;
    var j := 0;
    assert days[..0] == [];
    while j < |days|
      invariant 0 <= j <= |days|
      invariant Good(ops', wrap) && Extends(ops', ops)
      invariant Last(ops').kind in {WorkoutHeading, DayHeading, ExerciseLine}
      invariant y' == After(Last(ops'), DayHeading)
      invariant Texts(ops') == Texts(ops) + WorkoutTexts(days[..j], show)
    {
      var before := ops';
      ops', y' := WriteDay(ops', y', days[j], show, wrap);
      WorkoutTextsStep(days, j, show);
      AppendAssoc(Texts(ops), WorkoutTexts(days[..j], show), DayTexts(days[j], show));
      ExtendsTrans(ops, before, ops');
      j := j + 1;
    }
    assert days[..|days|] == days;
  }

  /** Lines 101-108: a meal's items in order, each after its page check. */
  method WriteItems(ops: seq<Op>, y: int, items: seq<string>, wrap: string -> nat)
    returns (ops': seq<Op>, y': int)
    requires Good(ops, wrap)
    requires Last(ops).kind == MealHeading
    requires y == Cursor(ops)
    ensures Good(ops', wrap) && Extends(ops', ops)
    ensures Last(ops').kind in {MealHeading, ItemLine}
    ensures y' == Cursor(ops')
    ensures Texts(ops') == Texts(ops) + ItemTexts(items)
  {
    ops', y' := ops, y;
    var j := 0;
    assert items[..0] == [];
    while j < |items|
      invariant 0 <= j <= |items|
      invariant Good(ops', wrap) && Extends(ops', ops)
      invariant Last(ops').kind in {MealHeading, ItemLine}
      invariant y' == Cursor(ops')
      invariant Texts(ops') == Texts(ops) + ItemTexts(items[..j])
    {
      CursorFloor(ops', wrap);
      var before := ops';
      ops', y' := Emit(ops', y', ItemLine, Bullet + items[j], wrap);
      ItemTextsStep(items, j);
      AppendAssoc(Texts(ops), ItemTexts(items[..j]), [(ItemLine, Bullet + items[j])]);
      ExtendsTrans(ops, before, ops');
      j := j + 1;
    }
    assert items[..|items|] == items;
  }

  /** Lines 109-118: the nutrition line, drawn only when calories or protein is truthy, with no page check. */
  method WriteNutrition(ops: seq<Op>, y: int, m: Meal, wrap: string -> nat)
    returns (ops': seq<Op>, y': int)
    requires Good(ops, wrap)
    requires Last(ops).kind in {MealHeading, ItemLine}
    requires y == Cursor(ops)
    ensures Good(ops', wrap) && Extends(ops', ops)
    ensures Last(ops').kind in {MealHeading, ItemLine, NutritionLine}
    ensures y' == Cursor(ops')
    ensures Texts(ops') == Texts(ops) + NutritionTexts(m)
  {
    var nutrition := NutritionText(m);
    if nutrition.Some? {
      CursorFloor(ops, wrap);
      ops', y' := Emit(ops, y, NutritionLine, nutrition.value, wrap);
    } else {
      ops', y' := ops, y;
      assert Texts(ops) + [] == Texts(ops);
    }
  }

  /** Lines 90-120 for one meal: heading, items, the optional nutrition line, then `yPos += 5`. */
  method WriteMeal(ops: seq<Op>, y: int, entry: MealEntry, wrap: string -> nat)
    returns (ops': seq<Op>, y': int)
    requires Good(ops, wrap)
    requires Last(ops).kind in {DietHeading, MealHeading, ItemLine, NutritionLine}
    requires y == After(Last(ops), MealHeading)
    ensures Good(ops', wrap) && Extends(ops', ops)
    ensures Last(ops').kind in {MealHeading, ItemLine, NutritionLine}
    ensures y' == After(Last(ops'), MealHeading)
    ensures Texts(ops') == Texts(ops) + MealTexts(entry)
  {
    ghost var t0 := Texts(ops);
    ghost var heading := [(MealHeading, MealHeadingText(entry))];
    ghost var items := ItemTexts(entry.meal.items);
    CursorFloor(ops, wrap);
    ops', y' := Emit(ops, y, MealHeading, MealHeadingText(entry), wrap);
    var step1 := ops';
    ops', y' := WriteItems(ops', y', entry.meal.items, wrap);
    ExtendsTrans(ops, step1, ops');
    var step2 := ops';
    ops', y' := WriteNutrition(ops', y', entry.meal, wrap);
    ExtendsTrans(ops, step2, ops');
    assert Texts(ops') == t0 + heading + items + NutritionTexts(entry.meal);
    AppendAssoc(t0, heading, items);
    AppendAssoc(t0, heading + items, NutritionTexts(entry.meal));
    y' := y' + 5;
  }

  /** Lines 78-120: the diet heading (after its page check) and the meals in order. */
  method WriteDiet(ops: seq<Op>, y: int, entries: seq<MealEntry>, wrap: string -> nat)
    returns (ops': seq<Op>, y': int)
    requires Good(ops, wrap)
    requires Last(ops).kind in {WorkoutHeading, DayHeading, ExerciseLine}
    requires y == After(Last(ops), DietHeading)
    ensures Good(ops', wrap) && Extends(ops', ops)
    ensures Last(ops').kind in {DietHeading, MealHeading, ItemLine, NutritionLine}
    ensures y' == After(Last(ops'), TipsHeading)
    ensures Texts(ops') == Texts(ops) + [(DietHeading, "Diet Plan")] + DietTexts(entries)
  {
    CursorFloor(ops, wrap);
    ops', y' := Emit(ops, y, DietHeading, "Diet Plan", wrap);
    ghost var head := Texts(ops');
    var j := 0;
    assert entries[..0] == [];
    while j < |entries|
      invariant 0 <= j <= |entries|
      invariant Good(ops', wrap) && Extends(ops', ops)
      invariant Last(ops').kind in {DietHeading, MealHeading, ItemLine, NutritionLine}
      invariant y' == After(Last(ops'), MealHeading)
      invariant Texts(ops') == head + DietTexts(entries[..j])
    {
      var before := ops';
      ops', y' := WriteMeal(ops', y', entries[j], wrap);
      DietTextsStep(entries, j);
      AppendAssoc(head, DietTexts(entries[..j]), MealTexts(entries[j]));
      ExtendsTrans(ops, before, ops');
      j := j + 1;
    }
    assert entries[..|entries|] == entries;
    MealCursorBeforeTips(Last(ops'));
  }

  /** After the diet blocks, the tips heading follows at the cursor a further meal would have used. */
  lemma MealCursorBeforeTips(a: Op)
    requires a.Text? && a.kind in {DietHeading, MealHeading, ItemLine, NutritionLine}
    ensures After(a, TipsHeading) == After(a, MealHeading)
  {
  }

  /** Lines 122-143: the tips heading (after its page check) and the tips in order. */
  method WriteTips(ops: seq<Op>, y: int, tips: seq<string>, wrap: string -> nat)
    returns (ops': seq<Op>, y': int)
    requires Good(ops, wrap)
    requires Last(ops).kind in {DietHeading, MealHeading, ItemLine, NutritionLine}
    requires y == After(Last(ops), TipsHeading)
    ensures Good(ops', wrap) && Extends(ops', ops)
    ensures Last(ops').kind in {TipsHeading, TipLine}
    ensures y' == Cursor(ops')
    ensures Texts(ops') == Texts(ops) + [(TipsHeading, "Tips & Recommendations")] + TipTexts(tips)
  {
    CursorFloor(ops, wrap);
    ops', y' := Emit(ops, y, TipsHeading, "Tips & Recommendations", wrap);
    ghost var head := Texts(ops');
    var j := 0;
    assert tips[..0] == [];
    while j < |tips|
      invariant 0 <= j <= |tips|
      invariant Good(ops', wrap) && Extends(ops', ops)
      invariant Last(ops').kind in {TipsHeading, TipLine}
      invariant y' == Cursor(ops')
      invariant Texts(ops') == head + TipTexts(tips[..j])
    {
      CursorFloor(ops', wrap);
      var before := ops';
      ops', y' := Emit(ops', y', TipLine, Bullet + tips[j], wrap);
      TipTextsStep(tips, j);
      AppendAssoc(head, TipTexts(tips[..j]), [(TipLine, Bullet + tips[j])]);
      ExtendsTrans(ops, before, ops');
      j := j + 1;
    }
    assert tips[..|tips|] == tips;
  }

  /** The header's blocks: the cursor starts at 20 and the workout heading is drawn at 64. */
  function HeaderOps(d: UserDetails, show: JsNum -> string): seq<Op> {
    [Text(Title, TitleText, 1, 20)] + [Text(NameLine, "Name: " + d.name, 1, 35)]
      + [Text(StatsLine, StatsText(d, show), 1, 42)] + [Text(GoalLine, GoalText(d), 1, 49)]
      + [Text(WorkoutHeading, "Workout Plan", 1, 64)]
  }

  /** `ops'` is `ops` with more operations after it. */
  predicate Extends(ops': seq<Op>, ops: seq<Op>) {
    |ops'| >= |ops| && ops'[..|ops|] == ops
  }

  lemma ExtendsTrans(a: seq<Op>, b: seq<Op>, c: seq<Op>)
    requires Extends(b, a) && Extends(c, b)
    ensures Extends(c, a)
  {
    assert c[..|a|] == c[..|b|][..|a|];
  }

  /** `Texts` of one more operation. */
  lemma TextsSnoc(ops: seq<Op>, op: Op)
    ensures Texts(ops + [op]) == Texts(ops) + (if op.Text? then [(op.kind, op.text)] else [])
  {
    assert (ops + [op])[..|ops|] == ops;
  }

  lemma HeaderIsGood(d: UserDetails, show: JsNum -> string, wrap: string -> nat)
    ensures Good(HeaderOps(d, show), wrap)
    ensures Texts(HeaderOps(d, show)) == HeaderTexts(d, show)
  {
    var h := HeaderOps(d, show);
    forall i | 0 <= i < |h|
      ensures BreakOk(h, i) && PlacedAt(h, i) && WrappedAt(h, i, wrap)
    {
    }
    forall i | 0 <= i < |h| - 1
      ensures LinkOk(h, i)
    {
    }
    var t1 := [Text(Title, TitleText, 1, 20)];
    var t2 := t1 + [Text(NameLine, "Name: " + d.name, 1, 35)];
    var t3 := t2 + [Text(StatsLine, StatsText(d, show), 1, 42)];
    var t4 := t3 + [Text(GoalLine, GoalText(d), 1, 49)];
    TextsSnoc([], t1[0]);
    assert [] + [t1[0]] == t1;
    TextsSnoc(t1, Text(NameLine, "Name: " + d.name, 1, 35));
    TextsSnoc(t2, Text(StatsLine, StatsText(d, show), 1, 42));
    TextsSnoc(t3, Text(GoalLine, GoalText(d), 1, 49));
    TextsSnoc(t4, Text(WorkoutHeading, "Workout Plan", 1, 64));
  }

  /** Lines 17-49: title, the three user lines and the workout heading, with no page check. */
  method WriteHeader(d: UserDetails, show: JsNum -> string, wrap: string -> nat)
    returns (ops: seq<Op>, y: int)
    ensures ops == HeaderOps(d, show)
    ensures Good(ops, wrap) && y == Cursor(ops) == 74
    ensures Texts(ops) == HeaderTexts(d, show)
  {
    y := 20;
    ops := [Text(Title, TitleText, 1, y)];
    y := y + 15;
    ops := ops + [Text(NameLine, "Name: " + d.name, 1, y)];
    y := y + 7;
    ops := ops + [Text(StatsLine, StatsText(d, show), 1, y)];
    y := y + 7;
    ops := ops + [Text(GoalLine, GoalText(d), 1, y)];
    y := y + 15;
    ops := ops + [Text(WorkoutHeading, "Workout Plan", 1, y)];
    y := y + 10;
    HeaderIsGood(d, show, wrap);
  }

  /**
   * `generatePDF`: the document's blocks are exactly the plan's content in
   * order, laid out by the cursor discipline, and saved under the user's name.
   */
  method GeneratePdf(plan: FitnessPlan, d: UserDetails, show: JsNum -> string, wrap: string -> nat)
    returns (ops: seq<Op>, fileName: string)
    ensures Flow(ops) && Placed(ops) && Wrapped(ops, wrap)
    ensures Texts(ops) == DocumentTexts(plan, d, show)
    ensures |ops| >= 5 && ops[..5] == HeaderOps(d, show)
    ensures fileName == FileName(d)
  {
    var y;
    ops, y := WriteHeader(d, show, wrap);
    var header := ops;
    ops, y := WriteWorkout(ops, y, plan.workoutPlan, show, wrap);
    var sofar := ops;
    ops, y := WriteDiet(ops, y, plan.dietPlan, wrap);
    ExtendsTrans(header, sofar, ops);
    sofar := ops;
    ops, y := WriteTips(ops, y, plan.tips, wrap);
    ExtendsTrans(header, sofar, ops);
    sofar := ops;
    y := y + 5;
    CursorFloor(ops, wrap);
    ops, y := Emit(ops, y, MotivationText, MotivationQuoted(plan), wrap);
    ExtendsTrans(header, sofar, ops);
    fileName := FileName(d);
  }
}
