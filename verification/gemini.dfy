/**
 * The text handling around the hosted model (src/lib/gemini.ts): the prompt
 * built from a user's details, the selection of the JSON payload out of a
 * markdown-fenced reply, and the clean-up of the motivation quote. The model
 * call itself and `JSON.parse` are supplied as functions.
 */
module Gemini {
  import opened Wrappers
  import opened JsText
  import opened Types

  // ---------------------------------------------------------------------
  // Locating substrings
  // ---------------------------------------------------------------------

  /** `pat` occurs in `s` starting at index `k`. */
  predicate OccursAt(s: string, pat: string, k: nat) {
    k + |pat| <= |s| && s[k..k + |pat|] == pat
  }

  /** The first index at or after `from` where `pat` occurs, if any. */
  function FirstFrom(s: string, pat: string, from: nat): (r: Option<nat>)
    ensures r.Some? ==> from <= r.value && OccursAt(s, pat, r.value)
    ensures r.Some? ==> forall k: nat :: from <= k < r.value ==> !OccursAt(s, pat, k)
    ensures r.None? ==> forall k: nat :: from <= k ==> !OccursAt(s, pat, k)
    decreases |s| - from
  {
    if from + |pat| > |s| then None
    else if OccursAt(s, pat, from) then Some(from)
    else FirstFrom(s, pat, from + 1)
  }

  // ---------------------------------------------------------------------
  // Fence extraction: /```json\n([\s\S]*?)\n```/ || /```\n([\s\S]*?)\n```/
  // ---------------------------------------------------------------------

  const JsonOpen := "```json\n"
  const PlainOpen := "```\n"
  const Close := "\n```"

  /**
   * A match of /<open>([\s\S]*?)\n```/ with the opener at `i` and the closer at
   * `j`: the lazy group makes `j` the first closer at or after the opener's end.
   */
  predicate IsFenceAt(s: string, open: string, i: nat, j: nat) {
    && OccursAt(s, open, i)
    && i + |open| <= j
    && OccursAt(s, Close, j)
    && forall k: nat :: i + |open| <= k < j ==> !OccursAt(s, Close, k)
  }

  /** No fence of this opener starts before `i`. */
  ghost predicate NoFenceBefore(s: string, open: string, i: nat) {
    forall i': nat, j': nat :: i' < i ==> !IsFenceAt(s, open, i', j')
  }

  /** There is no fence of this opener at all. */
  ghost predicate NoFence(s: string, open: string) {
    forall i: nat, j: nat :: !IsFenceAt(s, open, i, j)
  }

  /** A closer is unique for a given opener position. */
  lemma FenceUnique(s: string, open: string, i: nat, j1: nat, j2: nat)
    requires IsFenceAt(s, open, i, j1) && IsFenceAt(s, open, i, j2)
    ensures j1 == j2
  {
  }

  /** The regular-expression search from position `i` on: leftmost opener that has a closer. */
  function FindFenceFrom(s: string, open: string, i: nat): (r: Option<(nat, nat)>)
    requires |open| > 0
    ensures r.Some? ==> i <= r.value.0 && IsFenceAt(s, open, r.value.0, r.value.1)
    ensures r.Some? ==> forall i': nat, j': nat :: i <= i' < r.value.0 ==> !IsFenceAt(s, open, i', j')
    ensures r.None? ==> forall i': nat, j': nat :: i <= i' ==> !IsFenceAt(s, open, i', j')
    decreases |s| - i
  {
    if i + |open| > |s| then None
    else if OccursAt(s, open, i) && FirstFrom(s, Close, i + |open|).Some? then
      Some((i, FirstFrom(s, Close, i + |open|).value))
    else
      FindFenceFrom(s, open, i + 1)
  }

  /** `s.match(/<open>([\s\S]*?)\n```/)`: the opener and closer positions of the first match. */
  function FindFence(s: string, open: string): (r: Option<(nat, nat)>)
    requires |open| > 0
    ensures r.Some? ==> IsFenceAt(s, open, r.value.0, r.value.1) && NoFenceBefore(s, open, r.value.0)
    ensures r.None? ==> NoFence(s, open)
  {
    FindFenceFrom(s, open, 0)
  }

  /**
   * `jsonMatch ? jsonMatch[1] : text` with the `json`-tagged search tried
   * first: either the whole reply, or a fence's interior, which is shorter and
   * holds no closing marker.
   */
  function SelectPayload(text: string): (r: string)
    ensures |r| <= |text|
    ensures r == text || NoCloser(r)
  {
    match FindFence(text, JsonOpen)
    case Some((i, j)) =>
      FenceInteriorHasNoCloser(text, JsonOpen, i, j);
      text[i + |JsonOpen|..j]
    case None =>
      match FindFence(text, PlainOpen)
      case Some((i, j)) =>
        FenceInteriorHasNoCloser(text, PlainOpen, i, j);
        text[i + |PlainOpen|..j]
      case None => text
  }

  /** The string handed to `JSON.parse`: no longer than the reply, white space at neither end. */
  function PayloadText(text: string): (r: string)
    ensures |r| <= |text|
    ensures r == [] || (!IsJsSpace(r[0]) && !IsJsSpace(r[|r| - 1]))
  {
    Trim(SelectPayload(text))
  }

  /** `t` contains no closing marker. */
  predicate NoCloser(t: string) {
    forall k: nat :: k < |t| ==> !OccursAt(t, Close, k)
  }

  /** The interior of any fence holds no closing marker: the lazy group stops at the first one. */
  lemma FenceInteriorHasNoCloser(s: string, open: string, i: nat, j: nat)
    requires IsFenceAt(s, open, i, j)
    ensures NoCloser(s[i + |open|..j])
  {
    var a := i + |open|;
    var t := s[a..j];
    forall k: nat | k < |t| && OccursAt(t, Close, k) ensures false {
      forall m | k <= m < k + |Close| ensures t[m] == s[a + m] {}
      assert t[k..k + |Close|] == s[a + k..a + k + |Close|];
      assert OccursAt(s, Close, a + k);
    }
  }

  /**
   * With a `json`-tagged fence present, the interior of the leftmost one is
   * selected, whatever untagged fences come before it.
   */
  lemma TaggedFenceSelected(s: string, i: nat, j: nat)
    requires IsFenceAt(s, JsonOpen, i, j) && NoFenceBefore(s, JsonOpen, i)
    ensures SelectPayload(s) == s[i + |JsonOpen|..j]
    ensures NoCloser(SelectPayload(s))
  {
    var r := FindFence(s, JsonOpen);
    assert r.Some?;
    assert r.value.0 == i;
    FenceUnique(s, JsonOpen, i, j, r.value.1);
    FenceInteriorHasNoCloser(s, JsonOpen, i, j);
  }

  /** Without a tagged fence, the leftmost untagged fence is selected. */
  lemma PlainFenceSelected(s: string, i: nat, j: nat)
    requires NoFence(s, JsonOpen)
    requires IsFenceAt(s, PlainOpen, i, j) && NoFenceBefore(s, PlainOpen, i)
    ensures SelectPayload(s) == s[i + |PlainOpen|..j]
    ensures NoCloser(SelectPayload(s))
  {
    assert FindFence(s, JsonOpen).None?;
    var r := FindFence(s, PlainOpen);
    assert r.Some?;
    assert r.value.0 == i;
    FenceUnique(s, PlainOpen, i, j, r.value.1);
    FenceInteriorHasNoCloser(s, PlainOpen, i, j);
  }

  /** With no fence of either form, the whole reply is selected. */
  lemma NoFenceSelectsWhole(s: string)
    requires NoFence(s, JsonOpen) && NoFence(s, PlainOpen)
    ensures SelectPayload(s) == s
  {
    assert FindFence(s, JsonOpen).None?;
    assert FindFence(s, PlainOpen).None?;
  }

  /**
   * A reply in which no "```" is directly followed by a line feed or by
   * "json" and a line feed is parsed whole, only trimmed.
   */
  lemma UnfencedReplyIsTrimmed(s: string)
    requires forall k: nat :: !OccursAt(s, JsonOpen, k) && !OccursAt(s, PlainOpen, k)
    ensures PayloadText(s) == Trim(s)
  {
    NoFenceSelectsWhole(s);
  }

  /**
   * A payload wrapped as "```json\n" + payload + "\n```" after text without
   * backticks is extracted exactly and trimmed, provided the payload itself
   * does not end its fence early.
   */
  lemma WrappedPayloadExtracted(before: string, payload: string, after: string)
    requires '`' !in before
    requires forall k: nat :: k < |payload| ==> !OccursAt(payload + Close, Close, k)
    ensures PayloadText(before + JsonOpen + payload + Close + after) == Trim(payload)
  {
    var s := before + JsonOpen + payload + Close + after;
    var i := |before|;
    var j := i + |JsonOpen| + |payload|;
    assert s[i..i + |JsonOpen|] == JsonOpen;
    assert s[j..j + |Close|] == Close;
    forall k: nat | i + |JsonOpen| <= k < j ensures !OccursAt(s, Close, k) {
      var k' := k - i - |JsonOpen|;
      assert s[k..k + |Close|] == (payload + Close)[k'..k' + |Close|];
      assert !OccursAt(payload + Close, Close, k');
    }
    assert IsFenceAt(s, JsonOpen, i, j);
    forall i': nat, j': nat | i' < i ensures !IsFenceAt(s, JsonOpen, i', j') {
      assert s[i'] == before[i'] != '`';
      assert JsonOpen[0] == '`';
      assert !OccursAt(s, JsonOpen, i');
    }
    TaggedFenceSelected(s, i, j);
    assert s[i + |JsonOpen|..j] == payload;
  }

  // ---------------------------------------------------------------------
  // The plan prompt
  // ---------------------------------------------------------------------

  const Intro := "You are an expert AI fitness coach. "
    + "Generate a comprehensive, personalized "
    + "fitness plan based on the following "
    + "user details:"
  const FormatRequest := "Please provide a detailed response "
    + "in the following JSON format:"
  const MedicalLabel := "Medical History: "
  const StressLabelPrefix := "Stress Level: "
  const ClosingStart := "Generate a 7-day workout plan. "
    + "Make sure the diet aligns with their "
    + "dietary preference ("
  const ClosingEnd := "). Be specific and practical."

  /** The literal JSON example embedded in the prompt, one entry per line, in four parts. */
  const WorkoutTemplate: seq<string> := [
    "{",
    "  \"workoutPlan\": [",
    "    {",
    "      \"day\": \"Monday\",",
    "      \"exercises\": [",
    "        {",
    "          \"name\": \"Exercise name\",",
    "          \"sets\": 3,",
    "          \"reps\": \"10-12\",",
    "          \"restTime\": \"60 seconds\",",
    "          \"notes\": " + "\"Any specific tips\"",
    "        }",
    "      ]",
    "    }",
    "  ],"
  ]

  const BreakfastLunchTemplate: seq<string> := [
    "  \"dietPlan\": {",
    "    \"breakfast\": {",
    "      \"name\": \"Breakfast name\",",
    "      \"items\": [\"Item 1\", \"Item 2\"],",
    "      \"calories\": \"400 kcal\",",
    "      \"protein\": \"25g\"",
    "    },",
    "    \"lunch\": {",
    "      \"name\": \"Lunch name\",",
    "      \"items\": [\"Item 1\", \"Item 2\"],",
    "      \"calories\": \"600 kcal\",",
    "      \"protein\": \"40g\"",
    "    },"
  ]

  const DinnerSnacksTemplate: seq<string> := [
    "    \"dinner\": {",
    "      \"name\": \"Dinner name\",",
    "      \"items\": [\"Item 1\", \"Item 2\"],",
    "      \"calories\": \"500 kcal\",",
    "      \"protein\": \"35g\"",
    "    },",
    "    \"snacks\": {",
    "      \"name\": \"Snacks\",",
    "      \"items\": " + "[\"Snack 1\", \"Snack 2\"],",
    "      \"calories\": \"200 kcal\",",
    "      \"protein\": \"10g\"",
    "    }",
    "  },"
  ]

  const TipsTemplate: seq<string> := [
    "  \"tips\": [",
    "    \"Lifestyle tip 1\",",
    "    \"Posture tip 2\",",
    "    \"General tip 3\"",
    "  ],",
    "  \"motivation\": " + "\"A powerful motivational message\"",
    "}"
  ]

  const JsonTemplate: seq<string> := WorkoutTemplate + BreakfastLunchTemplate + DinnerSnacksTemplate + TipsTemplate

  /** Index of the medical-history line and of the stress-level line. */
  const MedicalLine := 12
  const StressLine := 13

  /** The nine labelled lines of the required fields. */
  function FieldLines(d: UserDetails, show: JsNum -> string): (ls: seq<string>)
    ensures |ls| == 9
  {
    ["Name: " + d.name,
     "Age: " + show(d.age),
     "Gender: " + GenderLabel(d.gender),
     "Height: " + show(d.height) + " cm",
     "Weight: " + show(d.weight) + " kg",
     "Fitness Goal: " + GoalLabel(d.fitnessGoal),
     "Fitness Level: " + LevelLabel(d.fitnessLevel),
     "Workout Location: " + LocationLabel(d.workoutLocation),
     "Dietary Preference: " + DietLabel(d.dietaryPreference)]
  }

  /** `${medicalHistory ? ... : ''}` and `${stressLevel ? ... : ''}`. */
  function OptionalLines(d: UserDetails): (ls: seq<string>)
    ensures |ls| == 2
  {
    [if OptTruthy(d.medicalHistory) then MedicalLabel + d.medicalHistory.value else "",
     if d.stressLevel.Some? then StressLabelPrefix + StressLabel(d.stressLevel.value) else ""]
  }

  /** The prompt's lines up to the JSON example; the template literal starts with a line feed. */
  function PromptHead(d: UserDetails, show: JsNum -> string): (ls: seq<string>)
    ensures |ls| == 16
  {
    ["", Intro, ""] + FieldLines(d, show) + OptionalLines(d) + ["", FormatRequest]
  }

  /** The prompt's lines after the JSON example; the template literal ends with a line feed. */
  function PromptTail(d: UserDetails): (ls: seq<string>)
    ensures |ls| == 3
  {
    ["", ClosingStart + DietLabel(d.dietaryPreference) + ClosingEnd, ""]
  }

  /** The prompt's 67 lines. `show` is JavaScript's number-to-string conversion. */
  function PromptLines(d: UserDetails, show: JsNum -> string): (ls: seq<string>)
    ensures |ls| == 67
  {
    PromptHead(d, show) + JsonTemplate + PromptTail(d)
  }

  /** The prompt text sent to the model. */
  function BuildPrompt(d: UserDetails, show: JsNum -> string): string {
    Join(PromptLines(d, show), "\n")
  }

  /** Splitting a text at its line feeds, as `text.split("\n")` does. */
  function Lines(s: string): (ls: seq<string>)
    ensures |ls| >= 1
  {
    if s == [] then [""]
    else if s[0] == '\n' then [""] + Lines(s[1..])
    else var rest := Lines(s[1..]); [[s[0]] + rest[0]] + rest[1..]
  }

  lemma {:induction false} LinesOfLine(a: string)
    requires '\n' !in a
    ensures Lines(a) == [a]
  {
    if a != [] {
      LinesOfLine(a[1..]);
      assert [a[0]] + a[1..] == a;
    }
  }

  /** Splitting at one line feed: the lines before it, then the lines after it. */
  lemma {:induction false} LinesAppend(a: string, t: string)
    ensures Lines(a + "\n" + t) == Lines(a) + Lines(t)
  {
    if a == [] {
      assert a + "\n" + t == "\n" + t;
    } else {
      assert (a + "\n" + t)[1..] == a[1..] + "\n" + t;
      LinesAppend(a[1..], t);
    }
  }

  /** A line-feed-free text put in front lands on the first line only. */
  lemma {:induction false} LinesPrefix(p: string, h: string)
    requires '\n' !in p
    ensures Lines(p + h) == [p + Lines(h)[0]] + Lines(h)[1..]
  {
    if p == [] {
      var ls := Lines(h);
      assert p + h == h && p + ls[0] == ls[0];
      assert ls == [ls[0]] + ls[1..];
    } else {
      assert (p + h)[0] == p[0] && p[0] != '\n';
      assert (p + h)[1..] == p[1..] + h;
      LinesPrefix(p[1..], h);
      assert [p[0]] + (p[1..] + Lines(h)[0]) == p + Lines(h)[0];
    }
  }

  /** Joining newline-free lines with line feeds and splitting again gives the lines back. */
  lemma {:induction false} LinesOfJoin(ls: seq<string>)
    requires |ls| >= 1
    requires forall k :: 0 <= k < |ls| ==> '\n' !in ls[k]
    ensures Lines(Join(ls, "\n")) == ls
  {
    if |ls| == 1 {
      LinesOfLine(ls[0]);
    } else {
      LinesOfJoin(ls[1..]);
      LinesAppend(ls[0], Join(ls[1..], "\n"));
      LinesOfLine(ls[0]);
      assert [ls[0]] + ls[1..] == ls;
    }
  }

  /** No part holds a line feed. */
  predicate SingleLines(ls: seq<string>) {
    forall k :: 0 <= k < |ls| ==> '\n' !in ls[k]
  }

  /**
   * Joining plain lines around one line `x` that may hold line feeds, and
   * splitting again, gives the lines back with `x` split in its place.
   */
  lemma {:induction false} LinesOfJoinAround(a: seq<string>, x: string, b: seq<string>)
    requires SingleLines(a) && SingleLines(b)
    ensures Lines(Join(a + [x] + b, "\n")) == a + Lines(x) + b
  {
    if a == [] {
      LinesOfJoinFrom(x, b);
      assert a + [x] + b == [x] + b;
    } else {
      assert SingleLines(a[1..]) by {
        forall k | 0 <= k < |a[1..]| ensures '\n' !in a[1..][k] {
          assert a[1..][k] == a[k + 1];
        }
      }
      LinesOfJoinAround(a[1..], x, b);
      LinesAroundStep(a, x, b);
    }
  }

  /** The inductive step of `LinesOfJoinAround`: one more plain line in front. */
  lemma LinesAroundStep(a: seq<string>, x: string, b: seq<string>)
    requires a != [] && '\n' !in a[0]
    requires Lines(Join(a[1..] + [x] + b, "\n")) == a[1..] + Lines(x) + b
    ensures Lines(Join(a + [x] + b, "\n")) == a + Lines(x) + b
  {
    var whole, c := a + [x] + b, a[1..] + [x] + b;
    assert whole[0] == a[0] && whole[1..] == c;
    JoinCons(whole);
    var j := Join(c, "\n");
    LinesAppend(a[0], j);
    LinesOfLine(a[0]);
    ConsSplice(a, Lines(x), b);
  }

  /** Putting a run's first element back in front of the rest of a splice. */
  lemma ConsSplice<T>(a: seq<T>, y: seq<T>, z: seq<T>)
    requires a != []
    ensures [a[0]] + (a[1..] + y + z) == a + y + z
  {
    assert [a[0]] + a[1..] == a;
  }

  /** Joining two or more parts: the first, a line feed, then the rest joined. */
  lemma JoinCons(ls: seq<string>)
    requires |ls| >= 2
    ensures Join(ls, "\n") == ls[0] + "\n" + Join(ls[1..], "\n")
  {
  }

  /** `LinesOfJoinAround` with no plain lines before `x`. */
  lemma LinesOfJoinFrom(x: string, b: seq<string>)
    requires SingleLines(b)
    ensures Lines(Join([x] + b, "\n")) == Lines(x) + b
  {
    if b != [] {
      assert ([x] + b)[1..] == b;
      LinesOfJoin(b);
      LinesAppend(x, Join(b, "\n"));
    }
  }

  /** A run split around its element at `k`. */
  lemma SplitAt<T>(s: seq<T>, k: nat)
    requires k < |s|
    ensures s == s[..k] + [s[k]] + s[k + 1..]
  {
  }

  /**
   * The name (a one-line text input) and the printed numbers contain no line
   * feed. The medical history, a multi-line text area, may.
   */
  predicate SingleLineFields(d: UserDetails, show: JsNum -> string) {
    && '\n' !in d.name
    && '\n' !in show(d.age) && '\n' !in show(d.height) && '\n' !in show(d.weight)
  }

  /** The medical history, if any, is one line. */
  predicate SingleLineHistory(d: UserDetails) {
    d.medicalHistory.Some? ==> '\n' !in d.medicalHistory.value
  }

  /** A line of the JSON example: no line feed, and it starts with a space or a brace. */
  predicate TemplateLine(l: string) {
    '\n' !in l && |l| > 0 && (l[0] == ' ' || l[0] == '{' || l[0] == '}')
  }

  predicate AllTemplateLines(ls: seq<string>) {
    forall k :: 0 <= k < |ls| ==> TemplateLine(ls[k])
  }

  lemma WorkoutTemplateShape() ensures AllTemplateLines(WorkoutTemplate) {}
  lemma BreakfastLunchTemplateShape() ensures AllTemplateLines(BreakfastLunchTemplate) {}
  lemma DinnerSnacksTemplateShape() ensures AllTemplateLines(DinnerSnacksTemplate) {}
  lemma TipsTemplateShape() ensures AllTemplateLines(TipsTemplate) {}

  lemma AllTemplateLinesAppend(a: seq<string>, b: seq<string>)
    requires AllTemplateLines(a) && AllTemplateLines(b)
    ensures AllTemplateLines(a + b)
  {
    forall k | 0 <= k < |a + b| ensures TemplateLine((a + b)[k]) {
      if k < |a| { assert (a + b)[k] == a[k]; } else { assert (a + b)[k] == b[k - |a|]; }
    }
  }

  lemma TemplateLinesShape()
    ensures AllTemplateLines(JsonTemplate)
  {
    WorkoutTemplateShape();
    BreakfastLunchTemplateShape();
    DinnerSnacksTemplateShape();
    TipsTemplateShape();
    AllTemplateLinesAppend(WorkoutTemplate, BreakfastLunchTemplate);
    AllTemplateLinesAppend(WorkoutTemplate + BreakfastLunchTemplate, DinnerSnacksTemplate);
    AllTemplateLinesAppend(WorkoutTemplate + BreakfastLunchTemplate + DinnerSnacksTemplate, TipsTemplate);
  }

  /** What the lemmas below need of a prompt line at index `k`. */
  predicate LineShape(l: string, k: nat) {
    && '\n' !in l
    && (k == MedicalLine ==> l == [] || l[0] == 'M')
    && (k == StressLine ==> l == [] || l[0] == 'S')
    && (k != MedicalLine && k != StressLine ==> l == [] || (l[0] != 'M' && l[0] != 'S'))
  }

  /** A labelled line whose label starts with neither 'M' nor 'S'. */
  lemma PlainLine(tag: string, v: string, k: nat)
    requires '\n' !in tag && '\n' !in v && |tag| > 0 && tag[0] != 'M' && tag[0] != 'S'
    requires k != MedicalLine && k != StressLine
    ensures LineShape(tag + v, k)
  {
    assert (tag + v)[0] == tag[0];
  }

  lemma LabelsSingleLine(d: UserDetails)
    ensures '\n' !in GenderLabel(d.gender) && '\n' !in GoalLabel(d.fitnessGoal)
    ensures '\n' !in LevelLabel(d.fitnessLevel) && '\n' !in LocationLabel(d.workoutLocation)
    ensures '\n' !in DietLabel(d.dietaryPreference)
  {
  }

  lemma FieldLinesShape(d: UserDetails, show: JsNum -> string, k: nat)
    requires SingleLineFields(d, show) && k < 9
    ensures LineShape(FieldLines(d, show)[k], k + 3)
  {
    var ls := FieldLines(d, show);
    LabelsSingleLine(d);
    if k == 0 {
      PlainLine("Name: ", d.name, k + 3);
    } else if k == 1 {
      PlainLine("Age: ", show(d.age), k + 3);
    } else if k == 2 {
      PlainLine("Gender: ", GenderLabel(d.gender), k + 3);
    } else if k == 3 {
      assert ls[k] == "Height: " + (show(d.height) + " cm");
      PlainLine("Height: ", show(d.height) + " cm", k + 3);
    } else if k == 4 {
      assert ls[k] == "Weight: " + (show(d.weight) + " kg");
      PlainLine("Weight: ", show(d.weight) + " kg", k + 3);
    } else if k == 5 {
      PlainLine("Fitness Goal: ", GoalLabel(d.fitnessGoal), k + 3);
    } else if k == 6 {
      PlainLine("Fitness Level: ", LevelLabel(d.fitnessLevel), k + 3);
    } else if k == 7 {
      PlainLine("Workout Location: ", LocationLabel(d.workoutLocation), k + 3);
    } else {
      PlainLine("Dietary Preference: ", DietLabel(d.dietaryPreference), k + 3);
    }
  }

  lemma OptionalLinesShape(d: UserDetails, k: nat)
    requires k < 2 && (k == 0 ==> SingleLineHistory(d))
    ensures LineShape(OptionalLines(d)[k], k + 12)
  {
  }

  lemma IntroStartSingleLine()
    ensures '\n' !in "You are an expert AI fitness coach. "
  {
  }

  lemma IntroMiddleSingleLine()
    ensures '\n' !in "Generate a comprehensive, personalized "
  {
  }

  lemma IntroEndSingleLine()
    ensures '\n' !in "fitness plan based on the following " && '\n' !in "user details:"
  {
  }

  lemma IntroShape()
    ensures LineShape(Intro, 1)
  {
    IntroStartSingleLine();
    IntroMiddleSingleLine();
    IntroEndSingleLine();
  }

  lemma FormatRequestShape()
    ensures LineShape(FormatRequest, 15)
  {
    assert '\n' !in "Please provide a detailed response ";
    assert '\n' !in "in the following JSON format:";
  }

  lemma HeadLineShape(d: UserDetails, show: JsNum -> string, k: nat)
    requires SingleLineFields(d, show) && k < 16 && (k == MedicalLine ==> SingleLineHistory(d))
    ensures LineShape(PromptHead(d, show)[k], k)
  {
    var h := PromptHead(d, show);
    if 3 <= k < 12 {
      FieldLinesShape(d, show, k - 3);
      assert h[k] == FieldLines(d, show)[k - 3];
    } else if 12 <= k < 14 {
      OptionalLinesShape(d, k - 12);
      assert h[k] == OptionalLines(d)[k - 12];
    } else if k == 1 {
      IntroShape();
      assert h[1] == Intro;
    } else if k == 15 {
      FormatRequestShape();
      assert h[15] == FormatRequest;
    } else {
      assert h[k] == "";
    }
  }

  lemma TailLineShape(d: UserDetails, k: nat)
    requires k < 3
    ensures LineShape(PromptTail(d)[k], 64 + k)
  {
    if k == 1 {
      var closing := ClosingStart + DietLabel(d.dietaryPreference) + ClosingEnd;
      assert PromptTail(d)[1] == closing;
      ClosingStartSingleLine();
      ClosingEndSingleLine();
      LabelsSingleLine(d);
      assert closing[0] == 'G';
    }
  }

  lemma ClosingStartSingleLine()
    ensures '\n' !in "Generate a 7-day workout plan. " && '\n' !in "Make sure the diet aligns with their "
  {
  }

  lemma ClosingEndSingleLine()
    ensures '\n' !in "dietary preference (" && '\n' !in ClosingEnd
  {
  }

  /**
   * Every line of the prompt but the medical one is a single line, and so is
   * that one when the history is; only lines 12 and 13 may start with 'M' or 'S'.
   */
  lemma PromptLineShape(d: UserDetails, show: JsNum -> string, k: nat)
    requires SingleLineFields(d, show) && k < 67 && (k == MedicalLine ==> SingleLineHistory(d))
    ensures LineShape(PromptLines(d, show)[k], k)
  {
    var ls := PromptLines(d, show);
    if k < 16 {
      HeadLineShape(d, show, k);
      assert ls[k] == PromptHead(d, show)[k];
    } else if k < 64 {
      TemplateLinesShape();
      assert ls[k] == JsonTemplate[k - 16];
    } else {
      TailLineShape(d, k - 64);
      assert ls[k] == PromptTail(d)[k - 64];
    }
  }

  /** What the medical-history line of the prompt reads as once split at line feeds. */
  function HistoryLines(d: UserDetails): (ls: seq<string>)
    ensures |ls| >= 1
  {
    Lines(OptionalLines(d)[0])
  }

  /**
   * The prompt, read back line by line: its lines in order, except that the
   * medical-history line spreads over as many lines as the history has.
   */
  lemma PromptReadBack(d: UserDetails, show: JsNum -> string)
    requires SingleLineFields(d, show)
    ensures var P := PromptLines(d, show);
      Lines(BuildPrompt(d, show)) == P[..MedicalLine] + HistoryLines(d) + P[MedicalLine + 1..]
    ensures SingleLineHistory(d) ==> Lines(BuildPrompt(d, show)) == PromptLines(d, show)
  {
    var P := PromptLines(d, show);
    PromptPlainAround(d, show);
    SplitAt(P, MedicalLine);
    LinesOfJoinAround(P[..MedicalLine], P[MedicalLine], P[MedicalLine + 1..]);
    assert P[MedicalLine] == OptionalLines(d)[0];
    if SingleLineHistory(d) {
      PromptLineShape(d, show, MedicalLine);
      LinesOfLine(P[MedicalLine]);
    }
  }

  /** All prompt lines before and after the medical-history line are plain lines. */
  lemma PromptPlainAround(d: UserDetails, show: JsNum -> string)
    requires SingleLineFields(d, show)
    ensures var P := PromptLines(d, show);
      SingleLines(P[..MedicalLine]) && SingleLines(P[MedicalLine + 1..])
  {
    var P := PromptLines(d, show);
    forall k | 0 <= k < MedicalLine ensures '\n' !in P[..MedicalLine][k] {
      PromptLineShape(d, show, k);
    }
    forall j | MedicalLine < j < |P| ensures '\n' !in P[j] {
      PromptLineShape(d, show, j);
    }
  }

  /** Where each part of the read-back prompt lies. */
  lemma ReadBackParts(d: UserDetails, show: JsNum -> string)
    requires SingleLineFields(d, show)
    ensures var ls, P, m := Lines(BuildPrompt(d, show)), PromptLines(d, show), |HistoryLines(d)|;
      && |ls| == 66 + m
      && ls[..MedicalLine] == P[..MedicalLine]
      && ls[MedicalLine..MedicalLine + m] == HistoryLines(d)
      && ls[MedicalLine + m..] == P[MedicalLine + 1..]
  {
    PromptReadBack(d, show);
  }

  /**
   * Read back line by line, the prompt holds the nine required fields on
   * their labelled lines in a fixed order, and the dietary preference a
   * second time in the closing instruction, second to last.
   */
  lemma PromptFieldLines(d: UserDetails, show: JsNum -> string)
    requires SingleLineFields(d, show)
    ensures var ls := Lines(BuildPrompt(d, show));
      && |ls| >= 67
      && ls[3..12] == [
        "Name: " + d.name,
        "Age: " + show(d.age),
        "Gender: " + GenderLabel(d.gender),
        "Height: " + show(d.height) + " cm",
        "Weight: " + show(d.weight) + " kg",
        "Fitness Goal: " + GoalLabel(d.fitnessGoal),
        "Fitness Level: " + LevelLabel(d.fitnessLevel),
        "Workout Location: " + LocationLabel(d.workoutLocation),
        "Dietary Preference: " + DietLabel(d.dietaryPreference)]
      && ls[|ls| - 2] == ClosingStart + DietLabel(d.dietaryPreference) + ClosingEnd
  {
    ReadBackParts(d, show);
    PromptFieldsAt(d, show);
    var ls, P, m := Lines(BuildPrompt(d, show)), PromptLines(d, show), |HistoryLines(d)|;
    assert ls[3..12] == ls[..MedicalLine][3..12] == P[..MedicalLine][3..12];
    assert ls[|ls| - 2] == ls[MedicalLine + m..][52] == P[65];
  }

  /** Where the fields and the closing instruction lie among the prompt's lines. */
  lemma PromptFieldsAt(d: UserDetails, show: JsNum -> string)
    ensures var P := PromptLines(d, show);
      P[..MedicalLine][3..12] == FieldLines(d, show) && P[65] == ClosingStart + DietLabel(d.dietaryPreference) + ClosingEnd
  {
    var P := PromptLines(d, show);
    assert P[..MedicalLine][3..12] == PromptHead(d, show)[3..12];
    assert P[65] == PromptTail(d)[1];
  }

  /**
   * The prompt has a line starting "Medical History: " exactly when a
   * non-empty medical history was given. That line is the history's first
   * line behind the label, and the history's further lines follow it; with no
   * history, line 12 is left empty.
   */
  lemma MedicalLineIff(d: UserDetails, show: JsNum -> string)
    requires SingleLineFields(d, show)
    ensures var ls := Lines(BuildPrompt(d, show));
      && |ls| >= 67
      && ((exists k :: 0 <= k < |ls| && MedicalLabel <= ls[k]) <==> OptTruthy(d.medicalHistory))
      && (OptTruthy(d.medicalHistory) ==>
            var h := Lines(d.medicalHistory.value);
            && |ls| == 66 + |h|
            && ls[MedicalLine] == MedicalLabel + h[0]
            && ls[MedicalLine + 1..MedicalLine + |h|] == h[1..])
      && (!OptTruthy(d.medicalHistory) ==> |ls| == 67 && ls[MedicalLine] == "")
  {
    ReadBackParts(d, show);
    var ls, P := Lines(BuildPrompt(d, show)), PromptLines(d, show);
    if OptTruthy(d.medicalHistory) {
      var h := Lines(d.medicalHistory.value);
      assert OptionalLines(d)[0] == MedicalLabel + d.medicalHistory.value;
      LinesPrefix(MedicalLabel, d.medicalHistory.value);
      assert ls[MedicalLine] == HistoryLines(d)[0];
      assert ls[MedicalLine + 1..MedicalLine + |h|] == HistoryLines(d)[1..];
      assert MedicalLabel <= ls[MedicalLine];
    } else {
      PromptReadBack(d, show);
      assert ls[MedicalLine] == PromptHead(d, show)[MedicalLine];
      forall k | 0 <= k < |ls| ensures !(MedicalLabel <= ls[k]) {
        PromptLineShape(d, show, k);
      }
    }
  }

  /**
   * The stress-level line, just after the medical history's lines, reads
   * "Stress Level: " and the level when one is given and is empty otherwise.
   * When the history is one line, no other line starts with "Stress Level: ".
   */
  lemma StressLineIff(d: UserDetails, show: JsNum -> string)
    requires SingleLineFields(d, show)
    ensures var ls, m := Lines(BuildPrompt(d, show)), |HistoryLines(d)|;
      && |ls| == 66 + m
      && (d.stressLevel.Some? ==> ls[MedicalLine + m] == StressLabelPrefix + StressLabel(d.stressLevel.value))
      && (d.stressLevel.None? ==> ls[MedicalLine + m] == "")
      && (SingleLineHistory(d) ==>
            ((exists k :: 0 <= k < |ls| && StressLabelPrefix <= ls[k]) <==> d.stressLevel.Some?))
  {
    ReadBackParts(d, show);
    var ls, P, m := Lines(BuildPrompt(d, show)), PromptLines(d, show), |HistoryLines(d)|;
    assert ls[MedicalLine + m] == ls[MedicalLine + m..][0] == P[StressLine];
    assert P[StressLine] == PromptHead(d, show)[StressLine];
    if d.stressLevel.Some? {
      assert StressLabelPrefix <= ls[MedicalLine + m];
    } else if SingleLineHistory(d) {
      PromptReadBack(d, show);
      forall k | 0 <= k < |ls| ensures !(StressLabelPrefix <= ls[k]) {
        PromptLineShape(d, show, k);
      }
    }
  }

  /** A two-line medical history reads back as its labelled first line and its bare second line. */
  lemma TwoLineHistory(d: UserDetails, a: string, b: string)
    requires d.medicalHistory == Some(a + "\n" + b) && '\n' !in a && '\n' !in b
    ensures HistoryLines(d) == [MedicalLabel + a, b]
  {
    var h := a + "\n" + b;
    assert OptTruthy(d.medicalHistory);
    assert OptionalLines(d)[0] == MedicalLabel + h;
    LinesAppend(a, b);
    LinesOfLine(a);
    LinesOfLine(b);
    LinesPrefix(MedicalLabel, h);
  }

  /**
   * A two-line medical history puts its second line, unlabelled, on a prompt
   * line of its own just before the stress-level line.
   */
  lemma SecondHistoryLine(d: UserDetails, show: JsNum -> string, a: string, b: string)
    requires SingleLineFields(d, show)
    requires d.medicalHistory == Some(a + "\n" + b) && '\n' !in a && '\n' !in b
    ensures var ls := Lines(BuildPrompt(d, show));
      |ls| == 68 && ls[MedicalLine] == MedicalLabel + a && ls[MedicalLine + 1] == b
  {
    ReadBackParts(d, show);
    TwoLineHistory(d, a, b);
    var ls := Lines(BuildPrompt(d, show));
    assert ls[MedicalLine..MedicalLine + 2] == [MedicalLabel + a, b];
    assert ls[MedicalLine] == ls[MedicalLine..MedicalLine + 2][0];
    assert ls[MedicalLine + 1] == ls[MedicalLine..MedicalLine + 2][1];
  }

  /**
   * A medical history whose second line is "Stress Level: " and a level reads
   * back as a stress-level line although no stress level was given (the real
   * stress line, just after it, is empty): the prompt's labelled lines are not
   * protected from the text-area input. "x\nStress Level: high" is one such history.
   */
  lemma StressLineForged(d: UserDetails, show: JsNum -> string, a: string, level: string)
    requires SingleLineFields(d, show) && '\n' !in a && '\n' !in level
    requires d.medicalHistory == Some(a + "\n" + (StressLabelPrefix + level)) && d.stressLevel.None?
    ensures var ls := Lines(BuildPrompt(d, show));
      && |ls| == 68
      && ls[MedicalLine + 1] == StressLabelPrefix + level
      && StressLabelPrefix <= ls[MedicalLine + 1]
      && ls[MedicalLine + 2] == ""
  {
    assert '\n' !in StressLabelPrefix + level;
    SecondHistoryLine(d, show, a, StressLabelPrefix + level);
    TwoLineHistory(d, a, StressLabelPrefix + level);
    StressLineIff(d, show);
  }

  /** The prompt's lines from the format request to the closing instruction, for any user. */
  lemma PromptMiddle(d: UserDetails, show: JsNum -> string)
    ensures PromptLines(d, show)[14..65] == ["", FormatRequest] + JsonTemplate + [""]
    ensures PromptLines(d, show)[16..64] == JsonTemplate
  {
    var P := PromptLines(d, show);
    assert P[14..16] == PromptHead(d, show)[14..] == ["", FormatRequest];
    assert P[16..64] == JsonTemplate;
    assert P[64..65] == PromptTail(d)[..1] == [""];
    assert P[14..65] == P[14..16] + P[16..64] + P[64..65];
  }

  /** Slicing a run that equals another run's tail, counted from its end. */
  lemma TailSlice<T>(ls: seq<T>, t: seq<T>, i: nat, a: nat, b: nat)
    requires i <= |ls| && ls[i..] == t && a <= b <= |t|
    ensures ls[|ls| - |t| + a..|ls| - |t| + b] == t[a..b]
  {
    assert |ls| - |t| == i;
    SliceOfSlice(ls, i, a, b);
  }

  /** A slice of a suffix is a slice of the whole. */
  lemma SliceOfSlice<T>(s: seq<T>, i: nat, a: nat, b: nat)
    requires a <= b && i + b <= |s|
    ensures s[i..][a..b] == s[i + a..i + b]
  {
  }

  /** The read-back prompt ends with the format request, the JSON example and the closing lines. */
  lemma ReadBackMiddle(d: UserDetails, show: JsNum -> string)
    requires SingleLineFields(d, show)
    ensures var ls := Lines(BuildPrompt(d, show));
      && |ls| >= 67
      && ls[|ls| - 53..|ls| - 2] == ["", FormatRequest] + JsonTemplate + [""]
      && ls[|ls| - 51..|ls| - 3] == JsonTemplate
  {
    ReadBackParts(d, show);
    PromptMiddle(d, show);
    var ls, P, m := Lines(BuildPrompt(d, show)), PromptLines(d, show), |HistoryLines(d)|;
    var t := P[MedicalLine + 1..];
    TailSlice(ls, t, MedicalLine + m, 1, 52);
    SliceOfSlice(P, MedicalLine + 1, 1, 52);
    TailSlice(ls, t, MedicalLine + m, 3, 51);
    SliceOfSlice(P, MedicalLine + 1, 3, 51);
  }

  /**
   * The format request and the embedded JSON example, which close the
   * read-back prompt but for its last two lines, are the same lines for every user.
   */
  lemma TemplateIndependentOfUser(d1: UserDetails, show1: JsNum -> string, d2: UserDetails, show2: JsNum -> string)
    requires SingleLineFields(d1, show1) && SingleLineFields(d2, show2)
    ensures var ls1, ls2 := Lines(BuildPrompt(d1, show1)), Lines(BuildPrompt(d2, show2));
      && |ls1| >= 67 && |ls2| >= 67
      && ls1[|ls1| - 53..|ls1| - 2] == ls2[|ls2| - 53..|ls2| - 2]
      && ls1[|ls1| - 51..|ls1| - 3] == JsonTemplate
  {
    ReadBackMiddle(d1, show1);
    ReadBackMiddle(d2, show2);
  }

  // ---------------------------------------------------------------------
  // generateFitnessPlan
  // ---------------------------------------------------------------------

  /** Why a plan generation failed: the model call threw, or `JSON.parse` threw. */
  datatype GenError = ModelCallFailed | MalformedReply

  /** `JSON.parse(jsonText.trim())` on the selected payload of a reply. */
  function ParseReply<J>(reply: string, parse: string -> Option<J>): (r: Result<J, GenError>)
    ensures r.Ok? <==> parse(PayloadText(reply)).Some?
    ensures r.Ok? ==> r.value == parse(PayloadText(reply)).value
    ensures r.Err? ==> r.error == MalformedReply
  {
    match parse(PayloadText(reply))
    case None => Err(MalformedReply)
    case Some(v) => Ok(v)
  }

  /**
   * `generateFitnessPlan`: send the prompt to `model` and parse its reply.
   * The parsed value is not checked against the plan's shape.
   */
  function GenerateFitnessPlan<J>(d: UserDetails, show: JsNum -> string,
                                  model: string -> Result<string, GenError>,
                                  parse: string -> Option<J>): (r: Result<J, GenError>)
    ensures model(BuildPrompt(d, show)).Err? ==> r == Err(ModelCallFailed)
    ensures model(BuildPrompt(d, show)).Ok? ==> r == ParseReply(model(BuildPrompt(d, show)).value, parse)
  {
    match model(BuildPrompt(d, show))
    case Err(_) => Err(ModelCallFailed)
    case Ok(reply) => ParseReply(reply, parse)
  }

  /**
   * A reply that wraps the payload in a `json` fence yields exactly the parse
   * of the trimmed payload.
   */
  lemma ParseFencedReply<J>(before: string, payload: string, after: string, parse: string -> Option<J>)
    requires '`' !in before
    requires forall k: nat :: k < |payload| ==> !OccursAt(payload + Close, Close, k)
    ensures ParseReply(before + JsonOpen + payload + Close + after, parse)
      == if parse(Trim(payload)).Some? then Ok(parse(Trim(payload)).value) else Err(MalformedReply)
  {
    WrappedPayloadExtracted(before, payload, after);
  }

  // ---------------------------------------------------------------------
  // generateMotivationQuote: reply.trim().replace(/['"]/g, '')
  // ---------------------------------------------------------------------

  predicate IsQuote(c: char) {
    c == '\'' || c == '"'
  }

  /** Every `'` and `"` removed, all other characters kept in order. */
  function RemoveQuotes(s: string): (r: string)
    ensures forall k :: 0 <= k < |r| ==> !IsQuote(r[k])
    ensures |r| <= |s|
  {
    if s == [] then []
    else if IsQuote(s[0]) then RemoveQuotes(s[1..])
    else [s[0]] + RemoveQuotes(s[1..])
  }

  /** The quote shown to the user: the trimmed reply without quotation marks. */
  function SanitizeQuote(reply: string): (r: string)
    ensures forall k :: 0 <= k < |r| ==> r[k] != '\'' && r[k] != '"'
  {
    RemoveQuotes(Trim(reply))
  }

  /** Removing quotes works piecewise, so the kept characters stay in their order. */
  lemma {:induction false} RemoveQuotesAppend(a: string, b: string)
    ensures RemoveQuotes(a + b) == RemoveQuotes(a) + RemoveQuotes(b)
  {
    if a == [] {
      assert a + b == b;
    } else {
      assert (a + b)[0] == a[0];
      assert (a + b)[1..] == a[1..] + b;
      RemoveQuotesAppend(a[1..], b);
      if !IsQuote(a[0]) {
        assert [a[0]] + (RemoveQuotes(a[1..]) + RemoveQuotes(b)) == ([a[0]] + RemoveQuotes(a[1..])) + RemoveQuotes(b);
      }
    }
  }

  /** Every character other than a quotation mark keeps its number of occurrences. */
  lemma {:induction false} RemoveQuotesKeepsOthers(s: string, c: char)
    requires !IsQuote(c)
    ensures multiset(RemoveQuotes(s))[c] == multiset(s)[c]
  {
    if s != [] {
      RemoveQuotesKeepsOthers(s[1..], c);
      assert s == [s[0]] + s[1..];
    }
  }

  /** Text without quotation marks is left alone, and only such text is. */
  lemma {:induction false} RemoveQuotesIdentity(s: string)
    ensures RemoveQuotes(s) == s <==> forall k :: 0 <= k < |s| ==> !IsQuote(s[k])
  {
    if s != [] {
      RemoveQuotesIdentity(s[1..]);
      if IsQuote(s[0]) {
        assert |RemoveQuotes(s)| < |s| by { assert |RemoveQuotes(s[1..])| <= |s[1..]|; }
      }
      if !IsQuote(s[0]) && forall k :: 0 <= k < |s| ==> !IsQuote(s[k]) {
        assert forall k :: 0 <= k < |s[1..]| ==> !IsQuote(s[1..][k]) by {
          forall k | 0 <= k < |s[1..]| ensures !IsQuote(s[1..][k]) { assert s[1..][k] == s[k + 1]; }
        }
      }
      if RemoveQuotes(s) == s {
        assert !IsQuote(s[0]);
        assert RemoveQuotes(s[1..]) == s[1..];
      }
    }
  }
}
