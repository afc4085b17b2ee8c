# AI Fitness Coach — a Dafny model

AI Fitness Coach is a Next.js web application. A user fills in a form with personal details.
The server sends those details to a hosted language model in a prompt and parses the JSON plan it
returns. The browser then shows the plan, keeps it in `localStorage`, reads it aloud and exports it
as a PDF. This project models the logic of that flow and proves properties of it:

- **Types** (`types.dfy`): the records `UserDetails`, `Exercise`, `WorkoutDay`, `Meal` and
  `FitnessPlan`, and the string labels of the enumerations together with their inverses.
- **JsText** (`js_text.dfy`): the JavaScript behaviour the code relies on. This covers numbers with
  their truthiness (`NaN` and `0` are falsy), `||` on optional strings, `String.prototype.trim`,
  `Array.prototype.join` and `toUpperCase`.
- **Gemini** (`gemini.dfy`, `src/lib/gemini.ts`):
  - the plan prompt, as its 67 lines, with proofs of what a line-by-line read-back of it finds,
    including when the multi-line medical history brings line feeds of its own;
  - the extraction of the JSON payload from a markdown-fenced reply, modelled as leftmost-match
    search against an independent definition of a fence;
  - `generateFitnessPlan`, with the model call and `JSON.parse` supplied as functions;
  - the quote clean-up of `generateMotivationQuote`.
- **GeneratePlanRoute** (`route.dfy`, `src/app/api/generate-plan/route.ts`): the `POST` handler,
  with its 400, 500 and 200 outcomes.
- **Storage** (`storage.dfy`, `src/lib/storage.ts`): a `Store` class over the two
  `localStorage` keys.
- **Home** (`page.dfy`, `src/app/page.tsx`): the page's four state variables as a class. It covers
  the mount-time restore, plan generation, regenerate and reset, and which screen is shown.
- **ExportPdf** (`export_pdf.dfy`, `src/components/ExportPDF.tsx`): `generatePDF`. The output
  document is a sequence of drawing operations, each text placed at a `y` cursor. The model proves
  that every page-break check, cursor step and gap is the one the code performs, and that the
  document's text is exactly the plan's content in order.
- **VoiceReader** (`voice_reader.dfy`, `src/components/VoiceReader.tsx`): the spoken workout and
  diet texts, built by loops and proved equal to recursive definitions, and the reader's state as a
  class.
- **UserForm** (`user_form.dfy`, `src/components/UserForm.tsx`): the form state, its default
  record, the field update of `handleChange` and submission.

Where a library function decides a value, the model takes it as a parameter:
- `show` is JavaScript's number-to-string conversion;
- `toNumber` is `Number(value)`;
- `wrap` is the line count `splitTextToSize` returns;
- `model` is the hosted model's reply to a prompt;
- `parse` is `JSON.parse`.

In the PDF, the cursor stands at 64 when "Workout Plan" is drawn (20 + 15 + 7 + 7 + 15), and the
first day heading comes at 74. The model follows the code's arithmetic.

## Model

| member | source | states |
|---|---|---|
| JsText.OrElseNonEmpty | src/components/ExportPDF.tsx:111-113 | with a non-empty fallback such as "N/A", `a \|\| fallback` on an optional string is never the empty string |
| JsText.TrimStart | src/lib/gemini.ts:91 | the result is a suffix of the input that does not start with white space, and everything removed is white space |
| JsText.TrimEnd | src/lib/gemini.ts:91 | the result is a prefix of the input that does not end with white space, and everything removed is white space |
| JsText.Trim | src/lib/gemini.ts:91 | `trim()` gives a result no longer than its input, with white space at neither end |
| JsText.TrimIsSlice | src/lib/gemini.ts:91 | `trim()` returns a slice `s[a..b]` that neither starts nor ends with white space, and only white space lies outside it |
| JsText.TrimTrimmed | src/lib/gemini.ts:91 | a string without white space at either end is left unchanged by `trim()` |
| JsText.TrimIdempotent | src/lib/gemini.ts:91 | trimming twice gives what trimming once gives |
| JsText.Join | src/components/VoiceReader.tsx:59 | `join` of no parts is the empty string, and of one part is that part |
| JsText.AsciiUpper | src/components/ExportPDF.tsx:97 | `toUpperCase` keeps the length of the text |
| JsText.AsciiUpperNoLower | src/components/ExportPDF.tsx:97 | no lower-case ASCII letter is left after `toUpperCase` |
| JsText.AsciiUpperFixes | src/components/ExportPDF.tsx:97 | a text without lower-case ASCII letters is unchanged by `toUpperCase` |
| JsText.AsciiUpperIdempotent | src/components/ExportPDF.tsx:97 | upper-casing twice gives what upper-casing once gives |
| Types.ParseGender | src/types/index.ts:4 | the parser returns a gender exactly when the string is that gender's label |
| Types.ParseGoal | src/types/index.ts:7 | the parser returns a goal exactly when the string is that goal's label |
| Types.ParseLevel | src/types/index.ts:8 | the parser returns a level exactly when the string is that level's label |
| Types.ParseLocation | src/types/index.ts:9 | the parser returns a location exactly when the string is that location's label |
| Types.ParseDiet | src/types/index.ts:10 | the parser returns a dietary preference exactly when the string is that preference's label |
| Types.ParseStress | src/types/index.ts:12 | the parser returns a stress level exactly when the string is that level's label |
| Gemini.FirstFrom | src/lib/gemini.ts:88 | finds the first occurrence of a marker at or after a position, or proves there is none |
| Gemini.FenceUnique | src/lib/gemini.ts:88 | the lazy `[\s\S]*?` group ends at a unique closer: a fence opening at `i` has a single end |
| Gemini.FindFenceFrom | src/lib/gemini.ts:88 | returns a fence that opens at or after `i`, with no fence opening between `i` and it, or proves there is none |
| Gemini.FindFence | src/lib/gemini.ts:88 | `text.match(re)` returns the leftmost fence with its lazy end, or there is no fence at all |
| Gemini.FenceInteriorHasNoCloser | src/lib/gemini.ts:88 | the captured group never contains the closing marker |
| Gemini.TaggedFenceSelected | src/lib/gemini.ts:88-89 | when a `json`-tagged fence exists, its leftmost interior is the payload, whatever plain fences precede it |
| Gemini.PlainFenceSelected | src/lib/gemini.ts:88-89 | with no tagged fence, the leftmost plain fence's interior is the payload |
| Gemini.SelectPayload | src/lib/gemini.ts:88-89 | the payload is either the whole reply or a fence's interior, which is no longer than the reply and holds no closing marker |
| Gemini.PayloadText | src/lib/gemini.ts:91 | the text handed to `JSON.parse` is no longer than the reply and has white space at neither end |
| Gemini.NoFenceSelectsWhole | src/lib/gemini.ts:89 | with no fence of either kind, the whole reply is the payload |
| Gemini.UnfencedReplyIsTrimmed | src/lib/gemini.ts:88-91 | a reply with no opening marker is parsed as the reply trimmed |
| Gemini.WrappedPayloadExtracted | src/lib/gemini.ts:88-91 | a payload wrapped in one tagged fence after backtick-free text is recovered exactly, trimmed |
| Gemini.PromptLines | src/lib/gemini.ts:15-81 | the prompt has 67 lines |
| Gemini.BuildPrompt | src/lib/gemini.ts:15-81 | the prompt text is its 67 lines joined by line feeds; this is a definition, and what a reader finds in it is stated by the lemmas below |
| Gemini.Lines | src/lib/gemini.ts:15-81 | reading a text as lines (split at line feeds, the reading the proofs about the prompt use; the source itself does not split) gives at least one line |
| Gemini.LinesOfLine | src/lib/gemini.ts:15-81 | reading infrastructure for the proofs: a text without a line feed reads as one line |
| Gemini.LinesAppend | src/lib/gemini.ts:15-81 | reading infrastructure for the proofs: a text split at one line feed reads as the lines before it followed by the lines after it |
| Gemini.LinesPrefix | src/lib/gemini.ts:27 | reading infrastructure for the proofs: a line-feed-free label put in front of a text lands on its first line only |
| Gemini.LinesOfJoin | src/lib/gemini.ts:15-81 | reading infrastructure for the proofs: splitting undoes joining with line feeds when no part contains one |
| Gemini.LinesOfJoinAround | src/lib/gemini.ts:15-81 | reading infrastructure for the proofs: when only one part may contain line feeds, splitting gives back the other parts in place, with that one split where it stood |
| Gemini.WorkoutTemplateShape | src/lib/gemini.ts:31-45 | proof infrastructure: every line of the workout part of the JSON example is a single line starting with a space or a brace |
| Gemini.BreakfastLunchTemplateShape | src/lib/gemini.ts:46-58 | proof infrastructure: every line of the breakfast and lunch part of the JSON example is a single line starting with a space or a brace |
| Gemini.DinnerSnacksTemplateShape | src/lib/gemini.ts:59-71 | proof infrastructure: every line of the dinner and snacks part of the JSON example is a single line starting with a space or a brace |
| Gemini.TipsTemplateShape | src/lib/gemini.ts:72-78 | proof infrastructure: every line of the tips and motivation part of the JSON example is a single line starting with a space or a brace |
| Gemini.TemplateLinesShape | src/lib/gemini.ts:31-78 | proof infrastructure: every line of the whole JSON example is a single line starting with a space or a brace, so none can pass for a medical or stress line |
| Gemini.PlainLine | src/lib/gemini.ts:18-26 | proof infrastructure: a labelled line whose label starts with neither 'M' nor 'S' is a single line that cannot pass for a medical or stress line |
| Gemini.LabelsSingleLine | src/types/index.ts:4-10 | no enumeration label contains a line feed |
| Gemini.FieldLinesShape | src/lib/gemini.ts:18-26 | proof infrastructure: each of the nine field lines is free of line feeds and is not a medical or stress line |
| Gemini.OptionalLinesShape | src/lib/gemini.ts:27-28 | proof infrastructure: the stress line, and the medical line when the history is one line, are single lines; only these two can carry the medical or stress label |
| Gemini.IntroShape | src/lib/gemini.ts:16 | proof infrastructure: the introduction is a single line starting with neither 'M' nor 'S' |
| Gemini.FormatRequestShape | src/lib/gemini.ts:30 | proof infrastructure: the format request is a single line starting with neither 'M' nor 'S' |
| Gemini.HeadLineShape | src/lib/gemini.ts:15-30 | proof infrastructure: every line before the JSON example but the medical one is a single line (that one too when the history is one line), and only lines 12 and 13 may start with 'M' or 'S' |
| Gemini.TailLineShape | src/lib/gemini.ts:79-81 | proof infrastructure: every line after the JSON example is a single line starting with neither 'M' nor 'S' |
| Gemini.PromptLineShape | src/lib/gemini.ts:15-81 | proof infrastructure: each prompt line but the medical one is a single line (that one too when the history is one line), and only lines 12 and 13 may start with 'M' or 'S' |
| Gemini.PromptPlainAround | src/lib/gemini.ts:15-81 | proof infrastructure: every prompt line before and after the medical-history line is free of line feeds |
| Gemini.PromptReadBack | src/lib/gemini.ts:15-81 | when the name contains no line feed (a one-line input) and neither do the printed numbers, splitting the prompt at line feeds gives back its 67 lines, except that the medical-history line spreads over the history's own lines; with a one-line history, exactly the 67 lines |
| Gemini.ReadBackParts | src/lib/gemini.ts:15-81 | the read-back has 66 lines plus the history's line count: the 12 lines before the history, the history's lines, then the 54 lines after it |
| Gemini.PromptFieldsAt | src/lib/gemini.ts:18-80 | proof infrastructure: the nine field lines are lines 3 to 11 of the prompt, and the closing instruction is line 65 |
| Gemini.PromptFieldLines | src/lib/gemini.ts:18-80 | for any medical history, the read-back prompt carries the nine required fields on their labelled lines 3 to 11, in order, and the dietary preference again in the closing instruction, second to last |
| Gemini.MedicalLineIff | src/lib/gemini.ts:27 | for any medical history, the read-back prompt has a line starting "Medical History: " if and only if the history is non-empty; that line carries the history's first line and its further lines follow; with no history, line 12 is blank and there are 67 lines |
| Gemini.StressLineIff | src/lib/gemini.ts:28 | for any medical history, the line right after the history's lines reads "Stress Level: " and the level when one is given, and is blank otherwise; when the medical history is one line, some line starts with "Stress Level: " if and only if a stress level is given |
| Gemini.TwoLineHistory | src/lib/gemini.ts:27 | a two-line history reads back as its first line behind the label and its second line bare |
| Gemini.SecondHistoryLine | src/lib/gemini.ts:27-28 | a two-line history gives a 68-line read-back whose line 13 is the history's second line, unlabelled |
| Gemini.StressLineForged | src/lib/gemini.ts:27-28 | a history whose second line starts "Stress Level: " puts a line with that label in the prompt although no stress level was given, and the real stress line after it is blank |
| Gemini.PromptMiddle | src/lib/gemini.ts:30-79 | the prompt's lines 14 to 64 are a blank line, the format request, the JSON example and a blank line, for every user |
| Gemini.ReadBackMiddle | src/lib/gemini.ts:30-79 | for any medical history, the read-back ends with those lines followed by the closing instruction and a blank line |
| Gemini.TemplateIndependentOfUser | src/lib/gemini.ts:30-79 | for any two users and any medical histories, the format request and the embedded JSON example, counted from the end of the read-back, are the same lines |
| Gemini.ParseReply | src/lib/gemini.ts:87-91 | the reply parses exactly when `JSON.parse` accepts its trimmed payload, with that value; otherwise the error is a malformed reply |
| Gemini.GenerateFitnessPlan | src/lib/gemini.ts:14-92 | a failed model call is a failure; otherwise the result is the parse of the model's reply to this user's prompt |
| Gemini.ParseFencedReply | src/lib/gemini.ts:87-91 | a reply holding one tagged fence parses as its trimmed payload |
| Gemini.RemoveQuotes | src/lib/gemini.ts:99 | no single or double quote survives, and the result is no longer than the input |
| Gemini.SanitizeQuote | src/lib/gemini.ts:99 | the cleaned motivation quote contains no `'` and no `"` |
| Gemini.RemoveQuotesAppend | src/lib/gemini.ts:99 | removing quotes distributes over concatenation |
| Gemini.RemoveQuotesKeepsOthers | src/lib/gemini.ts:99 | every character other than a quote is kept, as many times as it occurs |
| Gemini.RemoveQuotesIdentity | src/lib/gemini.ts:99 | the replacement changes nothing if and only if the text holds no quote |
| GeneratePlanRoute.HasRequiredFields | src/app/api/generate-plan/route.ts:9 | the validation condition: name, age, height and weight are all truthy; a definition used by the contracts of the members below |
| GeneratePlanRoute.Post | src/app/api/generate-plan/route.ts:4-26 | 400 exactly when the body lacks a truthy name, age, height or weight; 200 with the generated plan exactly when those are present and generation succeeds; 500 otherwise, including an unreadable body |
| GeneratePlanRoute.RejectedBodyIgnoresGenerator | src/app/api/generate-plan/route.ts:9-14 | a body that fails validation is answered 400 without consulting the generator |
| GeneratePlanRoute.OnlyFourFieldsChecked | src/app/api/generate-plan/route.ts:9 | validation depends on name, age, height and weight only |
| GeneratePlanRoute.PostWithGemini | src/app/api/generate-plan/route.ts:16-18 | wired to the model, the route answers 200 exactly when the reply's trimmed payload parses, with that value as the body |
| Storage.PlanIn | src/lib/storage.ts:13-19 | a plan is read back exactly when the plan key holds a plan |
| Storage.DetailsIn | src/lib/storage.ts:27-33 | details are read back exactly when the details key holds details |
| Storage.EntriesIndependent | src/lib/storage.ts:3-4 | writing one key reads back the value written and leaves the other entry as it was |
| Storage.Store.StoredPlan | src/lib/storage.ts:13-19 | with no `window`, nothing is stored |
| Storage.Store.StoredDetails | src/lib/storage.ts:27-33 | with no `window`, nothing is stored |
| Storage.Store.SavePlan | src/lib/storage.ts:7-11 | in a browser, the plan key is set and reads back the plan; elsewhere nothing changes; the details are untouched |
| Storage.Store.LoadPlan | src/lib/storage.ts:13-19 | returns the stored plan, and `null` outside a browser |
| Storage.Store.SaveUserDetails | src/lib/storage.ts:21-25 | in a browser, the details key is set and reads back the details; elsewhere nothing changes; the plan is untouched |
| Storage.Store.LoadUserDetails | src/lib/storage.ts:27-33 | returns the stored details, and `null` outside a browser |
| Storage.Store.ClearAll | src/lib/storage.ts:35-40 | removes exactly the two keys, after which neither entry is stored |
| Home.FetchedPlan | src/app/page.tsx:32-40 | a plan is taken only from a response that arrived with an ok status, and that response's plan body is what is taken |
| Home.FetchedFromRoute | src/app/page.tsx:32-40 | a request to the route yields a plan exactly when the details pass validation and generation succeeds, and it is the generated plan |
| Home.Home.constructor | src/app/page.tsx:13-16 | no plan, no details, not loading, form shown |
| Home.Home.View | src/app/page.tsx:88-108 | spinner while loading, else the form pre-filled with the details, else the plan with its details, else nothing; a valid page never shows a plan without details |
| Home.Home.Mount | src/app/page.tsx:18-27 | the saved plan and details are restored, and the form hidden, only when both are stored; otherwise nothing changes |
| Home.Home.BeginGenerate | src/app/page.tsx:30 | the spinner shows while the request runs |
| Home.Home.FinishGenerate | src/app/page.tsx:38-51 | on success, the plan and details are set, saved, and the form hidden; on failure, plan, details, form and storage are unchanged; loading ends either way |
| Home.Home.HandleRegenerate | src/app/page.tsx:54-57 | the plan is dropped and the form shown, pre-filled with the kept details |
| Home.Home.HandleReset | src/app/page.tsx:59-64 | storage is cleared and the page returns to an empty form |
| ExportPdf.ExerciseNotesNotPrinted | src/components/ExportPDF.tsx:70 | an exercise's notes never reach the PDF |
| ExportPdf.ExerciseTexts | src/components/ExportPDF.tsx:65-74 | one line per exercise, in order, each in the "• name: sets sets x reps reps, rest time" format |
| ExportPdf.ExerciseTextsStep | src/components/ExportPDF.tsx:65-74 | one more exercise appends its line |
| ExportPdf.WorkoutTextsStep | src/components/ExportPDF.tsx:54-76 | one more day appends its heading and exercise lines |
| ExportPdf.ItemTexts | src/components/ExportPDF.tsx:101-108 | one bulleted line per meal item, in order |
| ExportPdf.ItemTextsStep | src/components/ExportPDF.tsx:101-108 | one more item appends its line |
| ExportPdf.NutritionText | src/components/ExportPDF.tsx:109-118 | a nutrition line is printed if and only if calories or protein is truthy, with "N/A" for the missing one |
| ExportPdf.DietTextsStep | src/components/ExportPDF.tsx:90-120 | one more meal appends its heading, items and nutrition line |
| ExportPdf.TipTexts | src/components/ExportPDF.tsx:135-143 | one bulleted line per tip, in order |
| ExportPdf.TipTextsStep | src/components/ExportPDF.tsx:135-143 | one more tip appends its line |
| ExportPdf.CursorFloor | src/components/ExportPDF.tsx:17-157 | in a well-formed document every text lies between 20 and its section's bound, and the cursor never falls below 20 |
| ExportPdf.Emit | src/components/ExportPDF.tsx:55-58 | the page check written out before every checked block: such a block starts a new page at 20 exactly when the cursor is past its threshold, otherwise it is placed at the cursor; the document stays well formed and gains exactly that text |
| ExportPdf.EmitKeepsGood | src/components/ExportPDF.tsx:55-58 | appending a block that follows the cursor discipline keeps every break, link, placement and wrap condition |
| ExportPdf.WriteDay | src/components/ExportPDF.tsx:54-76 | a day is its heading then its exercises, each page-checked at 250, advancing 6 then 5 per wrapped line, with 5 more at the end |
| ExportPdf.WriteWorkout | src/components/ExportPDF.tsx:54-76 | the days are written in order and the document gains exactly the workout's lines |
| ExportPdf.WriteItems | src/components/ExportPDF.tsx:101-108 | the items are written in order, each page-checked at 250 and advancing 5 |
| ExportPdf.WriteNutrition | src/components/ExportPDF.tsx:109-118 | the nutrition line is drawn, at the cursor and without a page check, exactly when calories or protein is truthy, and the document gains exactly that text |
| ExportPdf.WriteMeal | src/components/ExportPDF.tsx:90-120 | a meal is its upper-cased heading, items and optional nutrition line, with 5 more at the end |
| ExportPdf.WriteDiet | src/components/ExportPDF.tsx:78-120 | the diet heading is checked at 200, then the meals are written in order |
| ExportPdf.MealCursorBeforeTips | src/components/ExportPDF.tsx:119-126 | after the meals, the tips heading's check sees the same cursor a further meal would |
| ExportPdf.WriteTips | src/components/ExportPDF.tsx:122-143 | the tips heading is checked at 200, then the tips follow, each advancing 5 per wrapped line plus 2 |
| ExportPdf.TextsSnoc | src/components/ExportPDF.tsx:14-157 | appending an operation appends its text, if it has one |
| ExportPdf.HeaderIsGood | src/components/ExportPDF.tsx:17-49 | the title, name, stats, goal and workout heading sit at 20, 35, 42, 49 and 64 on one page, and form a well-formed document with the header's text |
| ExportPdf.WriteHeader | src/components/ExportPDF.tsx:17-49 | the header lines, after which the cursor stands at 74 |
| ExportPdf.DocumentTexts | src/components/ExportPDF.tsx:17-156 | the document's text begins with the header's texts and ends with the quoted motivation |
| ExportPdf.FileName | src/components/ExportPDF.tsx:159 | the saved file's name is the user's name followed by the 17-character suffix `_Fitness_Plan.pdf` |
| ExportPdf.GeneratePdf | src/components/ExportPDF.tsx:14-159 | the whole document follows the cursor and page-break discipline, places every line within its section's bounds, wraps each block as `splitTextToSize` does, carries exactly the plan's content in order, and is saved as "<name>_Fitness_Plan.pdf" |
| VoiceReader.CaloriesSpeech | src/components/VoiceReader.tsx:60 | the calories sentence is spoken if and only if calories are truthy |
| VoiceReader.DaysSpeechAppend | src/components/VoiceReader.tsx:46-51 | the speech of two runs of days is the concatenation of their speeches |
| VoiceReader.ExercisesSpeechIgnoresNotes | src/components/VoiceReader.tsx:48-50 | exercises that differ only in their notes are spoken alike |
| VoiceReader.WorkoutSpeechIgnoresNotes | src/components/VoiceReader.tsx:46-51 | workouts that differ only in exercise notes are spoken alike |
| VoiceReader.DietSpeechIgnoresProtein | src/components/VoiceReader.tsx:57-61 | meals that differ only in protein are spoken alike |
| VoiceReader.WorkoutSpeech | src/components/VoiceReader.tsx:44-53 | the workout text begins with its fixed opening sentence |
| VoiceReader.DietSpeech | src/components/VoiceReader.tsx:55-63 | the diet text begins with its fixed opening sentence |
| VoiceReader.GenerateWorkoutText | src/components/VoiceReader.tsx:44-53 | the loop builds the intro followed by each day's name and its exercises' sentences, in order |
| VoiceReader.GenerateDietText | src/components/VoiceReader.tsx:55-63 | the loop builds the intro followed by each meal's name, items and optional calories, in order |
| VoiceReader.Reader.constructor | src/components/VoiceReader.tsx:13-16 | not reading, no section selected, nothing queued |
| VoiceReader.Reader.SpeakText | src/components/VoiceReader.tsx:18-35 | with speech support the text is queued, replacing any earlier utterance; without it nothing changes |
| VoiceReader.Reader.StopSpeaking | src/components/VoiceReader.tsx:37-42 | with speech support the speech is cancelled and reading stops; without it nothing changes |
| VoiceReader.Reader.SpeechStarted | src/components/VoiceReader.tsx:27 | the queued utterance's start marks the reader as reading |
| VoiceReader.Reader.SpeechEnded | src/components/VoiceReader.tsx:28-29 | the end or an error of the utterance stops reading |
| VoiceReader.Reader.HandleRead | src/components/VoiceReader.tsx:65-75 | while reading, a press only stops the speech; otherwise it selects the section and queues that section's text when speech is supported |
| UserForm.Get | src/components/UserForm.tsx:14-28 | a field of the form data holds a number exactly for age, height and weight, and only the medical history and stress level can be unset |
| UserForm.FieldNameInjective | src/components/UserForm.tsx:40-45 | different controls carry different `name` attributes, so the `[name]` update targets one field |
| UserForm.IsNumericByName | src/components/UserForm.tsx:43-45 | the fields converted with `Number` are exactly those named "age", "height" or "weight" |
| UserForm.UpdateField | src/components/UserForm.tsx:35-47 | the changed field takes the new value, converted with `Number` for age, height and weight, and every other field is unchanged |
| UserForm.FieldsDetermineRecord | src/components/UserForm.tsx:41-46 | two records whose eleven properties agree are the same record |
| UserForm.ChangesCommute | src/components/UserForm.tsx:41-46 | changes to two different fields give the same record in either order |
| UserForm.ChangeIdempotent | src/components/UserForm.tsx:41-46 | repeating a change event changes nothing more |
| UserForm.Form.constructor | src/components/UserForm.tsx:14-28 | the form starts from the given details, or else from the default record |
| UserForm.Form.HandleChange | src/components/UserForm.tsx:35-47 | the form data becomes the updated record |
| UserForm.Form.HandleSubmit | src/components/UserForm.tsx:30-33 | the submitted record is the current form data |

## Left out

- The hosted model calls, the API key check and `generateImage` (src/lib/gemini.ts:4-12, 83-85,
  102-118) are network I/O. The model is a parameter `model: string -> Result<string, GenError>`.
- `generateMotivationQuote`'s model call is left out for the same reason. Only the `trim` and
  quote-stripping of its reply (line 99) are modelled.
- `JSON.parse` and `JSON.stringify` are library code. Parsing is a parameter; serialisation to
  `localStorage` is modelled as storing the value itself.
- Gemini.GenerateFitnessPlan: the parsed value is not checked to have the `FitnessPlan` shape,
  because the code does not check it either.
- Number-to-string conversion and `Number(value)` are library behaviour. They are the parameters
  `show` and `toNumber`.
- Numbers are reals or `NaN`, so JavaScript's infinities and floating-point rounding are not
  modelled.
- `request.json()` failing is represented by an absent body. A body missing a field is represented
  by that field's falsy value, because the records are typed.
- Home.FetchedPlan: an ok response that carries an error object instead of a plan yields no plan,
  whereas the code would store that object as the plan. The route never sends such a response.
- The timing of `fetch` and of React's state updates is not modelled, and no concurrency is
  modelled. `handleGeneratePlan` is split into Home.Home.BeginGenerate (line 30) and
  Home.Home.FinishGenerate (lines 38-51), with the outcome of the request given to the second.
- `console.error` and `alert` have no effect on state, and are left out.
- The drawing itself is left out: jsPDF fonts, font sizes, x positions, alignment and the page
  width. Each text is kept with its kind, its line count and its `y` position.
- `splitTextToSize` is a parameter `wrap` giving the number of lines of a text.
- Speech synthesis is left out apart from which utterance is queued: voice, rate, pitch and volume
  (src/components/VoiceReader.tsx:23-25), and when the engine starts and ends. The `onstart`,
  `onend` and `onerror` callbacks are the methods SpeechStarted and SpeechEnded.
- Gemini.PromptReadBack: this and the read-back lemmas after it require that the name and the
  printed age, height and weight hold no line feed. The name is a one-line text input, and `show`
  stands for JavaScript's number printing, which never emits one. The medical history, a
  multi-line text area, is not restricted.
- JsText.AsciiUpper: maps only ASCII letters, whereas `toUpperCase` maps all of Unicode. Meal keys
  are ASCII.
- Storage: an entry of the wrong kind under a key reads back as `null`. The code would return
  whatever `JSON.parse` makes of it.
- UserForm.Form.HandleChange: accepts only the events the form's controls can raise, where a select
  gives one of its options. The form's browser-side validation (`required`, `min`, `max`) and the
  JSX markup are left out.
- The motivation-quote route and component, `ImageModal`, `PlanDisplay`, `layout.tsx` and
  `utils.ts` are not part of this model. They are presentation code outside the modelled core.
