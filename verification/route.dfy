/**
 * The `POST /api/generate-plan` handler (src/app/api/generate-plan/route.ts):
 * a check of four required fields, then one call of the plan generator,
 * whose failures all become one generic 500 response.
 */
module GeneratePlanRoute {
  import opened Wrappers
  import opened JsText
  import opened Types
  import Gemini

  /** The JSON body of a response: the plan as generated, or `{error: ...}`. */
  datatype ResponseBody<J> = PlanBody(plan: J) | ErrorBody(error: string)

  datatype Response<J> = Response(status: nat, body: ResponseBody<J>)

  const MissingFields := "Missing required fields"
  const GenerationFailed := "Failed to generate fitness plan"

  /**
   * `!name || !age || !height || !weight` is false. A field absent from the
   * request body is represented by its falsy value ("" or 0).
   */
  predicate HasRequiredFields(d: UserDetails) {
    d.name != "" && NumTruthy(d.age) && NumTruthy(d.height) && NumTruthy(d.weight)
  }

  /**
   * `POST`: `body` is `None` when `request.json()` throws; `generate` stands
   * for `generateFitnessPlan`, an error result for anything it throws.
   */
  function Post<J, E>(body: Option<UserDetails>, generate: UserDetails -> Result<J, E>): (r: Response<J>)
    ensures r.status == 400 <==> body.Some? && !HasRequiredFields(body.value)
    ensures r.status == 200 <==> body.Some? && HasRequiredFields(body.value) && generate(body.value).Ok?
    ensures r.status == 200 || r.status == 400 || r.status == 500
    ensures r.status == 400 ==> r.body == ErrorBody(MissingFields)
    ensures r.status == 500 ==> r.body == ErrorBody(GenerationFailed)
    ensures r.status == 200 ==> r.body == PlanBody(generate(body.value).value)
  {
    match body
    case None => Response(500, ErrorBody(GenerationFailed))
    case Some(d) =>
      if !HasRequiredFields(d) then Response(400, ErrorBody(MissingFields))
      else
        match generate(d)
        case Err(_) => Response(500, ErrorBody(GenerationFailed))
        case Ok(plan) => Response(200, PlanBody(plan))
  }

  /** When validation fails the generator is never consulted: any two generators give the same response. */
  lemma RejectedBodyIgnoresGenerator<J, E>(d: UserDetails, g1: UserDetails -> Result<J, E>, g2: UserDetails -> Result<J, E>)
    requires !HasRequiredFields(d)
    ensures Post(Some(d), g1) == Post(Some(d), g2) == Response(400, ErrorBody(MissingFields))
  {
  }

  /**
   * Only name, age, height and weight are checked: two bodies that agree on
   * them are both rejected or both passed to the generator.
   */
  lemma OnlyFourFieldsChecked<J, E>(d1: UserDetails, d2: UserDetails, g: UserDetails -> Result<J, E>)
    requires d1.name == d2.name && d1.age == d2.age && d1.height == d2.height && d1.weight == d2.weight
    ensures (Post(Some(d1), g).status == 400) == (Post(Some(d2), g).status == 400)
  {
  }

  /**
   * Wired to the real generator, a 200 response carries exactly what
   * `JSON.parse` made of the trimmed payload of the model's reply to the
   * user's prompt; a reply whose payload does not parse gives 500.
   */
  lemma PostWithGemini<J>(d: UserDetails, show: JsNum -> string,
                          model: string -> Result<string, Gemini.GenError>,
                          parse: string -> Option<J>)
    requires HasRequiredFields(d)
    requires model(Gemini.BuildPrompt(d, show)).Ok?
    ensures var reply := model(Gemini.BuildPrompt(d, show)).value;
      var r := Post(Some(d), (u: UserDetails) => Gemini.GenerateFitnessPlan(u, show, model, parse));
      && (r.status == 200 <==> parse(Gemini.PayloadText(reply)).Some?)
      && (r.status == 200 ==> r.body == PlanBody(parse(Gemini.PayloadText(reply)).value))
      && (r.status != 200 ==> r == Response(500, ErrorBody(GenerationFailed)))
  {
  }
}
