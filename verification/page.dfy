/**
 * The `Home` page (src/app/page.tsx): four React state cells driven by the
 * mount effect and three handlers, with the store as the only other state.
 * `handleGeneratePlan` is split at its `await` into `BeginGenerate` (the
 * spinner goes on) and `FinishGenerate` (the outcome of the request arrives).
 */
module Home {
  import opened Wrappers
  import opened Types
  import opened Storage
  import opened GeneratePlanRoute

  /** What the main area shows. */
  datatype Screen =
    | Spinner
    | FormScreen(initialData: Option<UserDetails>)
    | PlanScreen(plan: FitnessPlan, details: Option<UserDetails>)
    | Blank

  /** `response.ok`: a status in the range 200-299. */
  predicate IsOk(status: nat) {
    200 <= status <= 299
  }

  /**
   * The plan a finished request yields, or `None` when the code throws
   * (the fetch failed, `response.ok` was false, or the body was not a plan).
   */
  function FetchedPlan(response: Option<Response<FitnessPlan>>): (r: Option<FitnessPlan>)
    ensures r.Some? ==> response.Some? && IsOk(response.value.status)
    ensures response.Some? && IsOk(response.value.status) && response.value.body.PlanBody? ==>
              r == Some(response.value.body.plan)
  {
    match response
    case None => None
    case Some(resp) =>
      if IsOk(resp.status) && resp.body.PlanBody? then Some(resp.body.plan) else None
  }

  /**
   * Against the route, the page receives a plan exactly when the body passed
   * validation and the generator succeeded, and then it is the generator's plan.
   */
  lemma FetchedFromRoute<E>(d: UserDetails, generate: UserDetails -> Result<FitnessPlan, E>)
    ensures FetchedPlan(Some(Post(Some(d), generate))).Some? <==>
              HasRequiredFields(d) && generate(d).Ok?
    ensures FetchedPlan(Some(Post(Some(d), generate))).Some? ==>
              FetchedPlan(Some(Post(Some(d), generate))).value == generate(d).value
  {
    var r := Post(Some(d), generate);
    assert IsOk(r.status) <==> r.status == 200;
  }

  class Home {
    var plan: Option<FitnessPlan>
    var userDetails: Option<UserDetails>
    var loading: bool
    var showForm: bool
    const store: Store

    /** A shown plan always has the details it was generated for (the `userDetails!` of line 104). */
    predicate Valid()
      reads this
    {
      plan.Some? ==> userDetails.Some?
    }

    /** The initial `useState` values. */
    constructor (store: Store)
      ensures plan == None && userDetails == None && !loading && showForm
      ensures this.store == store
      ensures Valid()
    {
      plan := None;
      userDetails := None;
      loading := false;
      showForm := true;
      this.store := store;
    }

    /** The view chosen by the nested conditional: spinner, then form, then plan, then nothing. */
    function View(): (s: Screen)
      reads this
      ensures s.Spinner? <==> loading
      ensures s.FormScreen? <==> !loading && showForm
      ensures s.FormScreen? ==> s.initialData == userDetails
      ensures s.PlanScreen? <==> !loading && !showForm && plan.Some?
      ensures s.PlanScreen? ==> s.plan == plan.value && s.details == userDetails
      ensures s.Blank? <==> !loading && !showForm && plan.None?
      ensures Valid() && s.PlanScreen? ==> s.details.Some?
    {
      if loading then Spinner
      else if showForm then FormScreen(userDetails)
      else if plan.Some? then PlanScreen(plan.value, userDetails)
      else Blank
    }

    /** The mount effect: restore both entries, but only when both are stored. */
    method Mount()
      requires Valid()
      modifies this
      ensures var p, u := old(store.StoredPlan()), old(store.StoredDetails());
        if p.Some? && u.Some? then plan == p && userDetails == u && !showForm
        else plan == old(plan) && userDetails == old(userDetails) && showForm == old(showForm)
      ensures loading == old(loading)
      ensures Valid()
    {
      var savedPlan := store.LoadPlan();
      var savedUser := store.LoadUserDetails();
      if savedPlan.Some? && savedUser.Some? {
        plan := savedPlan;
        userDetails := savedUser;
        showForm := false;
      }
    }

    /** `setLoading(true)` before the request is sent. */
    method BeginGenerate()
      modifies this
      ensures loading
      ensures plan == old(plan) && userDetails == old(userDetails) && showForm == old(showForm)
      ensures View() == Spinner
    {
      loading := true;
    }

    /**
     * The request has finished with `outcome` (see `FetchedPlan`). On success
     * the plan and the submitted details are shown and saved; on failure
     * nothing but `loading` changes. Either way the spinner goes off.
     */
    method FinishGenerate(details: UserDetails, outcome: Option<FitnessPlan>)
      requires Valid()
      modifies this, store
      ensures !loading
      ensures outcome.Some? ==> plan == outcome && userDetails == Some(details) && !showForm
      ensures outcome.Some? ==> store.StoredPlan() == (if store.hasWindow then outcome else None)
      ensures outcome.Some? ==> store.StoredDetails() == (if store.hasWindow then Some(details) else None)
      ensures outcome.None? ==>
        plan == old(plan) && userDetails == old(userDetails) && showForm == old(showForm)
        && store.items == old(store.items)
      ensures Valid()
    {
      if outcome.Some? {
        plan := outcome;
        userDetails := Some(details);
        store.SavePlan(outcome.value);
        store.SaveUserDetails(details);
        showForm := false;
      }
      loading := false;
    }

    /** Back to the form, prefilled with the details; storage is untouched. */
    method HandleRegenerate()
      requires Valid()
      modifies this
      ensures showForm && plan == None
      ensures userDetails == old(userDetails) && loading == old(loading)
      ensures !loading ==> View() == FormScreen(userDetails)
      ensures Valid()
    {
      showForm := true;
      plan := None;
    }

    /** Forget everything: storage, plan and details, and show an empty form. */
    method HandleReset()
      modifies this, store
      ensures plan == None && userDetails == None && showForm
      ensures loading == old(loading)
      ensures store.StoredPlan() == None && store.StoredDetails() == None
      ensures !loading ==> View() == FormScreen(None)
      ensures Valid()
    {
      store.ClearAll();
      plan := None;
      userDetails := None;
      showForm := true;
    }
  }
}
