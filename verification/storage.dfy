/**
 * The browser-side persistence of the last plan and user details
 * (src/lib/storage.ts): two entries of `localStorage`, under two fixed keys.
 * `JSON.stringify` followed by `JSON.parse` is taken to give the value back.
 */
module Storage {
  import opened Wrappers
  import opened Types

  const PlanKey := "fitness_plan"
  const UserKey := "user_details"

  /** A stored value; the text form of `JSON.stringify` is abstracted away. */
  datatype Entry = PlanEntry(plan: FitnessPlan) | DetailsEntry(details: UserDetails)

  /** What `loadPlan` reads from a given `localStorage`. */
  function PlanIn(items: map<string, Entry>): (r: Option<FitnessPlan>)
    ensures r.Some? <==> PlanKey in items && items[PlanKey].PlanEntry?
  {
    if PlanKey in items && items[PlanKey].PlanEntry? then Some(items[PlanKey].plan) else None
  }

  /** What `loadUserDetails` reads from a given `localStorage`. */
  function DetailsIn(items: map<string, Entry>): (r: Option<UserDetails>)
    ensures r.Some? <==> UserKey in items && items[UserKey].DetailsEntry?
  {
    if UserKey in items && items[UserKey].DetailsEntry? then Some(items[UserKey].details) else None
  }

  /** The two keys differ, so the two entries never overwrite each other. */
  lemma EntriesIndependent(items: map<string, Entry>, p: FitnessPlan, d: UserDetails)
    ensures PlanIn(items[PlanKey := PlanEntry(p)]) == Some(p)
    ensures DetailsIn(items[PlanKey := PlanEntry(p)]) == DetailsIn(items)
    ensures DetailsIn(items[UserKey := DetailsEntry(d)]) == Some(d)
    ensures PlanIn(items[UserKey := DetailsEntry(d)]) == PlanIn(items)
  {
  }

  /**
   * The `storage` object over `localStorage`. `hasWindow` is
   * `typeof window !== 'undefined'`: without a window every operation is a no-op.
   */
  class Store {
    const hasWindow: bool
    var items: map<string, Entry>

    constructor (hasWindow: bool, items: map<string, Entry>)
      ensures this.hasWindow == hasWindow && this.items == items
    {
      this.hasWindow := hasWindow;
      this.items := items;
    }

    /** The plan `loadPlan` would return now. */
    function StoredPlan(): (r: Option<FitnessPlan>)
      reads this
      ensures !hasWindow ==> r == None
    {
      if hasWindow then PlanIn(items) else None
    }

    /** The details `loadUserDetails` would return now. */
    function StoredDetails(): (r: Option<UserDetails>)
      reads this
      ensures !hasWindow ==> r == None
    {
      if hasWindow then DetailsIn(items) else None
    }

    method SavePlan(plan: FitnessPlan)
      modifies this
      ensures hasWindow ==> items == old(items)[PlanKey := PlanEntry(plan)]
      ensures !hasWindow ==> items == old(items)
      ensures StoredPlan() == if hasWindow then Some(plan) else None
      ensures StoredDetails() == old(StoredDetails())
    {
      if hasWindow {
        items := items[PlanKey := PlanEntry(plan)];
      }
    }

    method LoadPlan() returns (plan: Option<FitnessPlan>)
      ensures plan == StoredPlan()
      ensures plan.Some? ==> hasWindow && PlanKey in items
    {
      if hasWindow {
        if PlanKey in items && items[PlanKey].PlanEntry? {
          return Some(items[PlanKey].plan);
        }
      }
      return None;
    }

    method SaveUserDetails(details: UserDetails)
      modifies this
      ensures hasWindow ==> items == old(items)[UserKey := DetailsEntry(details)]
      ensures !hasWindow ==> items == old(items)
      ensures StoredDetails() == if hasWindow then Some(details) else None
      ensures StoredPlan() == old(StoredPlan())
    {
      if hasWindow {
        items := items[UserKey := DetailsEntry(details)];
      }
    }

    method LoadUserDetails() returns (details: Option<UserDetails>)
      ensures details == StoredDetails()
      ensures details.Some? ==> hasWindow && UserKey in items
    {
      if hasWindow {
        if UserKey in items && items[UserKey].DetailsEntry? {
          return Some(items[UserKey].details);
        }
      }
      return None;
    }

    /** Removes both entries; every other key of `localStorage` is kept. */
    method ClearAll()
      modifies this
      ensures hasWindow ==> items == old(items) - {PlanKey, UserKey}
      ensures !hasWindow ==> items == old(items)
      ensures StoredPlan() == None && StoredDetails() == None
    {
      if hasWindow {
        items := items - {PlanKey} - {UserKey};
      }
    }
  }
}
