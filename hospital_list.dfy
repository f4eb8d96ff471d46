/** The super-admin hospital list (src/pages/super-admin/HospitalList.tsx):
    the search over the loaded hospitals, the footer count and the
    suspend/resume toggle. */
module HospitalList {
  import opened Common
  import SuperAdmin

  /** `h.name?.toLowerCase().includes(q) || h.city?.toLowerCase().includes(q)`;
      a missing city does not match. */
  predicate Matches(q: string, h: SuperAdmin.HospitalRow) {
    Contains(ToLower(h.name), q) || (h.city.Some? && Contains(ToLower(h.city.value), q))
  }

  /** The query the search box gives: lowercased, then trimmed. */
  function Query(search: string): string {
    Trim(ToLower(search))
  }

  /** `filtered`: nothing before the hospitals are loaded, all of them for an
      empty query, otherwise those that match, in the order loaded. The
      footer's "Showing n of m" never has n above m. */
  function Filtered(hospitals: Option<seq<SuperAdmin.HospitalRow>>, search: string): (r: seq<SuperAdmin.HospitalRow>)
    ensures |r| <= Total(hospitals)
    ensures forall h :: h in r ==> hospitals.Some? && h in hospitals.value
  {
    if hospitals.None? then []
    else
      var q := Query(search);
      if q == "" then hospitals.value
      else Filter(hospitals.value, h => Matches(q, h))
  }

  /** `hospitals?.length ?? 0`. */
  function Total(hospitals: Option<seq<SuperAdmin.HospitalRow>>): nat {
    if hospitals.None? then 0 else |hospitals.value|
  }

  /** No data gives no rows; an empty (or blank) query gives every hospital
      unchanged; otherwise a hospital is listed exactly when its name or city
      contains the query, ignoring case. */
  lemma FilteredSpec(hospitals: Option<seq<SuperAdmin.HospitalRow>>, search: string, h: SuperAdmin.HospitalRow)
    ensures hospitals.None? ==> Filtered(hospitals, search) == []
    ensures hospitals.Some? && Query(search) == "" ==> Filtered(hospitals, search) == hospitals.value
    ensures hospitals.Some? && Query(search) != "" ==>
      (h in Filtered(hospitals, search) <==> h in hospitals.value && Matches(Query(search), h))
  {
    if hospitals.Some? && Query(search) != "" && h in hospitals.value && Matches(Query(search), h) {
      FilterKeeps(hospitals.value, h => Matches(Query(search), h), h);
    }
  }

  /** The filter keeps the loaded order: filtering a list loaded in two parts
      is filtering each part and concatenating. */
  lemma FilteredKeepsOrder(a: seq<SuperAdmin.HospitalRow>, b: seq<SuperAdmin.HospitalRow>, search: string)
    ensures Filtered(Some(a + b), search) == Filtered(Some(a), search) + Filtered(Some(b), search)
  {
    var q := Query(search);
    if q != "" {
      FilterAppend(a, b, h => Matches(q, h));
    }
  }

  lemma {:induction false} FilterAppend<T>(xs: seq<T>, ys: seq<T>, p: T -> bool)
    ensures Filter(xs + ys, p) == Filter(xs, p) + Filter(ys, p)
  {
    if |ys| > 0 {
      assert (xs + ys)[..|xs + ys| - 1] == xs + ys[..|ys| - 1];
      FilterAppend(xs, ys[..|ys| - 1], p);
    } else {
      assert xs + ys == xs;
    }
  }

  lemma LowerOfUpper(s: string)
    ensures ToLower(ToUpper(s)) == ToLower(s)
  {
  }

  /** The search ignores case: typing the query in capitals lists the same
      hospitals. */
  lemma SearchIgnoresCase(hospitals: Option<seq<SuperAdmin.HospitalRow>>, search: string)
    ensures Filtered(hospitals, ToUpper(search)) == Filtered(hospitals, search)
  {
    LowerOfUpper(search);
  }

  /** `handleToggleStatus`: a suspended hospital becomes active and every
      other one suspended, so the status always changes. */
  function NextStatus(s: SuperAdmin.SubscriptionStatus): (r: SuperAdmin.SubscriptionStatus)
    ensures r != s
    ensures r == SuperAdmin.Active <==> s == SuperAdmin.Suspended
  {
    if s == SuperAdmin.Suspended then SuperAdmin.Active else SuperAdmin.Suspended
  }

  /** Toggling twice restores an active or suspended hospital, but a trial
      one comes back active: the trial status is lost. */
  lemma ToggleTwice(s: SuperAdmin.SubscriptionStatus)
    ensures NextStatus(NextStatus(s)) == s <==> s != SuperAdmin.Trial
    ensures NextStatus(NextStatus(SuperAdmin.Trial)) == SuperAdmin.Active
  {
  }

  datatype StatusUpdate = StatusUpdate(hospitalId: string, status: SuperAdmin.SubscriptionStatus)

  /** The request the toggle sends for a row. */
  function ToggleRequest(h: SuperAdmin.HospitalRow): (u: StatusUpdate)
    ensures u.hospitalId == h.id && u.status != h.status
  {
    StatusUpdate(h.id, NextStatus(h.status))
  }
}
