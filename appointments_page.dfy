/** The appointments page of the hospital-management app
    (src/pages/hms/Appointments.tsx): the filters it passes to
    `getAppointments`, the status badge, and the status actions of a row. */
module AppointmentsPage {
  import opened Common
  import Hms

  /** The filters built from the page's date, status and search fields:
      "all" and empty texts become `undefined`; no doctor filter is sent. */
  function FiltersOf(date: string, status: string, search: string): (f: Hms.AppointmentFilters)
    ensures f.status.None? <==> status == "all"
    ensures f.date.None? <==> date == ""
    ensures f.search.None? <==> search == ""
    ensures f.doctorId.None?
  {
    Hms.AppointmentFilters(
      if date == "" then None else Some(date),
      if status == "all" then None else Some(status),
      None,
      if search == "" then None else Some(search))
  }

  /** The status "all" lists the same rows whatever each row's status. */
  lemma AllStatusesListed(hospitalId: string, date: string, search: string, row: Hms.AppointmentRecord, other: string)
    ensures Hms.Listed(hospitalId, FiltersOf(date, "all", search), row)
        <==> Hms.Listed(hospitalId, FiltersOf(date, "all", search), row.(status := other))
  {
  }

  /** A status other than "all" lists only rows with that status. */
  lemma StatusSelected(hospitalId: string, date: string, status: string, search: string, row: Hms.AppointmentRecord)
    requires status != "all" && status != ""
    requires Hms.Listed(hospitalId, FiltersOf(date, status, search), row)
    ensures row.status == status
  {
  }

  /** Turning empty texts into `undefined` changes nothing: the query gives
      what it gives for the raw fields (with only "all" dropped). */
  lemma EmptyFieldsAsRaw(table: seq<Hms.AppointmentRecord>, hospitalId: string, date: string, status: string,
                         search: string, queryError: Option<string>)
    ensures var raw := Hms.AppointmentFilters(Some(date), if status == "all" then None else Some(status), None, Some(search));
      Hms.Appointments(table, hospitalId, FiltersOf(date, status, search), queryError)
      == Hms.Appointments(table, hospitalId, raw, queryError)
  {
    var raw := Hms.AppointmentFilters(Some(date), if status == "all" then None else Some(status), None, Some(search));
    Hms.EmptyFiltersIgnored(table, hospitalId, FiltersOf(date, status, search), queryError);
    Hms.EmptyFiltersIgnored(table, hospitalId, raw, queryError);
    assert Hms.Provided(FiltersOf(date, status, search)) == Hms.Provided(raw);
  }

  // ---------------------------------------------------------------------------
  // StatusBadge

  datatype BadgeVariant = Default | Secondary | Destructive | Outline

  /** `variantMap[status] || 'outline'`. */
  function VariantOf(status: string): BadgeVariant {
    if status == "confirmed" then Default
    else if status == "completed" then Secondary
    else if status == "cancelled" || status == "no_show" then Destructive
    else Outline
  }

  /** Confirmed is the default badge, completed the secondary one, cancelled
      and no-show the destructive one, and every other status (pending
      included) the outline one. */
  lemma VariantSpec(status: string)
    ensures VariantOf(status) == Default <==> status == "confirmed"
    ensures VariantOf(status) == Secondary <==> status == "completed"
    ensures VariantOf(status) == Destructive <==> status == "cancelled" || status == "no_show"
    ensures VariantOf(status) == Outline <==> status !in {"confirmed", "completed", "cancelled", "no_show"}
  {
  }

  /** `s.replace('_', ' ')` with a string pattern: only the first `_`. */
  function ReplaceFirst(s: string): (r: string)
    ensures |r| == |s|
  {
    if '_' !in s then s
    else
      var i := FirstIndex(s, '_');
      s[..i] + " " + s[i + 1..]
  }

  /** `status.replace('_', ' ').toUpperCase()`. */
  function Label(status: string): string {
    ToUpper(ReplaceFirst(status))
  }

  /** The label has the status's length; without an underscore it is the
      status in capitals; otherwise the first underscore becomes a space and
      every other character is the status's own, in capitals. */
  lemma LabelSpec(status: string)
    ensures |Label(status)| == |status|
    ensures '_' !in status ==> Label(status) == ToUpper(status)
    ensures '_' in status ==>
      var i := FirstIndex(status, '_');
      && Label(status)[i] == ' '
      && (forall k :: 0 <= k < |status| && k != i ==> Label(status)[k] == UpperChar(status[k]))
  {
    if '_' in status {
      var i := FirstIndex(status, '_');
      var r := ReplaceFirst(status);
      forall k | 0 <= k < |status| && k != i
        ensures r[k] == status[k]
      {
        if k < i {
          assert r[k] == status[..i][k];
        } else {
          assert r[k] == status[i + 1..][k - i - 1];
        }
      }
    }
  }

  /** Only the first underscore goes: "no_show" reads "NO SHOW", but a
      second underscore is kept. */
  lemma LabelExamples()
    ensures Label("no_show") == "NO SHOW"
    ensures Label("a_b_c") == "A B_C"
  {
    assert FirstIndex("no_show", '_') == 2;
    assert FirstIndex("a_b_c", '_') == 1;
  }

  // ---------------------------------------------------------------------------
  // Row actions

  /** The statuses the row menu can set, in menu order. */
  datatype Target = Confirmed | Completed | NoShow | Cancelled

  function TargetValue(t: Target): string {
    match t
    case Confirmed => "confirmed"
    case Completed => "completed"
    case NoShow => "no_show"
    case Cancelled => "cancelled"
  }

  datatype MenuItem = MenuItem(target: Target, disabled: bool)

  /** The four items of a row's menu: mark confirmed, mark completed, mark
      no-show, cancel; each is disabled when the appointment already has the
      status it would set. */
  function Menu(status: string): (r: seq<MenuItem>)
    ensures |r| == 4
    ensures r[0].target == Confirmed && r[1].target == Completed && r[2].target == NoShow && r[3].target == Cancelled
    ensures forall k :: 0 <= k < 4 ==> (r[k].disabled <==> status == TargetValue(r[k].target))
  {
    var ts := [Confirmed, Completed, NoShow, Cancelled];
    seq(4, k requires 0 <= k < 4 => MenuItem(ts[k], status == TargetValue(ts[k])))
  }

  /** At most one item is disabled; exactly one when the status is one the
      menu sets, and none for a pending appointment. */
  lemma MenuDisabled(status: string)
    ensures forall j, k :: 0 <= j < k < 4 ==> !(Menu(status)[j].disabled && Menu(status)[k].disabled)
    ensures (exists k :: 0 <= k < 4 && Menu(status)[k].disabled)
        <==> status in {"confirmed", "completed", "no_show", "cancelled"}
  {
    var m := Menu(status);
    if status == "confirmed" { assert m[0].disabled; }
    if status == "completed" { assert m[1].disabled; }
    if status == "no_show" { assert m[2].disabled; }
    if status == "cancelled" { assert m[3].disabled; }
  }

  datatype StatusChange = StatusChange(id: string, status: string)

  /** Choosing an enabled item sends its status for that appointment; a
      disabled item sends nothing. */
  function Choose(id: string, status: string, k: nat): (r: Option<StatusChange>)
    requires k < 4
    ensures r.Some? <==> status != TargetValue(Menu(status)[k].target)
    ensures r.Some? ==> r.value.id == id && r.value.status != status
  {
    var item := Menu(status)[k];
    if item.disabled then None else Some(StatusChange(id, TargetValue(item.target)))
  }
}
