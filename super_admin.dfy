/** The super-admin data layer (src/lib/super-admin.ts): the subdomain slug
    and the defaults of a new hospital, the promotion updates, and the
    aggregations over `doctors` and `booking_analytics` that feed the
    dashboard (doctors per hospital, revenue per hospital, totals per month). */
module SuperAdmin {
  import opened Common

  // ---------------------------------------------------------------------------
  // Subdomain slug

  /** A character the slug keeps as it is: `[a-z0-9]`. */
  predicate IsSlugChar(c: char) { IsAsciiLower(c) || IsDigit(c) }

  /** A character a slug may hold: `[a-z0-9-]`. */
  predicate IsSubdomainChar(c: char) { IsSlugChar(c) || c == '-' }

  /** "--" starts at position `i`. */
  predicate DashPair(s: string, i: int)
    requires 0 <= i < |s| - 1
  {
    s[i] == '-' && s[i + 1] == '-'
  }

  /** No "-" is directly followed by another. */
  predicate NoDoubleDash(s: string) {
    forall i :: 0 <= i < |s| - 1 ==> !DashPair(s, i)
  }

  /** Only `[a-z0-9-]`, and never "--". */
  predicate SlugText(s: string) {
    (forall i :: 0 <= i < |s| ==> IsSubdomainChar(s[i])) && NoDoubleDash(s)
  }

  /** `s` without its leading run of characters outside `[a-z0-9]`. */
  function SkipRun(s: string): (r: string)
    ensures |r| <= |s|
    ensures |r| > 0 ==> IsSlugChar(r[0])
  {
    if |s| > 0 && !IsSlugChar(s[0]) then SkipRun(s[1..]) else s
  }

  /** `s.replace(/[^a-z0-9]+/g, '-')`: every maximal run of characters
      outside `[a-z0-9]` becomes a single "-". */
  function Dashify(s: string): (r: string)
    ensures |s| == 0 <==> |r| == 0
    ensures |s| > 0 ==> r[0] == if IsSlugChar(s[0]) then s[0] else '-'
    decreases |s|
  {
    if |s| == 0 then ""
    else if IsSlugChar(s[0]) then [s[0]] + Dashify(s[1..])
    else "-" + Dashify(SkipRun(s[1..]))
  }

  /** `c + rest` keeps the shape of `rest` when `c` may not start "--". */
  lemma ConsSlugText(c: char, rest: string)
    requires SlugText(rest) && IsSubdomainChar(c)
    requires c == '-' && |rest| > 0 ==> rest[0] != '-'
    ensures SlugText([c] + rest)
  {
    var r := [c] + rest;
    forall i | 0 <= i < |r| - 1
      ensures !DashPair(r, i)
    {
      if i > 0 {
        assert r[i] == rest[i - 1] && r[i + 1] == rest[i];
        assert !DashPair(rest, i - 1);
      }
    }
  }

  /** The replacement leaves only `[a-z0-9-]` and never "--". */
  lemma {:induction false} DashifyShape(s: string)
    ensures SlugText(Dashify(s))
    decreases |s|
  {
    if |s| > 0 {
      if IsSlugChar(s[0]) {
        DashifyShape(s[1..]);
        ConsSlugText(s[0], Dashify(s[1..]));
      } else {
        var t := SkipRun(s[1..]);
        DashifyShape(t);
        ConsSlugText('-', Dashify(t));
      }
    }
  }

  /** `s.replace(/^-|-$/g, '')`: one leading and one trailing "-" removed. */
  function StripDashes(s: string): string {
    var t := if |s| > 0 && s[0] == '-' then s[1..] else s;
    if |t| > 0 && t[|t| - 1] == '-' then t[..|t| - 1] else t
  }

  /** The subdomain `createHospital` derives from the hospital name:
      lower-cased, runs of other characters turned into "-", one "-" dropped
      at each end, then cut to 50 characters. */
  function Slug(name: string): string {
    Take(StripDashes(Dashify(ToLower(name))), 50)
  }

  lemma SliceSlugText(s: string, a: int, b: int)
    requires SlugText(s) && 0 <= a <= b <= |s|
    ensures SlugText(s[a..b])
    ensures b == |s| ==> SlugText(s[a..])
  {
    assert b == |s| ==> s[a..] == s[a..b];
    var t := s[a..b];
    forall i | 0 <= i < |t| - 1
      ensures !DashPair(t, i)
    {
      assert t[i] == s[a + i] && t[i + 1] == s[a + i + 1];
      assert !DashPair(s, a + i);
    }
  }

  /** The slug holds only `[a-z0-9-]`, never "--", never starts with "-" and
      has at most 50 characters; it ends with "-" only when it was cut at 50. */
  lemma SlugShape(name: string)
    ensures var r := Slug(name);
      && |r| <= 50
      && SlugText(r)
      && (|r| > 0 ==> r[0] != '-')
      && (|r| > 0 && r[|r| - 1] == '-' ==> |r| == 50)
  {
    var d := Dashify(ToLower(name));
    DashifyShape(ToLower(name));
    var a := if |d| > 0 && d[0] == '-' then 1 else 0;
    var t := d[a..];
    SliceSlugText(d, a, |d|);
    assert |t| > 0 ==> t[0] != '-' by {
      if |t| > 0 && a == 1 {
        assert t[0] == d[1];
        assert !DashPair(d, 0);
      }
    }
    var b := if |t| > 0 && t[|t| - 1] == '-' then |t| - 1 else |t|;
    var u := StripDashes(d);
    assert u == t[..b];
    SliceSlugText(t, 0, b);
    assert |u| > 0 ==> u[0] == t[0];
    assert |u| > 0 ==> u[|u| - 1] != '-' by {
      if |u| > 0 && b < |t| {
        assert u[|u| - 1] == t[|t| - 2];
        assert !DashPair(t, |t| - 2);
      }
    }
    var r := Slug(name);
    assert r == u[..|r|];
    SliceSlugText(u, 0, |r|);
    assert |r| > 0 ==> r[0] == u[0];
  }

  /** A name that is already a subdomain label of at most 50 characters. */
  predicate IsSlug(s: string) {
    |s| <= 50 && SlugText(s) && (|s| > 0 ==> s[0] != '-' && s[|s| - 1] != '-')
  }

  lemma {:induction false} DashifySlugText(s: string)
    requires SlugText(s) && (|s| > 0 ==> s[|s| - 1] != '-')
    ensures Dashify(s) == s
    decreases |s|
  {
    if |s| > 0 {
      var t := s[1..];
      assert SlugText(t) && (|t| > 0 ==> t[|t| - 1] != '-') by {
        SliceSlugText(s, 1, |s|);
      }
      DashifySlugText(t);
      if IsSlugChar(s[0]) {
        assert s == [s[0]] + t;
      } else {
        assert SkipRun(t) == t by {
          assert s[0] == '-' && |s| >= 2;
          assert !DashPair(s, 0) && IsSubdomainChar(s[1]);
        }
        assert s == "-" + t;
      }
    }
  }

  /** Slugging a name that is already a slug changes nothing. */
  lemma SlugOfSlug(s: string)
    requires IsSlug(s)
    ensures Slug(s) == s
  {
    StripSlug(s);
    LowerOfLower(s);
    DashifySlugText(s);
  }

  lemma StripSlug(s: string)
    requires IsSlug(s)
    ensures StripDashes(s) == s && Take(s, 50) == s
  {
  }

  /** Lower-casing text without capitals changes nothing. */
  lemma LowerOfLower(s: string)
    requires forall i :: 0 <= i < |s| ==> !IsAsciiUpper(s[i])
    ensures ToLower(s) == s
  {
    forall i | 0 <= i < |s|
      ensures ToLower(s)[i] == s[i]
    {
    }
  }

  lemma {:induction false} DashifySlugPrefix(a: string, b: string)
    requires forall i :: 0 <= i < |a| ==> IsSlugChar(a[i])
    ensures Dashify(a + b) == a + Dashify(b)
    decreases |a|
  {
    if |a| > 0 {
      assert (a + b)[1..] == a[1..] + b;
      DashifySlugPrefix(a[1..], b);
      assert a == [a[0]] + a[1..];
    } else {
      assert a + b == b;
    }
  }

  /** The cut to 50 characters comes after the trailing "-" is dropped, so a
      slug can still end in "-": 49 letters, a space and a letter give the 49
      letters followed by "-". */
  lemma SlugMayEndWithDash(w: string, c: char)
    requires |w| == 49 && (forall i :: 0 <= i < |w| ==> IsAsciiLower(w[i])) && IsAsciiLower(c)
    ensures Slug(w + " " + [c]) == w + "-"
  {
    var name := w + " " + [c];
    assert ToLower(name) == name by {
      forall i | 0 <= i < |name|
        ensures !IsAsciiUpper(name[i])
      {
        if i < |w| { assert name[i] == w[i]; }
      }
      LowerOfLower(name);
    }
    assert name == w + (" " + [c]);
    DashifySlugPrefix(w, " " + [c]);
    assert SkipRun([c]) == [c];
    assert Dashify([c]) == [c] + Dashify([]);
    assert Dashify(" " + [c]) == "-" + [c];
    var d := w + "-" + [c];
    assert d == w + ("-" + [c]);
    assert Dashify(name) == d;
    assert d[0] == w[0] && d[|d| - 1] == c;
    assert StripDashes(d) == d;
    assert d[..50] == w + "-";
  }

  // ---------------------------------------------------------------------------
  // createHospital

  datatype Plan = Basic | Growth | Enterprise
  datatype SubscriptionStatus = Trial | Active | Suspended
  datatype PromotionLevel = Promoted | Premium

  /** The form data `createHospital` receives. */
  datatype CreateHospitalData = CreateHospitalData(
    name: string,
    city: string,
    address: string,
    phone: string,
    email: string,
    website: Option<string>,
    plan: Plan,
    lat: Option<real>,
    lng: Option<real>)

  /** A calendar date in the local time zone; `month` runs from 1 to 12. */
  datatype CivilDate = CivilDate(year: int, month: int, day: int)

  predicate LeapYear(y: int) {
    (y % 4 == 0 && y % 100 != 0) || y % 400 == 0
  }

  function DaysInMonth(y: int, m: int): int {
    if m == 2 then (if LeapYear(y) then 29 else 28)
    else if m == 4 || m == 6 || m == 9 || m == 11 then 30
    else 31
  }

  predicate ValidDate(d: CivilDate) {
    1 <= d.month <= 12 && 1 <= d.day <= DaysInMonth(d.year, d.month)
  }

  /** `new Date(y + 1, m, d)`: the same day of the next year; a day the next
      year does not have (29 February) rolls over to 1 March, as JavaScript's
      Date does. */
  function OneYearLater(d: CivilDate): (r: CivilDate)
    requires ValidDate(d)
    ensures ValidDate(r) && r.year == d.year + 1
    ensures ValidDate(CivilDate(d.year + 1, d.month, d.day)) ==> r == CivilDate(d.year + 1, d.month, d.day)
    ensures !ValidDate(CivilDate(d.year + 1, d.month, d.day)) ==> r == CivilDate(d.year + 1, 3, 1)
  {
    if d.month == 2 && d.day == 29 && !LeapYear(d.year + 1) then CivilDate(d.year + 1, 3, 1)
    else CivilDate(d.year + 1, d.month, d.day)
  }

  /** The row `createHospital` inserts into `hospitals`. */
  datatype HospitalInsert = HospitalInsert(
    name: string,
    subdomain: string,
    city: string,
    address: string,
    phone: string,
    email: string,
    plan: Plan,
    status: SubscriptionStatus,
    startsAt: string,
    endsOn: CivilDate,
    latitude: Option<real>,
    longitude: Option<real>,
    isActive: bool,
    isPromoted: bool)

  /** The row for `data`, created at the instant whose ISO text is `nowIso`
      and whose local date is `today`. */
  function NewHospital(data: CreateHospitalData, nowIso: string, today: CivilDate): (h: HospitalInsert)
    requires ValidDate(today)
    ensures h.status == Active && h.isActive && !h.isPromoted
    ensures h.startsAt == nowIso && h.endsOn.year == today.year + 1 && ValidDate(h.endsOn)
    ensures IsSlug(h.subdomain) || (|h.subdomain| == 50 && h.subdomain[49] == '-')
    ensures h.plan == data.plan && h.latitude == data.lat && h.longitude == data.lng
  {
    var subdomain := Slug(data.name);
    SlugShape(data.name);
    HospitalInsert(data.name, subdomain, data.city, data.address, data.phone, data.email, data.plan,
                   Active, nowIso, OneYearLater(today), data.lat, data.lng, true, false)
  }

  // ---------------------------------------------------------------------------
  // Promotions

  /** The choice `updatePromotionTier` receives: "none", "promoted" or "premium". */
  datatype PromotionChoice = NoPromotion | Level(level: PromotionLevel)

  /** The columns both promotion updates write: `is_promoted` and `promotion_level`. */
  datatype PromotionPatch = PromotionPatch(isPromoted: bool, level: Option<PromotionLevel>)

  /** A hospital is promoted exactly when it has a promotion level. */
  predicate ConsistentPromotion(p: PromotionPatch) {
    p.isPromoted <==> p.level.Some?
  }

  /** `updatePromotionTier`: "none" clears the level, any other choice sets it. */
  function TierPatch(choice: PromotionChoice): (p: PromotionPatch)
    ensures ConsistentPromotion(p)
    ensures p.isPromoted <==> choice.Level?
    ensures p.level.Some? ==> choice == Level(p.level.value)
  {
    var isPromoted := choice != NoPromotion;
    PromotionPatch(isPromoted, if isPromoted then Some(choice.level) else None)
  }

  /** `toggleHospitalPromotion`: switching on gives the level "promoted". */
  function TogglePatch(isPromoted: bool): (p: PromotionPatch)
    ensures ConsistentPromotion(p) && p.isPromoted == isPromoted
    ensures p.level.Some? ==> p.level.value == Promoted
  {
    PromotionPatch(isPromoted, if isPromoted then Some(Promoted) else None)
  }

  /** The toggle is the tier update restricted to "none" and "promoted". */
  lemma ToggleIsTier(isPromoted: bool)
    ensures TogglePatch(isPromoted) == TierPatch(if isPromoted then Level(Promoted) else NoPromotion)
  {
  }

  // ---------------------------------------------------------------------------
  // getAllHospitals: doctors per hospital

  /** `m.get(k) ?? 0` */
  function GetOrZero<K>(m: map<K, int>, k: K): int {
    if k in m then m[k] else 0
  }

  /** The number of entries of `ids` equal to `id`. */
  function Occurrences(ids: seq<string>, id: string): nat {
    if |ids| == 0 then 0
    else Occurrences(ids[..|ids| - 1], id) + (if ids[|ids| - 1] == id then 1 else 0)
  }

  /** A hospital has no doctors exactly when no doctor row names it. */
  lemma {:induction false} NoOccurrences(ids: seq<string>, id: string)
    ensures Occurrences(ids, id) == 0 <==> id !in ids
  {
    if |ids| > 0 {
      NoOccurrences(ids[..|ids| - 1], id);
      assert ids == ids[..|ids| - 1] + [ids[|ids| - 1]];
    }
  }

  /** The loop over the `hospital_id` column of `doctors` building `doctorCountMap`. */
  method CountDoctors(hospitalIds: seq<string>) returns (counts: map<string, int>)
    ensures forall id :: GetOrZero(counts, id) == Occurrences(hospitalIds, id)
  {
    counts := map[];
    for i := 0 to |hospitalIds|
      invariant forall id :: GetOrZero(counts, id) == Occurrences(hospitalIds[..i], id)
    {
      var id := hospitalIds[i];
      counts := counts[id := GetOrZero(counts, id) + 1];
      assert hospitalIds[..i + 1][..i] == hospitalIds[..i];
    }
    assert hospitalIds[..|hospitalIds|] == hospitalIds;
  }

  /** The columns of a `hospitals` row the super-admin pages read. */
  datatype HospitalRow = HospitalRow(
    id: string,
    name: string,
    city: Option<string>,
    status: SubscriptionStatus,
    plan: Plan,
    isPromoted: bool,
    promotionLevel: Option<PromotionLevel>)

  datatype HospitalWithCount = HospitalWithCount(hospital: HospitalRow, doctorCount: int)

  /** `getAllHospitals`: every hospital, in the order fetched, with the
      number of doctor rows that name it. */
  method AllHospitals(hospitals: seq<HospitalRow>, doctorHospitalIds: seq<string>) returns (r: seq<HospitalWithCount>)
    ensures |r| == |hospitals|
    ensures forall i :: 0 <= i < |r| ==>
      r[i].hospital == hospitals[i] && r[i].doctorCount == Occurrences(doctorHospitalIds, hospitals[i].id)
  {
    var counts := CountDoctors(doctorHospitalIds);
    r := seq(|hospitals|, i requires 0 <= i < |hospitals| => HospitalWithCount(hospitals[i], GetOrZero(counts, hospitals[i].id)));
  }

  // ---------------------------------------------------------------------------
  // booking_analytics

  /** A row of `booking_analytics` as the super-admin queries read it. */
  datatype AnalyticsRecord = AnalyticsRecord(
    hospitalId: Option<string>,
    date: string,
    totalBookings: Option<int>,
    totalRevenue: Option<int>)

  /** `row.hospital_id` is truthy: present and not the empty string. */
  predicate HasHospital(row: AnalyticsRecord) {
    row.hospitalId.Some? && row.hospitalId.value != ""
  }

  /** `row.total_revenue ?? 0` */
  function Revenue(row: AnalyticsRecord): int { row.totalRevenue.GetOr(0) }

  /** `row.total_bookings ?? 0` */
  function Bookings(row: AnalyticsRecord): int { row.totalBookings.GetOr(0) }

  /** `.gte('date', from).lte('date', to)` on ISO date text. */
  function DatedBetween(from: string, to: string): AnalyticsRecord -> bool {
    (row: AnalyticsRecord) => LexLessEq(from, row.date) && LexLessEq(row.date, to)
  }

  /** `.reduce((sum, row) => sum + (row.total_revenue ?? 0), acc)` */
  function ReduceRevenue(rows: seq<AnalyticsRecord>, acc: int): int
    decreases |rows|
  {
    if |rows| == 0 then acc else ReduceRevenue(rows[1..], acc + Revenue(rows[0]))
  }

  /** Revenue this month on the platform dashboard (`getPlatformStats`). */
  function MonthRevenue(table: seq<AnalyticsRecord>, monthStart: string, monthEnd: string): int {
    ReduceRevenue(Filter(table, DatedBetween(monthStart, monthEnd)), 0)
  }

  lemma {:induction false} ReduceRevenueSum(rows: seq<AnalyticsRecord>, acc: int)
    ensures ReduceRevenue(rows, acc) == acc + SumOf(rows, Revenue)
    decreases |rows|
  {
    if |rows| > 0 {
      ReduceRevenueSum(rows[1..], acc + Revenue(rows[0]));
      SumOfAppend([rows[0]], rows[1..], Revenue);
      assert [rows[0]] + rows[1..] == rows;
      assert SumOf([rows[0]], Revenue) == Revenue(rows[0]) by {
        assert [rows[0]][..0] == [];
      }
    }
  }

  /** Taking the row at `k` out of `ys` takes its revenue out of the sum. */
  lemma SumWithout(ys: seq<AnalyticsRecord>, k: int)
    requires 0 <= k < |ys|
    ensures SumOf(ys, Revenue) == SumOf(ys[..k] + ys[k + 1..], Revenue) + Revenue(ys[k])
  {
    SumSplit(ys, k);
    SumFirst(ys[k..]);
    assert ys[k..][1..] == ys[k + 1..];
    SumOfAppend(ys[..k], ys[k + 1..], Revenue);
  }

  lemma SumSplit(ys: seq<AnalyticsRecord>, k: int)
    requires 0 <= k <= |ys|
    ensures SumOf(ys, Revenue) == SumOf(ys[..k], Revenue) + SumOf(ys[k..], Revenue)
  {
    SumOfAppend(ys[..k], ys[k..], Revenue);
    assert ys[..k] + ys[k..] == ys;
  }

  lemma SumFirst(ys: seq<AnalyticsRecord>)
    requires |ys| > 0
    ensures SumOf(ys, Revenue) == Revenue(ys[0]) + SumOf(ys[1..], Revenue)
  {
    SumOfAppend([ys[0]], ys[1..], Revenue);
    assert [ys[0]] + ys[1..] == ys;
    assert [ys[0]][..0] == [];
  }

  lemma MultisetWithout(xs: seq<AnalyticsRecord>, ys: seq<AnalyticsRecord>, k: int)
    requires multiset(xs) == multiset(ys) && |xs| > 0 && 0 <= k < |ys| && ys[k] == xs[|xs| - 1]
    ensures multiset(xs[..|xs| - 1]) == multiset(ys[..k] + ys[k + 1..])
  {
    var x, front, rest := ys[k], xs[..|xs| - 1], ys[..k] + ys[k + 1..];
    assert xs == front + [x];
    assert ys == ys[..k] + [x] + ys[k + 1..];
    forall o
      ensures multiset(front)[o] == multiset(rest)[o]
    {
      assert multiset(xs)[o] == multiset(ys)[o];
    }
  }

  lemma {:induction false} SumOfPermutation(xs: seq<AnalyticsRecord>, ys: seq<AnalyticsRecord>)
    requires multiset(xs) == multiset(ys)
    ensures SumOf(xs, Revenue) == SumOf(ys, Revenue)
    decreases |xs|
  {
    if |xs| > 0 {
      var x := xs[|xs| - 1];
      assert x in multiset(ys) by {
        assert x in multiset(xs);
      }
      var k :| 0 <= k < |ys| && ys[k] == x;
      MultisetWithout(xs, ys, k);
      SumOfPermutation(xs[..|xs| - 1], ys[..k] + ys[k + 1..]);
      SumWithout(ys, k);
    } else {
      assert |ys| == 0;
    }
  }

  /** The month's revenue is the sum of the revenue of the month's rows, null
      counting 0, whatever order the rows come back in. */
  lemma MonthRevenueSpec(table: seq<AnalyticsRecord>, shuffled: seq<AnalyticsRecord>, monthStart: string, monthEnd: string)
    requires multiset(table) == multiset(shuffled)
    ensures MonthRevenue(table, monthStart, monthEnd) == SumOf(Filter(table, DatedBetween(monthStart, monthEnd)), Revenue)
    ensures MonthRevenue(table, monthStart, monthEnd) == MonthRevenue(shuffled, monthStart, monthEnd)
  {
    var p := DatedBetween(monthStart, monthEnd);
    ReduceRevenueSum(Filter(table, p), 0);
    ReduceRevenueSum(Filter(shuffled, p), 0);
    FilterPermutation(table, shuffled, p);
    SumOfPermutation(Filter(table, p), Filter(shuffled, p));
  }

  lemma {:induction false} FilterMultiset(xs: seq<AnalyticsRecord>, p: AnalyticsRecord -> bool, x: AnalyticsRecord)
    ensures multiset(Filter(xs, p))[x] == if p(x) then multiset(xs)[x] else 0
  {
    if |xs| > 0 {
      FilterMultiset(xs[..|xs| - 1], p, x);
      assert xs == xs[..|xs| - 1] + [xs[|xs| - 1]];
    }
  }

  lemma FilterPermutation(xs: seq<AnalyticsRecord>, ys: seq<AnalyticsRecord>, p: AnalyticsRecord -> bool)
    requires multiset(xs) == multiset(ys)
    ensures multiset(Filter(xs, p)) == multiset(Filter(ys, p))
  {
    forall x
      ensures multiset(Filter(xs, p))[x] == multiset(Filter(ys, p))[x]
    {
      FilterMultiset(xs, p, x);
      FilterMultiset(ys, p, x);
    }
  }

  // ---------------------------------------------------------------------------
  // getHospitalRevenue

  /** The revenue of the rows that name hospital `id`, null counting 0. */
  function RevenueOf(rows: seq<AnalyticsRecord>, id: string): int {
    if |rows| == 0 then 0
    else
      var last := rows[|rows| - 1];
      RevenueOf(rows[..|rows| - 1], id) + (if HasHospital(last) && last.hospitalId.value == id then Revenue(last) else 0)
  }

  /** A hospital no analytics row names has revenue 0. */
  lemma {:induction false} NoRowsNoRevenue(rows: seq<AnalyticsRecord>, id: string)
    requires forall k :: 0 <= k < |rows| ==> rows[k].hospitalId != Some(id)
    ensures RevenueOf(rows, id) == 0
  {
    if |rows| > 0 {
      NoRowsNoRevenue(rows[..|rows| - 1], id);
    }
  }

  /** The loop building `revenueMap`: rows without a hospital are skipped. */
  method RevenueByHospital(rows: seq<AnalyticsRecord>) returns (revenue: map<string, int>)
    ensures forall id :: GetOrZero(revenue, id) == RevenueOf(rows, id)
  {
    revenue := map[];
    for i := 0 to |rows|
      invariant forall id :: GetOrZero(revenue, id) == RevenueOf(rows[..i], id)
    {
      var row := rows[i];
      assert rows[..i + 1][..i] == rows[..i];
      if !HasHospital(row) {
        continue;
      }
      var id := row.hospitalId.value;
      revenue := revenue[id := GetOrZero(revenue, id) + Revenue(row)];
    }
    assert rows[..|rows|] == rows;
  }

  datatype RevenueRow = RevenueRow(id: string, name: string, revenue: int)

  /** Each hospital with its revenue, in the order fetched. */
  function RevenueRows(hospitals: seq<HospitalRow>, rows: seq<AnalyticsRecord>): (r: seq<RevenueRow>)
    ensures |r| == |hospitals|
    ensures forall i :: 0 <= i < |r| ==> r[i] == RevenueRow(hospitals[i].id, hospitals[i].name, RevenueOf(rows, hospitals[i].id))
  {
    seq(|hospitals|, i requires 0 <= i < |hospitals| => RevenueRow(hospitals[i].id, hospitals[i].name, RevenueOf(rows, hospitals[i].id)))
  }

  /** The comparator `b.revenue - a.revenue`: more revenue comes first. */
  predicate MoreRevenue(a: RevenueRow, b: RevenueRow) { a.revenue > b.revenue }

  /** `getHospitalRevenue`. */
  method HospitalRevenue(hospitals: seq<HospitalRow>, rows: seq<AnalyticsRecord>) returns (r: seq<RevenueRow>)
    ensures r == SortBy(RevenueRows(hospitals, rows), MoreRevenue)
  {
    var revenue := RevenueByHospital(rows);
    var unsorted := seq(|hospitals|, i requires 0 <= i < |hospitals| => RevenueRow(hospitals[i].id, hospitals[i].name, GetOrZero(revenue, hospitals[i].id)));
    assert unsorted == RevenueRows(hospitals, rows);
    r := SortBy(unsorted, MoreRevenue);
  }

  /** Every hospital appears once with the revenue of its rows, and the list
      runs from the highest revenue down. */
  lemma HospitalRevenueSpec(hospitals: seq<HospitalRow>, rows: seq<AnalyticsRecord>)
    ensures var r := SortBy(RevenueRows(hospitals, rows), MoreRevenue);
      && multiset(r) == multiset(RevenueRows(hospitals, rows))
      && (forall i :: 0 <= i < |r| ==> r[i].revenue == RevenueOf(rows, r[i].id))
      && (forall i, j :: 0 <= i < j < |r| ==> r[i].revenue >= r[j].revenue)
  {
    var unsorted := RevenueRows(hospitals, rows);
    var r := SortBy(unsorted, MoreRevenue);
    assert StrictOrder(MoreRevenue);
    SortBySorted(unsorted, MoreRevenue);
    forall i | 0 <= i < |r|
      ensures r[i].revenue == RevenueOf(rows, r[i].id)
    {
      assert r[i] in multiset(unsorted);
      var k :| 0 <= k < |unsorted| && unsorted[k] == r[i];
    }
    forall i, j | 0 <= i < j < |r|
      ensures r[i].revenue >= r[j].revenue
    {
      assert !MoreRevenue(r[j], r[i]);
    }
  }

  // ---------------------------------------------------------------------------
  // getMonthlyStats and getPlatformAnalytics: totals per calendar month

  /** A calendar month; the source's string keys `${year}-${month}` name
      exactly one such pair each. */
  datatype Month = Month(year: int, month: int)

  /** The month's running totals and the set of hospitals seen in it. */
  datatype Totals = Totals(appointments: int, revenue: int, hospitals: set<string>)

  /** One pass of the loop body for a row of the month. */
  function AddRow(t: Totals, row: AnalyticsRecord): Totals {
    Totals(t.appointments + Bookings(row), t.revenue + Revenue(row),
           if HasHospital(row) then t.hospitals + {row.hospitalId.value} else t.hospitals)
  }

  /** The totals of the rows whose date falls in month `m`; `monthOf` is the
      local calendar month of `new Date(row.date)`. */
  function TotalsFor(rows: seq<AnalyticsRecord>, monthOf: string -> Month, m: Month): Totals {
    if |rows| == 0 then Totals(0, 0, {})
    else
      var t := TotalsFor(rows[..|rows| - 1], monthOf, m);
      var last := rows[|rows| - 1];
      if monthOf(last.date) == m then AddRow(t, last) else t
  }

  predicate Distinct<T(==)>(s: seq<T>) {
    forall i, j :: 0 <= i < j < |s| ==> s[i] != s[j]
  }

  /** The months of `rows` in order of first appearance: the order of the
      `Map`'s keys. */
  function MonthsIn(rows: seq<AnalyticsRecord>, monthOf: string -> Month): (r: seq<Month>)
    ensures Distinct(r)
    ensures forall k :: 0 <= k < |rows| ==> monthOf(rows[k].date) in r
  {
    if |rows| == 0 then []
    else
      var prev := MonthsIn(rows[..|rows| - 1], monthOf);
      var m := monthOf(rows[|rows| - 1].date);
      assert forall k :: 0 <= k < |rows| - 1 ==> rows[k] == rows[..|rows| - 1][k];
      if m in prev then prev else prev + [m]
  }

  /** Every month listed is the month of some row. */
  lemma {:induction false} MonthsInOnlyRows(rows: seq<AnalyticsRecord>, monthOf: string -> Month, m: Month)
    requires m in MonthsIn(rows, monthOf)
    ensures exists k :: 0 <= k < |rows| && monthOf(rows[k].date) == m
  {
    var prev := MonthsIn(rows[..|rows| - 1], monthOf);
    if m in prev {
      MonthsInOnlyRows(rows[..|rows| - 1], monthOf, m);
      var k :| 0 <= k < |rows| - 1 && monthOf(rows[..|rows| - 1][k].date) == m;
      assert rows[k] == rows[..|rows| - 1][k];
    } else {
      assert monthOf(rows[|rows| - 1].date) == m;
    }
  }

  /** A month without rows has empty totals. */
  lemma {:induction false} NoRowsEmptyTotals(rows: seq<AnalyticsRecord>, monthOf: string -> Month, m: Month)
    requires m !in MonthsIn(rows, monthOf)
    ensures TotalsFor(rows, monthOf, m) == Totals(0, 0, {})
  {
    if |rows| > 0 {
      var prev := MonthsIn(rows[..|rows| - 1], monthOf);
      assert m !in prev;
      NoRowsEmptyTotals(rows[..|rows| - 1], monthOf, m);
    }
  }

  /** The loop of both functions: `grouped` holds, per month seen, the
      totals of that month's rows; `order` lists its keys in insertion order. */
  method GroupByMonth(rows: seq<AnalyticsRecord>, monthOf: string -> Month)
    returns (grouped: map<Month, Totals>, order: seq<Month>)
    ensures order == MonthsIn(rows, monthOf)
    ensures forall m :: m in grouped <==> m in order
    ensures forall m :: m in grouped ==> grouped[m] == TotalsFor(rows, monthOf, m)
  {
    grouped, order := map[], [];
    for i := 0 to |rows|
      invariant order == MonthsIn(rows[..i], monthOf)
      invariant forall m :: m in grouped <==> m in order
      invariant forall m :: m in grouped ==> grouped[m] == TotalsFor(rows[..i], monthOf, m)
    {
      var row := rows[i];
      var key := monthOf(row.date);
      assert rows[..i + 1][..i] == rows[..i];
      if key !in grouped {
        NoRowsEmptyTotals(rows[..i], monthOf, key);
        grouped := grouped[key := Totals(0, 0, {})];
        order := order + [key];
      }
      grouped := grouped[key := AddRow(grouped[key], row)];
    }
    assert rows[..|rows|] == rows;
  }

  datatype MonthlyStat = MonthlyStat(month: int, year: int, totalAppointments: int, totalRevenue: int, activeHospitals: nat)

  function StatOf(m: Month, t: Totals): MonthlyStat {
    MonthlyStat(m.month, m.year, t.appointments, t.revenue, |t.hospitals|)
  }

  function MonthOfStat(s: MonthlyStat): Month { Month(s.year, s.month) }

  /** The `Map`'s values, in key order, with the hospital set replaced by its size. */
  function MonthStats(months: seq<Month>, rows: seq<AnalyticsRecord>, monthOf: string -> Month): (r: seq<MonthlyStat>)
    ensures |r| == |months|
    ensures forall i :: 0 <= i < |r| ==> r[i] == StatOf(months[i], TotalsFor(rows, monthOf, months[i]))
  {
    seq(|months|, i requires 0 <= i < |months| => StatOf(months[i], TotalsFor(rows, monthOf, months[i])))
  }

  /** The comparator `b.year - a.year || b.month - a.month`: newer months first. */
  predicate NewerStat(a: MonthlyStat, b: MonthlyStat) {
    a.year > b.year || (a.year == b.year && a.month > b.month)
  }

  function MonthlyStatsOf(rows: seq<AnalyticsRecord>, monthOf: string -> Month): seq<MonthlyStat> {
    Take(SortedStats(rows, monthOf), 12)
  }

  /** `getMonthlyStats` over the rows dated on or after `from`. */
  method MonthlyStats(table: seq<AnalyticsRecord>, from: string, monthOf: string -> Month) returns (r: seq<MonthlyStat>)
    ensures r == MonthlyStatsOf(Filter(table, OnOrAfter(from)), monthOf)
  {
    var rows := Filter(table, OnOrAfter(from));
    var grouped, order := GroupByMonth(rows, monthOf);
    var stats := seq(|order|, i requires 0 <= i < |order| && order[i] in grouped => StatOf(order[i], grouped[order[i]]));
    assert stats == MonthStats(order, rows, monthOf);
    r := Take(SortBy(stats, NewerStat), 12);
  }

  /** `.gte('date', from)` on ISO date text. */
  function OnOrAfter(from: string): AnalyticsRecord -> bool {
    (row: AnalyticsRecord) => LexLessEq(from, row.date)
  }

  lemma {:induction false} DistinctCount<T>(s: seq<T>, x: T)
    requires Distinct(s)
    ensures multiset(s)[x] <= 1
  {
    if |s| > 0 {
      var front := s[..|s| - 1];
      assert s == front + [s[|s| - 1]];
      assert Distinct(front);
      DistinctCount(front, x);
      if s[|s| - 1] == x {
        assert x !in front;
      }
    }
  }

  lemma DistinctPermutation<T>(xs: seq<T>, ys: seq<T>)
    requires Distinct(xs) && multiset(xs) == multiset(ys)
    ensures Distinct(ys)
  {
    forall i, j | 0 <= i < j < |ys|
      ensures ys[i] != ys[j]
    {
      if ys[i] == ys[j] {
        var y := ys[i];
        assert ys == ys[..i] + [y] + ys[i + 1..j] + [ys[j]] + ys[j + 1..];
        assert multiset(ys)[y] >= 2;
        DistinctCount(xs, y);
      }
    }
  }

  /** Each entry is the month's totals. */
  predicate TotalsOfItsMonth(s: MonthlyStat, rows: seq<AnalyticsRecord>, monthOf: string -> Month) {
    s == StatOf(MonthOfStat(s), TotalsFor(rows, monthOf, MonthOfStat(s)))
  }

  /** Some entry is for month `m`. */
  predicate Lists(r: seq<MonthlyStat>, m: Month) {
    exists i :: 0 <= i < |r| && MonthOfStat(r[i]) == m
  }

  /** The months' entries, newest first, before the cut to 12. */
  function SortedStats(rows: seq<AnalyticsRecord>, monthOf: string -> Month): seq<MonthlyStat> {
    SortBy(MonthStats(MonthsIn(rows, monthOf), rows, monthOf), NewerStat)
  }

  /** Every entry of the sorted list holds the totals of a month with rows. */
  lemma SortedStatsTotals(rows: seq<AnalyticsRecord>, monthOf: string -> Month)
    ensures var sorted := SortedStats(rows, monthOf);
      && |sorted| == |MonthsIn(rows, monthOf)|
      && (forall i :: 0 <= i < |sorted| ==>
            TotalsOfItsMonth(sorted[i], rows, monthOf) && MonthOfStat(sorted[i]) in MonthsIn(rows, monthOf))
      && (forall m :: m in MonthsIn(rows, monthOf) ==> StatOf(m, TotalsFor(rows, monthOf, m)) in sorted)
  {
    var months := MonthsIn(rows, monthOf);
    var stats := MonthStats(months, rows, monthOf);
    var sorted := SortedStats(rows, monthOf);
    forall i | 0 <= i < |sorted|
      ensures TotalsOfItsMonth(sorted[i], rows, monthOf) && MonthOfStat(sorted[i]) in months
    {
      assert sorted[i] in multiset(stats);
      var k :| 0 <= k < |stats| && stats[k] == sorted[i];
      assert MonthOfStat(stats[k]) == months[k];
    }
    forall m | m in months
      ensures StatOf(m, TotalsFor(rows, monthOf, m)) in sorted
    {
      var k :| 0 <= k < |months| && months[k] == m;
      assert stats[k] in multiset(sorted);
    }
  }

  /** The sorted list runs strictly from newer to older months. */
  lemma SortedStatsStrict(rows: seq<AnalyticsRecord>, monthOf: string -> Month)
    ensures var sorted := SortedStats(rows, monthOf);
      forall i, j :: 0 <= i < j < |sorted| ==> NewerStat(sorted[i], sorted[j])
  {
    var months := MonthsIn(rows, monthOf);
    var stats := MonthStats(months, rows, monthOf);
    var sorted := SortedStats(rows, monthOf);
    assert StrictOrder(NewerStat);
    SortBySorted(stats, NewerStat);
    assert Distinct(stats) by {
      forall i, j | 0 <= i < j < |stats|
        ensures stats[i] != stats[j]
      {
        assert MonthOfStat(stats[i]) == months[i];
      }
    }
    DistinctPermutation(stats, sorted);
    SortedStatsTotals(rows, monthOf);
    forall i, j | 0 <= i < j < |sorted|
      ensures NewerStat(sorted[i], sorted[j])
    {
      assert !NewerStat(sorted[j], sorted[i]);
      assert TotalsOfItsMonth(sorted[i], rows, monthOf) && TotalsOfItsMonth(sorted[j], rows, monthOf);
    }
  }

  /** At most 12 entries, newest first, each the totals of a month with rows. */
  lemma MonthlyStatsEntries(rows: seq<AnalyticsRecord>, monthOf: string -> Month)
    ensures var r := MonthlyStatsOf(rows, monthOf);
      && |r| == (if |MonthsIn(rows, monthOf)| < 12 then |MonthsIn(rows, monthOf)| else 12)
      && (forall i :: 0 <= i < |r| ==> TotalsOfItsMonth(r[i], rows, monthOf) && MonthOfStat(r[i]) in MonthsIn(rows, monthOf))
      && (forall i, j :: 0 <= i < j < |r| ==> NewerStat(r[i], r[j]))
  {
    var sorted := SortedStats(rows, monthOf);
    var r := MonthlyStatsOf(rows, monthOf);
    assert r == Take(sorted, 12);
    SortedStatsTotals(rows, monthOf);
    SortedStatsStrict(rows, monthOf);
    forall i | 0 <= i < |r|
      ensures r[i] == sorted[i]
    {
    }
  }

  /** A month with rows is left out only when 12 newer months fill the list. */
  lemma MonthlyStatsKeepsNewest(rows: seq<AnalyticsRecord>, monthOf: string -> Month, m: Month)
    requires m in MonthsIn(rows, monthOf)
    ensures var r := MonthlyStatsOf(rows, monthOf);
      !Lists(r, m) ==> |r| == 12 && forall i :: 0 <= i < |r| ==> NewerStat(r[i], StatOf(m, TotalsFor(rows, monthOf, m)))
  {
    var sorted := SortedStats(rows, monthOf);
    var r := MonthlyStatsOf(rows, monthOf);
    assert r == Take(sorted, 12);
    SortedStatsTotals(rows, monthOf);
    var s := StatOf(m, TotalsFor(rows, monthOf, m));
    var p :| 0 <= p < |sorted| && sorted[p] == s;
    if p < |r| {
      assert MonthOfStat(r[p]) == m by {
        assert r[p] == sorted[p];
      }
    } else {
      SortedStatsStrict(rows, monthOf);
      forall i | 0 <= i < |r|
        ensures NewerStat(r[i], s)
      {
        assert r[i] == sorted[i];
      }
    }
  }

  /** At most 12 entries, one per month that has rows, newest first, each
      holding that month's totals; a month with rows is left out only when 12
      newer months fill the list. */
  lemma MonthlyStatsSpec(rows: seq<AnalyticsRecord>, monthOf: string -> Month)
    ensures var r := MonthlyStatsOf(rows, monthOf);
      && |r| == (if |MonthsIn(rows, monthOf)| < 12 then |MonthsIn(rows, monthOf)| else 12)
      && (forall i :: 0 <= i < |r| ==> TotalsOfItsMonth(r[i], rows, monthOf) && MonthOfStat(r[i]) in MonthsIn(rows, monthOf))
      && (forall i, j :: 0 <= i < j < |r| ==> NewerStat(r[i], r[j]))
      && (forall m :: m in MonthsIn(rows, monthOf) && !Lists(r, m) ==>
            |r| == 12 && forall i :: 0 <= i < |r| ==> NewerStat(r[i], StatOf(m, TotalsFor(rows, monthOf, m))))
  {
    MonthlyStatsEntries(rows, monthOf);
    forall m | m in MonthsIn(rows, monthOf)
      ensures var r := MonthlyStatsOf(rows, monthOf);
        !Lists(r, m) ==> |r| == 12 && forall i :: 0 <= i < |r| ==> NewerStat(r[i], StatOf(m, TotalsFor(rows, monthOf, m)))
    {
      MonthlyStatsKeepsNewest(rows, monthOf, m);
    }
  }

  datatype PlatformAnalyticsRow = PlatformAnalyticsRow(month: int, year: int, totalAppointments: int, totalRevenue: int)

  function AnalyticsOf(m: Month, t: Totals): PlatformAnalyticsRow {
    PlatformAnalyticsRow(m.month, m.year, t.appointments, t.revenue)
  }

  function MonthAnalytics(months: seq<Month>, rows: seq<AnalyticsRecord>, monthOf: string -> Month): (r: seq<PlatformAnalyticsRow>)
    ensures |r| == |months|
    ensures forall i :: 0 <= i < |r| ==> r[i] == AnalyticsOf(months[i], TotalsFor(rows, monthOf, months[i]))
  {
    seq(|months|, i requires 0 <= i < |months| => AnalyticsOf(months[i], TotalsFor(rows, monthOf, months[i])))
  }

  /** The comparator `a.year - b.year || a.month - b.month`: older months first. */
  predicate OlderRow(a: PlatformAnalyticsRow, b: PlatformAnalyticsRow) {
    a.year < b.year || (a.year == b.year && a.month < b.month)
  }

  function PlatformAnalyticsOf(rows: seq<AnalyticsRecord>, monthOf: string -> Month): seq<PlatformAnalyticsRow> {
    SortBy(MonthAnalytics(MonthsIn(rows, monthOf), rows, monthOf), OlderRow)
  }

  /** `getPlatformAnalytics` over the rows dated on or after `from`. */
  method PlatformAnalytics(table: seq<AnalyticsRecord>, from: string, monthOf: string -> Month) returns (r: seq<PlatformAnalyticsRow>)
    ensures r == PlatformAnalyticsOf(Filter(table, OnOrAfter(from)), monthOf)
  {
    var rows := Filter(table, OnOrAfter(from));
    var grouped, order := GroupByMonth(rows, monthOf);
    var entries := seq(|order|, i requires 0 <= i < |order| && order[i] in grouped => AnalyticsOf(order[i], grouped[order[i]]));
    assert entries == MonthAnalytics(order, rows, monthOf);
    r := SortBy(entries, OlderRow);
  }

  /** One entry for every month with rows, oldest first, each with the
      month's booking and revenue totals. */
  lemma PlatformAnalyticsSpec(rows: seq<AnalyticsRecord>, monthOf: string -> Month)
    ensures var r := PlatformAnalyticsOf(rows, monthOf);
      && |r| == |MonthsIn(rows, monthOf)|
      && (forall i :: 0 <= i < |r| ==>
            var m := Month(r[i].year, r[i].month);
            m in MonthsIn(rows, monthOf) && r[i] == AnalyticsOf(m, TotalsFor(rows, monthOf, m)))
      && (forall i, j :: 0 <= i < j < |r| ==> !OlderRow(r[j], r[i]))
      && (forall k :: 0 <= k < |rows| ==>
            var m := monthOf(rows[k].date);
            AnalyticsOf(m, TotalsFor(rows, monthOf, m)) in r)
  {
    var months := MonthsIn(rows, monthOf);
    var entries := MonthAnalytics(months, rows, monthOf);
    var r := SortBy(entries, OlderRow);
    assert StrictOrder(OlderRow);
    SortBySorted(entries, OlderRow);
    forall i | 0 <= i < |r|
      ensures var m := Month(r[i].year, r[i].month);
        m in months && r[i] == AnalyticsOf(m, TotalsFor(rows, monthOf, m))
    {
      assert r[i] in multiset(entries);
      var k :| 0 <= k < |entries| && entries[k] == r[i];
    }
    forall k | 0 <= k < |rows|
      ensures var m := monthOf(rows[k].date);
        AnalyticsOf(m, TotalsFor(rows, monthOf, m)) in r
    {
      var m := monthOf(rows[k].date);
      var p :| 0 <= p < |months| && months[p] == m;
      assert entries[p] in multiset(r);
    }
  }
}
