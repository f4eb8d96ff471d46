/** The two dashboard layouts, src/components/hms/HmsLayout.tsx and
    src/components/super-admin/SuperAdminLayout.tsx: the title shown for the
    current path and the initials shown for the signed-in user. The two
    files define `getPageTitle` and `getInitials` identically apart from
    their tables and fallbacks, so each is defined once here. */
module Layout {
  import opened Common

  /** `pageTitleMap`, in the order `Object.keys` gives its keys. */
  type TitleMap = seq<(string, string)>

  const HmsTitles: TitleMap := [
    ("/hms/dashboard", "Dashboard"),
    ("/hms/appointments", "Appointments"),
    ("/hms/doctors", "Doctors"),
    ("/hms/patients", "Patients"),
    ("/hms/queue", "Queue"),
    ("/hms/analytics", "Analytics"),
    ("/hms/settings", "Settings")]

  const SuperAdminTitles: TitleMap := [
    ("/super-admin/dashboard", "Dashboard"),
    ("/super-admin/hospitals", "Hospitals"),
    ("/super-admin/analytics", "Analytics"),
    ("/super-admin/revenue", "Revenue"),
    ("/super-admin/promotions", "Promotions")]

  /** The title of the key equal to the path, if any. */
  function Exact(m: TitleMap, path: string): (r: Option<string>)
    ensures r.Some? <==> exists i :: 0 <= i < |m| && m[i].0 == path
    ensures r.Some? ==> exists i :: 0 <= i < |m| && m[i].0 == path && r.value == m[i].1
  {
    if |m| == 0 then None
    else if m[0].0 == path then Some(m[0].1)
    else
      var r := Exact(m[1..], path);
      assert r.Some? ==> exists i :: 1 <= i < |m| && m[i].0 == path && r.value == m[i].1 by {
        if r.Some? {
          var i :| 0 <= i < |m[1..]| && m[1..][i].0 == path && r.value == m[1..][i].1;
          assert m[i + 1] == m[1..][i];
        }
      }
      assert (exists i :: 0 <= i < |m| && m[i].0 == path) ==> r.Some? by {
        if exists i :: 0 <= i < |m| && m[i].0 == path {
          var i :| 0 <= i < |m| && m[i].0 == path;
          assert m[1..][i - 1] == m[i];
        }
      }
      r
  }

  /** `path.startsWith(key + '/')`. */
  predicate Nested(path: string, key: string) {
    StartsWith(path, key + "/")
  }

  /** The index of the first key the path is nested under, if any
      (`Object.keys(pageTitleMap).find(...)`). */
  function FirstNested(m: TitleMap, path: string): (r: Option<nat>)
    ensures r.Some? ==> r.value < |m| && Nested(path, m[r.value].0)
    ensures r.Some? ==> forall j :: 0 <= j < r.value ==> !Nested(path, m[j].0)
    ensures r.None? ==> forall j :: 0 <= j < |m| ==> !Nested(path, m[j].0)
  {
    if |m| == 0 then None
    else if Nested(path, m[0].0) then Some(0)
    else
      var r := FirstNested(m[1..], path);
      assert forall j :: 1 <= j < |m| ==> m[j] == m[1..][j - 1];
      if r.None? then None else Some(r.value + 1)
  }

  /** `getPageTitle` over a table with a fallback title. */
  function PageTitle(m: TitleMap, fallback: string, path: string): string {
    var exact := Exact(m, path);
    if exact.Some? then exact.value
    else
      var nested := FirstNested(m, path);
      if nested.Some? then m[nested.value].1 else fallback
  }

  /** The keys of a table differ, and none is nested under another. */
  predicate Unrelated(m: TitleMap) {
    forall i, j :: 0 <= i < |m| && 0 <= j < |m| && i != j ==> m[i].0 != m[j].0 && !Nested(m[i].0 + "/", m[j].0)
  }

  /** An exact key gives its title; a path nested under a key gives that
      key's title; any other path gives the fallback. */
  lemma PageTitleSpec(m: TitleMap, fallback: string, path: string)
    requires Unrelated(m)
    ensures forall i :: 0 <= i < |m| && m[i].0 == path ==> PageTitle(m, fallback, path) == m[i].1
    ensures forall i :: 0 <= i < |m| && Nested(path, m[i].0) ==> PageTitle(m, fallback, path) == m[i].1
    ensures (forall i :: 0 <= i < |m| ==> m[i].0 != path && !Nested(path, m[i].0))
        ==> PageTitle(m, fallback, path) == fallback
  {
    forall i | 0 <= i < |m| && m[i].0 == path
      ensures PageTitle(m, fallback, path) == m[i].1
    {
      var j :| 0 <= j < |m| && m[j].0 == path && Exact(m, path).value == m[j].1;
      assert i == j;
    }
    forall i | 0 <= i < |m| && Nested(path, m[i].0)
      ensures PageTitle(m, fallback, path) == m[i].1
    {
      NestedNotExact(m, path, i);
      var n := FirstNested(m, path);
      if n.value != i {
        NestedTwice(path, m[i].0, m[n.value].0);
      }
    }
  }

  /** A path nested under one key of an unrelated table equals no key. */
  lemma NestedNotExact(m: TitleMap, path: string, i: nat)
    requires Unrelated(m) && i < |m| && Nested(path, m[i].0)
    ensures Exact(m, path).None?
  {
    if Exact(m, path).Some? {
      var j :| 0 <= j < |m| && m[j].0 == path;
      assert |path| > |m[i].0|;
      assert Nested(m[j].0 + "/", m[i].0) by {
        StartsWithExtend(path, "/", m[i].0 + "/");
      }
      assert false;
    }
  }

  /** A path nested under two different keys has one key nested under the
      other (or the keys are equal). */
  lemma NestedTwice(path: string, a: string, b: string)
    requires Nested(path, a) && Nested(path, b)
    ensures a == b || Nested(a + "/", b) || Nested(b + "/", a)
  {
    if |a| < |b| {
      assert (b + "/")[..|a| + 1] == path[..|b| + 1][..|a| + 1] == path[..|a| + 1] == a + "/";
    } else if |b| < |a| {
      assert (a + "/")[..|b| + 1] == path[..|a| + 1][..|b| + 1] == path[..|b| + 1] == b + "/";
    } else {
      assert a == path[..|a|] == b;
    }
  }

  /** The HMS layout: an unknown path reads "Hospital Management". */
  function HmsTitle(path: string): string {
    PageTitle(HmsTitles, "Hospital Management", path)
  }

  /** The super-admin layout: an unknown path reads "Super Admin". */
  function SuperAdminTitle(path: string): string {
    PageTitle(SuperAdminTitles, "Super Admin", path)
  }

  /** A key of the form `base + name`, the name non-empty and without '/'. */
  predicate KeyUnder(k: string, base: string) {
    |k| > |base| && k[..|base|] == base && '/' !in k[|base|..]
  }

  /** Two different keys under the same base are not nested one under the
      other. */
  lemma SiblingsNotNested(a: string, b: string, base: string)
    requires KeyUnder(a, base) && KeyUnder(b, base) && a != b
    ensures !Nested(a + "/", b)
  {
    if |b| < |a| {
      assert a[|b|] == a[|base|..][|b| - |base|] != '/';
      assert (a + "/")[..|b| + 1][|b|] != (b + "/")[|b|];
    } else if |b| == |a| {
      assert (a + "/")[..|a|] == a && (b + "/")[..|b|] == b;
    }
  }

  /** Every key of the table is under the base, and no two keys are equal. */
  predicate Flat(m: TitleMap, base: string) {
    && (forall i :: 0 <= i < |m| ==> KeyUnder(m[i].0, base))
    && (forall i, j :: 0 <= i < j < |m| ==> m[i].0 != m[j].0)
  }

  lemma FlatUnrelated(m: TitleMap, base: string)
    requires Flat(m, base)
    ensures Unrelated(m)
  {
    forall i, j | 0 <= i < |m| && 0 <= j < |m| && i != j
      ensures m[i].0 != m[j].0 && !Nested(m[i].0 + "/", m[j].0)
    {
      SiblingsNotNested(m[i].0, m[j].0, base);
    }
  }

  lemma KeyOf(base: string, name: string)
    requires name != "" && '/' !in name
    ensures KeyUnder(base + name, base)
  {
    assert (base + name)[..|base|] == base && (base + name)[|base|..] == name;
  }

  lemma HmsKeysUnder()
    ensures forall i :: 0 <= i < |HmsTitles| ==> KeyUnder(HmsTitles[i].0, "/hms/")
  {
  }

  lemma HmsKeysDistinct()
    ensures forall i, j :: 0 <= i < j < |HmsTitles| ==> HmsTitles[i].0 != HmsTitles[j].0
  {
  }

  lemma SuperAdminKeysUnder()
    ensures forall i :: 0 <= i < |SuperAdminTitles| ==> KeyUnder(SuperAdminTitles[i].0, "/super-admin/")
  {
    var base := "/super-admin/";
    forall i | 0 <= i < |SuperAdminTitles|
      ensures KeyUnder(SuperAdminTitles[i].0, base)
    {
      var name := SuperAdminTitles[i].0[|base|..];
      assert SuperAdminTitles[i].0 == base + name;
      KeyOf(base, name);
    }
  }

  lemma SuperAdminKeysDistinct()
    ensures forall i, j :: 0 <= i < j < |SuperAdminTitles| ==> SuperAdminTitles[i].0 != SuperAdminTitles[j].0
  {
  }

  /** The keys of both layouts' tables are unrelated, so the title of a
      path is the title of the key it equals or is nested under. */
  lemma TablesUnrelated()
    ensures Unrelated(HmsTitles) && Unrelated(SuperAdminTitles)
  {
    HmsKeysUnder();
    HmsKeysDistinct();
    FlatUnrelated(HmsTitles, "/hms/");
    SuperAdminKeysUnder();
    SuperAdminKeysDistinct();
    FlatUnrelated(SuperAdminTitles, "/super-admin/");
  }

  /** A nested route shows its parent's title: a doctor's pages read
      "Doctors" and the onboarding page "Hospitals"; the bare section root
      is no key and gets the fallback. */
  lemma NestedTitles(rest: string)
    ensures HmsTitle("/hms/doctors/" + rest) == "Doctors"
    ensures SuperAdminTitle("/super-admin/hospitals/" + rest) == "Hospitals"
  {
    TablesUnrelated();
    StartsWithAppend("/hms/doctors/", rest);
    PageTitleSpec(HmsTitles, "Hospital Management", "/hms/doctors/" + rest);
    assert Nested("/hms/doctors/" + rest, HmsTitles[2].0);
    StartsWithAppend("/super-admin/hospitals/", rest);
    PageTitleSpec(SuperAdminTitles, "Super Admin", "/super-admin/hospitals/" + rest);
    assert Nested("/super-admin/hospitals/" + rest, SuperAdminTitles[1].0);
  }

  lemma SectionRootTitle()
    ensures SuperAdminTitle("/super-admin") == "Super Admin"
  {
    var path := "/super-admin";
    TablesUnrelated();
    PageTitleSpec(SuperAdminTitles, "Super Admin", path);
    SuperAdminKeysUnder();
    assert forall i :: 0 <= i < |SuperAdminTitles| ==> |SuperAdminTitles[i].0| > |path|;
  }

  // ---------------------------------------------------------------------------
  // Initials

  /** `part[0]`, where the `undefined` of an empty part joins as "". */
  function Head(part: string): (r: string)
    ensures |r| <= 1
    ensures |r| == 1 ==> part != "" && r[0] == part[0]
  {
    if part == "" then "" else [part[0]]
  }

  /** `getInitials`: the first characters of the first two space-separated
      parts, in capitals. */
  function Initials(name: string): (r: string)
    ensures |r| <= 2
    ensures forall k :: 0 <= k < |r| ==> !IsAsciiLower(r[k]) && r[k] != ' '
  {
    var parts := SplitOn(name, ' ');
    ToUpper(Head(parts[0]) + if |parts| > 1 then Head(parts[1]) else "")
  }

  lemma SplitFirst(x: string, y: string)
    requires ' ' !in x
    ensures SplitOn(x + " " + y, ' ') == [x] + SplitOn(y, ' ')
  {
    var s := x + " " + y;
    var i := FirstIndex(s, ' ');
    assert s[|x|] == ' ';
    assert s[..i] == x && s[i + 1..] == y;
  }

  /** A one-word name gives its first letter and a name of two or more
      words the first letters of the first two, in capitals. */
  lemma InitialsSpec(a: string, b: string, rest: string)
    requires ' ' !in a && ' ' !in b && a != "" && b != ""
    ensures Initials(a) == [UpperChar(a[0])]
    ensures Initials(a + " " + b) == [UpperChar(a[0]), UpperChar(b[0])]
    ensures Initials(a + " " + b + " " + rest) == [UpperChar(a[0]), UpperChar(b[0])]
  {
    SplitFirst(a, b);
    SplitFirst(a, b + " " + rest);
    assert a + " " + b + " " + rest == a + " " + (b + " " + rest);
    SplitFirst(b, rest);
  }

  /** `profile?.name ?? fallback`: only a missing profile gets the fallback;
      an empty name stays empty. */
  function DisplayName(profileName: Option<string>, fallback: string): (r: string)
    ensures profileName.Some? ==> r == profileName.value
    ensures profileName.None? ==> r == fallback
  {
    if profileName.None? then fallback else profileName.value
  }

  /** With no profile the HMS layout shows "Admin" with initial "A". */
  lemma HmsDefaultName()
    ensures DisplayName(None, "Admin") == "Admin" && Initials("Admin") == "A"
  {
    InitialsSpec("Admin", "Admin", "");
  }

  /** With no profile the super-admin layout shows "Super Admin" with
      initials "SA". */
  lemma SuperAdminDefaultName()
    ensures DisplayName(None, "Super Admin") == "Super Admin" && Initials("Super Admin") == "SA"
  {
    InitialsSpec("Super", "Admin", "");
    assert "Super Admin" == "Super" + " " + "Admin";
  }
}
