/** The super-admin's four-step hospital onboarding wizard
    (src/pages/super-admin/OnboardHospital.tsx): the validation rules of each
    step, the password generator, the step machine that collects the form
    data, and the step indicator. Email validity is zod's `.email()` check,
    taken here as a parameter. */
module OnboardWizard {
  import opened Common
  import SuperAdmin

  // ---------------------------------------------------------------------------
  // Step 1: hospital information

  datatype Step1Data = Step1Data(name: string, city: string, address: string, phone: string, email: string)

  /** `/^\+?[0-9]{7,15}$/`: an optional "+" and then 7 to 15 digits. */
  predicate PhoneOk(p: string) {
    var digits := if |p| > 0 && p[0] == '+' then p[1..] else p;
    7 <= |digits| <= 15 && forall i :: 0 <= i < |digits| ==> IsDigit(digits[i])
  }

  /** A valid phone is 7 to 16 characters, all digits except a "+" that may
      only come first. */
  lemma PhoneShape(p: string)
    requires PhoneOk(p)
    ensures 7 <= |p| <= 16
    ensures forall i :: 0 <= i < |p| ==> IsDigit(p[i]) || (i == 0 && p[i] == '+')
  {
    if p[0] == '+' {
      forall i | 1 <= i < |p| ensures IsDigit(p[i]) {
        assert p[i] == p[1..][i - 1];
      }
    }
  }

  predicate Step1Valid(d: Step1Data, isEmail: string -> bool) {
    && |d.name| >= 2
    && |d.city| >= 2
    && |d.address| >= 5
    && PhoneOk(d.phone)
    && isEmail(d.email)
  }

  // ---------------------------------------------------------------------------
  // Step 2: subscription plan

  /** The value each plan has in the form. */
  function PlanValue(p: SuperAdmin.Plan): string {
    match p
    case Basic => "basic"
    case Growth => "growth"
    case Enterprise => "enterprise"
  }

  /** `z.enum(['basic', 'growth', 'enterprise'])`. */
  function ParsePlan(s: string): (r: Option<SuperAdmin.Plan>)
    ensures r.Some? <==> s == "basic" || s == "growth" || s == "enterprise"
  {
    if s == "basic" then Some(SuperAdmin.Basic)
    else if s == "growth" then Some(SuperAdmin.Growth)
    else if s == "enterprise" then Some(SuperAdmin.Enterprise)
    else None
  }

  /** The enum accepts exactly the three plan values, each as its own plan. */
  lemma PlanRoundTrip(p: SuperAdmin.Plan, s: string)
    ensures ParsePlan(PlanValue(p)) == Some(p)
    ensures ParsePlan(s) == Some(p) ==> s == PlanValue(p)
  {
  }

  // ---------------------------------------------------------------------------
  // Step 3: administrator account

  datatype Step3Data = Step3Data(adminName: string, adminEmail: string, adminPassword: string)

  /** Some character of `s` satisfies `q` (a regex test such as `/[A-Z]/`). */
  predicate Has(s: string, q: char -> bool) {
    exists i :: 0 <= i < |s| && q(s[i])
  }

  predicate NotAlnum(c: char) { !IsAsciiAlnum(c) }

  /** At least 10 characters, with an uppercase letter, a digit and a
      character outside `[A-Za-z0-9]`. */
  predicate PasswordOk(pw: string) {
    |pw| >= 10 && Has(pw, IsAsciiUpper) && Has(pw, IsDigit) && Has(pw, NotAlnum)
  }

  predicate Step3Valid(d: Step3Data, isEmail: string -> bool) {
    |d.adminName| >= 2 && isEmail(d.adminEmail) && PasswordOk(d.adminPassword)
  }

  // ---------------------------------------------------------------------------
  // Password generator

  const Upper := "ABCDEFGHIJKLMNOPQRSTUVWXYZ"
  const Lower := "abcdefghijklmnopqrstuvwxyz"
  const Digits := "0123456789"
  const Special := "!@#$%^&*()_+-="
  const All := Upper + Lower + Digits + Special
  const PasswordLength := 14

  predicate IsSpecial(c: char) { c in Special }

  /** A draw of `Math.random()`. */
  predicate Unit(d: real) { 0.0 <= d < 1.0 }

  /** `s[Math.floor(d * s.length)]`. */
  function Rand(s: string, d: real): (c: char)
    requires |s| > 0 && Unit(d)
    ensures c in s
  {
    var n := |s| as real;
    assert d * n < n by {
      assert (1.0 - d) * n > 0.0;
    }
    s[(d * n).Floor]
  }

  /** The character class the `i`-th character is drawn from: two each of
      upper, lower, digit and special, then six from all of them. */
  function ClassOf(i: nat): string {
    if i < 2 then Upper else if i < 4 then Lower else if i < 6 then Digits
    else if i < 8 then Special else All
  }

  /** The 14 characters before the shuffle, one per draw. */
  function Drawn(draws: seq<real>): (r: string)
    requires |draws| == PasswordLength && forall i :: 0 <= i < |draws| ==> Unit(draws[i])
    ensures |r| == PasswordLength
  {
    seq(PasswordLength, i requires 0 <= i < PasswordLength => Rand(ClassOf(i), draws[i]))
  }

  /** The first eight draws pick two characters from each class in turn. */
  lemma DrawnPrefix(draws: seq<real>)
    requires |draws| == PasswordLength && forall i :: 0 <= i < |draws| ==> Unit(draws[i])
    ensures Drawn(draws)[..8] ==
      [Rand(Upper, draws[0]), Rand(Upper, draws[1]), Rand(Lower, draws[2]), Rand(Lower, draws[3]),
       Rand(Digits, draws[4]), Rand(Digits, draws[5]), Rand(Special, draws[6]), Rand(Special, draws[7])]
  {
  }

  /** Every draw after the eighth picks from all the characters. */
  lemma DrawnStep(draws: seq<real>, i: nat)
    requires |draws| == PasswordLength && forall i :: 0 <= i < |draws| ==> Unit(draws[i])
    requires 8 <= i < PasswordLength
    ensures Drawn(draws)[..i + 1] == Drawn(draws)[..i] + [Rand(All, draws[i])]
  {
    var d := Drawn(draws);
    assert ClassOf(i) == All;
    assert d[i] == Rand(ClassOf(i), draws[i]);
    assert d[..i + 1] == d[..i] + [d[i]];
  }

  /** `xs` with `x` inserted before position `k`. */
  function InsertAt(xs: string, k: nat, x: char): (r: string)
    requires k <= |xs|
    ensures multiset(r) == multiset(xs) + multiset{x}
  {
    assert xs == xs[..k] + xs[k..];
    xs[..k] + [x] + xs[k..]
  }

  /** The shuffle of `split('').sort(() => Math.random() - 0.5)`: the random
      comparisons decide where each character lands, given here as the
      position `slots[i] <= i` at which the `i`-th character is inserted
      among those before it (every order can come out this way). */
  function Shuffle(s: string, slots: seq<nat>): (r: string)
    requires |slots| == |s| && forall i :: 0 <= i < |s| ==> slots[i] <= i
    ensures |r| == |s|
    ensures multiset(r) == multiset(s)
  {
    if |s| == 0 then ""
    else
      var n := |s| - 1;
      assert s == s[..n] + [s[n]];
      InsertAt(Shuffle(s[..n], slots[..n]), slots[n], s[n])
  }

  /** Two different positions of `s` hold characters satisfying `q` ("at
      least two of that kind"). */
  predicate TwoOf(s: string, q: char -> bool) {
    exists i, j :: 0 <= i < j < |s| && q(s[i]) && q(s[j])
  }

  /** A character that occurs at least twice has two positions. */
  lemma {:induction false} TwoPositions(s: string, c: char)
    requires multiset(s)[c] >= 2
    ensures exists i, j :: 0 <= i < j < |s| && s[i] == c && s[j] == c
  {
    var n := |s| - 1;
    assert s == s[..n] + [s[n]];
    if s[n] == c {
      assert c in multiset(s[..n]);
      var i :| 0 <= i < n && s[..n][i] == c;
      assert s[i] == c;
    } else {
      TwoPositions(s[..n], c);
      var i, j :| 0 <= i < j < n && s[..n][i] == c && s[..n][j] == c;
      assert s[i] == c && s[j] == c;
    }
  }

  /** Two positions holding the same character make it occur twice. */
  lemma TwiceCounted(s: string, i: nat, j: nat)
    requires i < j < |s| && s[i] == s[j]
    ensures multiset(s)[s[i]] >= 2
  {
    assert s == s[..j] + [s[j]] + s[j + 1..];
    assert s[..j][i] == s[i];
  }

  /** Reordering keeps "at least two of a kind". */
  lemma TwoOfPermutation(s: string, t: string, q: char -> bool)
    requires multiset(s) == multiset(t) && TwoOf(s, q)
    ensures TwoOf(t, q)
  {
    var i, j :| 0 <= i < j < |s| && q(s[i]) && q(s[j]);
    if s[i] == s[j] {
      TwiceCounted(s, i, j);
      TwoPositions(t, s[i]);
    } else {
      assert s[i] in multiset(t) && s[j] in multiset(t);
      var k :| 0 <= k < |t| && t[k] == s[i];
      var l :| 0 <= l < |t| && t[l] == s[j];
      if k < l {
        assert q(t[k]) && q(t[l]);
      } else {
        assert q(t[l]) && q(t[k]);
      }
    }
  }

  /** The kind the `i`-th drawn character has. */
  predicate InClass(i: nat, c: char) {
    if i < 2 then IsAsciiUpper(c)
    else if i < 4 then IsAsciiLower(c)
    else if i < 6 then IsDigit(c)
    else if i < 8 then IsSpecial(c)
    else true
  }

  lemma UpperChars(c: char)
    requires c in Upper
    ensures IsAsciiUpper(c)
  {
  }

  lemma LowerChars(c: char)
    requires c in Lower
    ensures IsAsciiLower(c)
  {
  }

  lemma DigitChars(c: char)
    requires c in Digits
    ensures IsDigit(c)
  {
  }

  /** The special characters are outside `[A-Za-z0-9]`. */
  lemma SpecialChars(c: char)
    requires IsSpecial(c)
    ensures NotAlnum(c)
  {
  }

  lemma ClassChars(i: nat, c: char)
    requires c in ClassOf(i)
    ensures InClass(i, c)
  {
    if i < 2 {
      UpperChars(c);
    } else if i < 4 {
      LowerChars(c);
    } else if i < 6 {
      DigitChars(c);
    }
  }

  /** The first eight draws give two uppercase letters, two lowercase
      letters, two digits and two special characters, in that order. */
  lemma DrawnClasses(draws: seq<real>)
    requires |draws| == PasswordLength && forall i :: 0 <= i < |draws| ==> Unit(draws[i])
    ensures var p := Drawn(draws);
      && TwoOf(p, IsAsciiUpper) && TwoOf(p, IsAsciiLower)
      && TwoOf(p, IsDigit) && TwoOf(p, IsSpecial)
  {
    var p := Drawn(draws);
    forall i | 0 <= i < 8 ensures InClass(i, p[i]) {
      ClassChars(i, p[i]);
    }
    assert InClass(0, p[0]) && InClass(1, p[1]) && InClass(2, p[2]) && InClass(3, p[3]);
    assert InClass(4, p[4]) && InClass(5, p[5]) && InClass(6, p[6]) && InClass(7, p[7]);
  }

  /** `generatePassword`, with the 14 `Math.random()` draws that pick the
      characters and the shuffle's outcome as parameters. The result is a
      reordering of the drawn characters, has 14 characters with at least two
      of each class, and always passes the step-3 password rules. */
  method GeneratePassword(draws: seq<real>, slots: seq<nat>) returns (pwd: string)
    requires |draws| == PasswordLength && forall i :: 0 <= i < |draws| ==> Unit(draws[i])
    requires |slots| == PasswordLength && forall i :: 0 <= i < |slots| ==> slots[i] <= i
    ensures pwd == Shuffle(Drawn(draws), slots)
    ensures |pwd| == PasswordLength && multiset(pwd) == multiset(Drawn(draws))
    ensures TwoOf(pwd, IsAsciiUpper) && TwoOf(pwd, IsAsciiLower)
    ensures TwoOf(pwd, IsDigit) && TwoOf(pwd, IsSpecial)
    ensures PasswordOk(pwd)
  {
    var drawn := Drawn(draws);
    var p := [Rand(Upper, draws[0]), Rand(Upper, draws[1]), Rand(Lower, draws[2]), Rand(Lower, draws[3]),
              Rand(Digits, draws[4]), Rand(Digits, draws[5]), Rand(Special, draws[6]), Rand(Special, draws[7])];
    DrawnPrefix(draws);
    var i := |p|;
    while i < PasswordLength
      invariant 8 <= i <= PasswordLength
      invariant p == drawn[..i]
    {
      DrawnStep(draws, i);
      p := p + [Rand(All, draws[i])];
      i := i + 1;
    }
    assert p == drawn;
    pwd := Shuffle(p, slots);
    ShuffledPassword(draws, slots);
  }

  /** Whatever the shuffle does, the password keeps two characters of each
      class and passes the step-3 rules. */
  lemma ShuffledPassword(draws: seq<real>, slots: seq<nat>)
    requires |draws| == PasswordLength && forall i :: 0 <= i < |draws| ==> Unit(draws[i])
    requires |slots| == PasswordLength && forall i :: 0 <= i < |slots| ==> slots[i] <= i
    ensures var pwd := Shuffle(Drawn(draws), slots);
      && TwoOf(pwd, IsAsciiUpper) && TwoOf(pwd, IsAsciiLower)
      && TwoOf(pwd, IsDigit) && TwoOf(pwd, IsSpecial)
      && PasswordOk(pwd)
  {
    var drawn := Drawn(draws);
    var pwd := Shuffle(drawn, slots);
    DrawnClasses(draws);
    TwoOfPermutation(drawn, pwd, IsAsciiUpper);
    TwoOfPermutation(drawn, pwd, IsAsciiLower);
    TwoOfPermutation(drawn, pwd, IsDigit);
    TwoOfPermutation(drawn, pwd, IsSpecial);
    var k, l :| 0 <= k < l < |pwd| && IsSpecial(pwd[k]) && IsSpecial(pwd[l]);
    SpecialChars(pwd[k]);
  }

  // ---------------------------------------------------------------------------
  // The wizard

  /** `Partial<AllFormData>`: the values collected so far. */
  datatype FormData = FormData(
    name: Option<string>, city: Option<string>, address: Option<string>,
    phone: Option<string>, email: Option<string>,
    plan: Option<string>,
    adminName: Option<string>, adminEmail: Option<string>, adminPassword: Option<string>)

  const NoData := FormData(None, None, None, None, None, None, None, None, None)

  /** `{ ...prev, ...data }` for each step: the step's values win. */
  function WithStep1(f: FormData, d: Step1Data): FormData {
    f.(name := Some(d.name), city := Some(d.city), address := Some(d.address),
       phone := Some(d.phone), email := Some(d.email))
  }

  function WithPlan(f: FormData, plan: string): FormData {
    f.(plan := Some(plan))
  }

  function WithStep3(f: FormData, d: Step3Data): FormData {
    f.(adminName := Some(d.adminName), adminEmail := Some(d.adminEmail), adminPassword := Some(d.adminPassword))
  }

  predicate HasStep1(f: FormData, isEmail: string -> bool) {
    && f.name.Some? && f.city.Some? && f.address.Some? && f.phone.Some? && f.email.Some?
    && Step1Valid(Step1Data(f.name.value, f.city.value, f.address.value, f.phone.value, f.email.value), isEmail)
  }

  predicate HasPlan(f: FormData) {
    f.plan.Some? && ParsePlan(f.plan.value).Some?
  }

  predicate HasStep3(f: FormData, isEmail: string -> bool) {
    && f.adminName.Some? && f.adminEmail.Some? && f.adminPassword.Some?
    && Step3Valid(Step3Data(f.adminName.value, f.adminEmail.value, f.adminPassword.value), isEmail)
  }

  /** The payload `handleSubmit` sends. */
  datatype Payload = Payload(hospital: Step1Data, plan: SuperAdmin.Plan, admin: Step3Data)

  /** What `createHospital` reads of the payload: the step-1 fields and the
      plan. The payload has no website and no coordinates. */
  function HospitalData(p: Payload): (d: SuperAdmin.CreateHospitalData)
    ensures d.name == p.hospital.name && d.city == p.hospital.city && d.address == p.hospital.address
    ensures d.phone == p.hospital.phone && d.email == p.hospital.email && d.plan == p.plan
    ensures d.website.None? && d.lat.None? && d.lng.None?
  {
    SuperAdmin.CreateHospitalData(p.hospital.name, p.hospital.city, p.hospital.address, p.hospital.phone,
                                  p.hospital.email, None, p.plan, None, None)
  }

  /** The remote calls of a submit. */
  datatype Call =
    | CreateHospitalCall(data: SuperAdmin.CreateHospitalData)
    | CreateAdminCall(hospitalId: string, admin: Step3Data)

  /** The calls `handleSubmit` makes as written: `createHospital` alone. */
  function SubmitCalls(p: Payload): seq<Call> {
    [CreateHospitalCall(HospitalData(p))]
  }

  /** As written the administrator's fields go nowhere: no call creates an
      administrator, and a payload with other administrator data stores the
      same hospital row. */
  lemma AdminAccountNeverCreated(p: Payload, other: Step3Data, nowIso: string, today: SuperAdmin.CivilDate)
    requires SuperAdmin.ValidDate(today)
    ensures forall c :: c in SubmitCalls(p) ==> !c.CreateAdminCall?
    ensures SubmitCalls(p.(admin := other)) == SubmitCalls(p)
    ensures SuperAdmin.NewHospital(HospitalData(p), nowIso, today)
         == SuperAdmin.NewHospital(HospitalData(p.(admin := other)), nowIso, today)
  {
  }

  /** The calls a submit evidently means to make, as the single-page form
      does: the hospital first, then, for a hospital that came back with
      `hospitalId`, its administrator with the data of step 3. */
  function CorrectedCalls(p: Payload, hospitalId: Option<string>): seq<Call> {
    [CreateHospitalCall(HospitalData(p))]
      + (if hospitalId.Some? then [CreateAdminCall(hospitalId.value, p.admin)] else [])
  }

  /** The corrected submit creates the hospital first, and an administrator
      exactly when the hospital came back, linked to it and carrying the
      step-3 name, email and password. */
  lemma CorrectedCreatesAdmin(p: Payload, hospitalId: Option<string>)
    ensures var r := CorrectedCalls(p, hospitalId);
      && r[0] == CreateHospitalCall(HospitalData(p))
      && ((exists c :: c in r && c.CreateAdminCall?) <==> hospitalId.Some?)
      && (forall c :: c in r && c.CreateAdminCall? ==> c.hospitalId == hospitalId.value && c.admin == p.admin)
  {
    var r := CorrectedCalls(p, hospitalId);
    if hospitalId.Some? {
      assert r[1] == CreateAdminCall(hospitalId.value, p.admin);
    }
  }

  datatype Mark = Done | Active | Upcoming

  /** `StepIndicator`: step `k` (1..3) is done exactly when it is below the
      current one, and active when it is the current one. */
  function Indicator(current: int): (r: seq<Mark>)
    ensures |r| == 3
    ensures forall k :: 0 <= k < 3 ==> (r[k] == Done <==> k + 1 < current)
    ensures forall k :: 0 <= k < 3 ==> (r[k] == Active <==> k + 1 == current)
  {
    seq(3, k requires 0 <= k < 3 => if k + 1 < current then Done else if k + 1 == current then Active else Upcoming)
  }

  /** The indicator is drawn with `Math.min(step, 3)`: on the review step the
      third step shows as active, not done, and every step shows exactly one
      active mark. */
  lemma IndicatorOfStep(step: int)
    requires 1 <= step <= 4
    ensures var r := Indicator(if step < 3 then step else 3);
      && (step == 4 ==> r == [Done, Done, Active])
      && (forall k, l :: 0 <= k < 3 && 0 <= l < 3 && r[k] == Active && r[l] == Active ==> k == l)
      && (exists k :: 0 <= k < 3 && r[k] == Active)
  {
    var r := Indicator(if step < 3 then step else 3);
    var a := if step < 3 then step - 1 else 2;
    assert r[a] == Active;
  }

  /** The page's state: the current step (1..4, 4 being the review) and the
      data collected so far. */
  class Wizard {
    const isEmail: string -> bool
    var step: int
    var formData: FormData

    /** Reaching a step means every earlier step was submitted with valid
        data, so the review step holds a complete, valid payload. */
    predicate Valid()
      reads this
    {
      && 1 <= step <= 4
      && (step >= 2 ==> HasStep1(formData, isEmail))
      && (step >= 3 ==> HasPlan(formData))
      && (step == 4 ==> HasStep3(formData, isEmail))
    }

    constructor (isEmail: string -> bool)
      ensures Valid()
      ensures this.isEmail == isEmail && step == 1 && formData == NoData
    {
      this.isEmail := isEmail;
      step := 1;
      formData := NoData;
    }

    /** `handleStep1`, reached only through the step-1 form, which submits
        valid data only. */
    method Next1(d: Step1Data)
      requires Valid() && step == 1
      modifies this
      ensures Valid()
      ensures Step1Valid(d, isEmail) ==> formData == WithStep1(old(formData), d) && step == 2
      ensures !Step1Valid(d, isEmail) ==> formData == old(formData) && step == 1
    {
      if Step1Valid(d, isEmail) {
        formData := WithStep1(formData, d);
        step := 2;
      }
    }

    /** `handleStep2`; the plan is `undefined` until a plan card is clicked. */
    method Next2(plan: Option<string>)
      requires Valid() && step == 2
      modifies this
      ensures Valid()
      ensures plan.Some? && ParsePlan(plan.value).Some? ==> formData == WithPlan(old(formData), plan.value) && step == 3
      ensures !(plan.Some? && ParsePlan(plan.value).Some?) ==> formData == old(formData) && step == 2
    {
      if plan.Some? && ParsePlan(plan.value).Some? {
        formData := WithPlan(formData, plan.value);
        step := 3;
      }
    }

    /** `handleStep3`. */
    method Next3(d: Step3Data)
      requires Valid() && step == 3
      modifies this
      ensures Valid()
      ensures Step3Valid(d, isEmail) ==> formData == WithStep3(old(formData), d) && step == 4
      ensures !Step3Valid(d, isEmail) ==> formData == old(formData) && step == 3
    {
      if Step3Valid(d, isEmail) {
        formData := WithStep3(formData, d);
        step := 4;
      }
    }

    /** The Back buttons of steps 2, 3 and 4; the collected data stays. */
    method Back()
      requires Valid() && step >= 2
      modifies this
      ensures Valid()
      ensures step == old(step) - 1 && formData == old(formData)
    {
      step := step - 1;
    }

    /** `formData as AllFormData` on the review step: the cast is sound, since
        every field is present and passed its step's validation. */
    method ReviewPayload() returns (p: Payload)
      requires Valid() && step == 4
      ensures Step1Valid(p.hospital, isEmail) && Step3Valid(p.admin, isEmail)
      ensures Some(p.hospital.name) == formData.name && Some(p.hospital.email) == formData.email
      ensures Some(p.hospital.city) == formData.city && Some(p.hospital.address) == formData.address
      ensures Some(p.hospital.phone) == formData.phone
      ensures Some(PlanValue(p.plan)) == formData.plan
      ensures Some(p.admin.adminName) == formData.adminName
      ensures Some(p.admin.adminPassword) == formData.adminPassword
      ensures Some(p.admin.adminEmail) == formData.adminEmail
    {
      var f := formData;
      var plan := ParsePlan(f.plan.value).value;
      PlanRoundTrip(plan, f.plan.value);
      p := Payload(
        Step1Data(f.name.value, f.city.value, f.address.value, f.phone.value, f.email.value),
        plan,
        Step3Data(f.adminName.value, f.adminEmail.value, f.adminPassword.value));
    }

    /** `handleSubmit`: the payload goes to `createHospital`, and the page
        moves to the hospital list once the hospital is `created`. The
        administrator entered in step 3 is never created. */
    method Submit(created: bool) returns (calls: seq<Call>, location: Option<string>)
      requires Valid() && step == 4
      ensures |calls| == 1 && calls[0].CreateHospitalCall?
      ensures var d := calls[0].data;
        && Some(d.name) == formData.name && Some(d.city) == formData.city
        && Some(d.address) == formData.address && Some(d.phone) == formData.phone
        && Some(d.email) == formData.email && Some(PlanValue(d.plan)) == formData.plan
        && Step1Valid(Step1Data(d.name, d.city, d.address, d.phone, d.email), isEmail)
      ensures location == if created then Some("/super-admin/hospitals") else None
    {
      var p := ReviewPayload();
      calls := SubmitCalls(p);
      location := if created then Some("/super-admin/hospitals") else None;
    }

    /** The submit with the administrator created after the hospital: its
        account carries the step-3 data, whose password passed the step-3
        rules, and the page moves on only when both calls succeed. */
    method SubmitCorrected(hospitalId: Option<string>, adminCreated: bool) returns (calls: seq<Call>, location: Option<string>)
      requires Valid() && step == 4
      ensures 1 <= |calls| <= 2 && calls[0].CreateHospitalCall?
      ensures |calls| == 2 <==> hospitalId.Some?
      ensures |calls| == 2 ==>
        && calls[1].CreateAdminCall? && calls[1].hospitalId == hospitalId.value
        && Some(calls[1].admin.adminName) == formData.adminName
        && Some(calls[1].admin.adminEmail) == formData.adminEmail
        && Some(calls[1].admin.adminPassword) == formData.adminPassword
        && Step3Valid(calls[1].admin, isEmail)
      ensures location == if hospitalId.Some? && adminCreated then Some("/super-admin/hospitals") else None
    {
      var p := ReviewPayload();
      calls := CorrectedCalls(p, hospitalId);
      location := if hospitalId.Some? && adminCreated then Some("/super-admin/hospitals") else None;
    }
  }
}
