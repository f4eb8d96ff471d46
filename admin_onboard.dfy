/** The single-page hospital onboarding form (src/pages/admin/OnboardHospital.tsx):
    its validation rules and what a submit does. The hospital is created
    first; the administrator is created only for a hospital that came back.
    The outcomes of the two remote calls are parameters. */
module AdminOnboard {
  import opened Common
  import SuperAdmin
  import OnboardWizard

  datatype FormValues = FormValues(
    name: string,
    subdomain: string,
    city: string,
    adminName: string,
    adminEmail: string,
    adminPassword: string,
    plan: string)

  /** The form's initial values: everything empty and the growth plan. */
  const Defaults := FormValues("", "", "", "", "", "", "growth")

  /** `min(3)` and `/^[a-z0-9-]+$/`. */
  predicate SubdomainOk(s: string) {
    |s| >= 3 && forall i :: 0 <= i < |s| ==> SuperAdmin.IsSubdomainChar(s[i])
  }

  /** `formSchema`; email validity is zod's `.email()`, a parameter here. */
  predicate FormValid(v: FormValues, isEmail: string -> bool) {
    && |v.name| >= 2
    && SubdomainOk(v.subdomain)
    && |v.city| >= 2
    && |v.adminName| >= 2
    && isEmail(v.adminEmail)
    && |v.adminPassword| >= 8
    && OnboardWizard.ParsePlan(v.plan).Some?
  }

  /** The plan starts as growth, and the empty initial form does not pass. */
  lemma DefaultsSpec(isEmail: string -> bool)
    ensures OnboardWizard.ParsePlan(Defaults.plan) == Some(SuperAdmin.Growth)
    ensures !FormValid(Defaults, isEmail)
  {
  }

  /** The subdomain rule is weaker than the slug `createHospital` builds:
      "a--" passes the form but is not a slug. */
  lemma SubdomainNotSlug()
    ensures SubdomainOk("a--") && !SuperAdmin.IsSlug("a--")
  {
    assert SuperAdmin.DashPair("a--", 1);
  }

  /** The data passed to `createHospital`: the city doubles as the address,
      the admin email as the hospital email, the phone is empty, and the
      form's subdomain is not sent. */
  function HospitalData(v: FormValues): (d: SuperAdmin.CreateHospitalData)
    requires OnboardWizard.ParsePlan(v.plan).Some?
    ensures d.name == v.name && d.city == v.city && d.address == v.city
    ensures d.phone == "" && d.email == v.adminEmail
    ensures OnboardWizard.PlanValue(d.plan) == v.plan
    ensures d.website.None? && d.lat.None? && d.lng.None?
  {
    var plan := OnboardWizard.ParsePlan(v.plan).value;
    OnboardWizard.PlanRoundTrip(plan, v.plan);
    SuperAdmin.CreateHospitalData(v.name, v.city, v.city, "", v.adminEmail, None, plan, None, None)
  }

  /** The subdomain the new hospital gets comes from its name alone: two
      forms that differ only in the subdomain field create the same row. */
  lemma SubdomainIgnored(v: FormValues, other: string, nowIso: string, today: SuperAdmin.CivilDate)
    requires OnboardWizard.ParsePlan(v.plan).Some? && SuperAdmin.ValidDate(today)
    ensures SuperAdmin.NewHospital(HospitalData(v), nowIso, today)
         == SuperAdmin.NewHospital(HospitalData(v.(subdomain := other)), nowIso, today)
    ensures SuperAdmin.NewHospital(HospitalData(v), nowIso, today).subdomain == SuperAdmin.Slug(v.name)
  {
  }

  datatype AdminRequest = AdminRequest(hospitalId: string, email: string, name: string, password: string)

  datatype Call =
    | CreateHospitalCall(data: SuperAdmin.CreateHospitalData)
    | CreateAdminCall(request: AdminRequest)

  datatype Notice = Notice(title: string, description: string, destructive: bool)

  const DefaultError := "Failed to onboard hospital. Please try again."
  const NoHospitalError := "Failed to create hospital"

  /** `error.message || "Failed to onboard ..."`. */
  function ErrorNotice(message: string): (n: Notice)
    ensures n.destructive && n.title == "Error"
    ensures n.description == if message == "" then DefaultError else message
  {
    Notice("Error", if message == "" then DefaultError else message, true)
  }

  function SuccessNotice(name: string): Notice {
    Notice("Hospital Onboarded", name + " has been successfully registered with admin access.", false)
  }

  /** The remote calls a submit makes: `hospital` is what `createHospital`
      gave (`Err` when it threw, `Ok(None)` when it returned nothing,
      `Ok(Some(id))` for a created hospital). */
  function Requests(v: FormValues, hospital: Result<Option<string>>): (r: seq<Call>)
    requires OnboardWizard.ParsePlan(v.plan).Some?
    ensures 1 <= |r| <= 2 && r[0] == CreateHospitalCall(HospitalData(v))
    ensures |r| == 2 <==> hospital.Ok? && hospital.value.Some?
    ensures |r| == 2 ==> r[1] == CreateAdminCall(AdminRequest(hospital.value.value, v.adminEmail, v.adminName, v.adminPassword))
  {
    var first := [CreateHospitalCall(HospitalData(v))];
    match hospital
    case Ok(Some(id)) => first + [CreateAdminCall(AdminRequest(id, v.adminEmail, v.adminName, v.adminPassword))]
    case _ => first
  }

  /** The one notice a submit shows, and whether it navigates away. */
  function Outcome(v: FormValues, hospital: Result<Option<string>>, admin: Result<()>): (r: (Notice, bool))
    ensures r.1 <==> hospital.Ok? && hospital.value.Some? && admin.Ok?
    ensures r.1 ==> r.0 == SuccessNotice(v.name)
    ensures !r.1 ==> r.0.destructive
    ensures hospital == Ok(None) ==> r.0 == ErrorNotice(NoHospitalError)
  {
    match hospital
    case Err(e) => (ErrorNotice(e), false)
    case Ok(None) => (ErrorNotice(NoHospitalError), false)
    case Ok(Some(_)) =>
      match admin
      case Err(e) => (ErrorNotice(e), false)
      case Ok(_) => (SuccessNotice(v.name), true)
  }

  /** The page's state and what it has done: the loading flag, the remote
      calls made, the notices shown and the last navigation. */
  class OnboardPage {
    var isLoading: bool
    var calls: seq<Call>
    var notices: seq<Notice>
    var location: Option<string>

    constructor ()
      ensures !isLoading && calls == [] && notices == [] && location == None
    {
      isLoading := false;
      calls := [];
      notices := [];
      location := None;
    }

    /** `onSubmit`, called by the form with values that passed `formSchema`. */
    method OnSubmit(v: FormValues, isEmail: string -> bool, hospital: Result<Option<string>>, admin: Result<()>)
      requires FormValid(v, isEmail)
      modifies this
      ensures !isLoading
      ensures calls == old(calls) + Requests(v, hospital)
      ensures notices == old(notices) + [Outcome(v, hospital, admin).0]
      ensures location == if Outcome(v, hospital, admin).1 then Some("/admin/hospitals") else old(location)
    {
      isLoading := true;
      calls := calls + [CreateHospitalCall(HospitalData(v))];
      if hospital.Err? {
        notices := notices + [ErrorNotice(hospital.error)];
      } else if hospital.value.None? {
        notices := notices + [ErrorNotice(NoHospitalError)];
      } else {
        var id := hospital.value.value;
        calls := calls + [CreateAdminCall(AdminRequest(id, v.adminEmail, v.adminName, v.adminPassword))];
        if admin.Err? {
          notices := notices + [ErrorNotice(admin.error)];
        } else {
          notices := notices + [SuccessNotice(v.name)];
          location := Some("/admin/hospitals");
        }
      }
      isLoading := false;
    }
  }
}
