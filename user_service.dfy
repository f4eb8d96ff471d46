/** The `users` table, the fixed city table used to place a user on the map,
    and the medical-record summaries the engine lists. */
module UserService {
  import opened Common
  import opened Domain

  /** A row of `users`. Coordinates are degrees. */
  datatype UserRow = UserRow(
    id: string,
    phone: string,
    name: Option<string>,
    age: Option<int>,
    preferredLanguage: string,
    city: Option<string>,
    latitude: Option<real>,
    longitude: Option<real>,
    whatsappName: Option<string>,
    registeredVia: string)

  /** What registration hands to `createUser`; absent fields are undefined
      (registration passes the name from the conversation context, which may
      lack it, and an undefined name is stored as null). */
  datatype NewUser = NewUser(
    phone: string,
    name: Option<string>,
    age: Option<int>,
    preferredLanguage: Option<string>,
    city: Option<string>,
    latitude: Option<real>,
    longitude: Option<real>,
    whatsappName: Option<string>)

  /** The row `createUser` inserts under the id the database assigns. */
  function NewUserRow(id: string, d: NewUser): (u: UserRow)
    ensures u.id == id && u.phone == d.phone && u.name == d.name
    ensures u.preferredLanguage == d.preferredLanguage.GetOr("English")
    ensures d.preferredLanguage.None? ==> u.preferredLanguage == "English"
    ensures u.age == d.age && u.city == d.city && u.latitude == d.latitude
      && u.longitude == d.longitude && u.whatsappName == d.whatsappName
    ensures u.registeredVia == "whatsapp"
  {
    UserRow(id, d.phone, d.name, d.age, d.preferredLanguage.GetOr("English"),
      d.city, d.latitude, d.longitude, d.whatsappName, "whatsapp")
  }

  /** The users table, one row per phone number. */
  class UserStore {
    var users: map<string, UserRow>

    ghost predicate Valid()
      reads this
    {
      forall p :: p in users ==> users[p].phone == p
    }

    constructor()
      ensures Valid() && users == map[]
    {
      users := map[];
    }

    /** `findUserByPhone`: the user registered with that phone, or null. */
    function FindByPhone(phone: string): (r: Option<UserRow>)
      reads this
      requires Valid()
      ensures r.None? <==> phone !in users
      ensures r.Some? ==> r.value.phone == phone && r.value in users.Values
    {
      if phone in users then Some(users[phone]) else None
    }

    /** `createUser`: inserts the row with its defaults and returns it; an
        insert the database rejects (reported by `insertOk`, or a second row
        for the same phone) throws and changes nothing. */
    method CreateUser(d: NewUser, freshId: string, insertOk: bool) returns (r: Result<UserRow>)
      requires Valid()
      modifies this
      ensures Valid()
      ensures insertOk && d.phone !in old(users) ==>
        r == Ok(NewUserRow(freshId, d)) && users == old(users)[d.phone := NewUserRow(freshId, d)]
      ensures !(insertOk && d.phone !in old(users)) ==> r.Err? && users == old(users)
    {
      if !insertOk || d.phone in users {
        return Err("Failed to create user");
      }
      var row := NewUserRow(freshId, d);
      users := users[d.phone := row];
      r := Ok(row);
    }
  }

  // ---------------------------------------------------------------------------
  // Geocoding

  datatype LatLng = LatLng(lat: real, lng: real)

  /** The fixed lookup table, keyed by lower-case name. */
  const Cities: map<string, LatLng> := map[
    "hyderabad" := LatLng(17.3850, 78.4867),
    "banjara hills" := LatLng(17.4239, 78.4738),
    "secunderabad" := LatLng(17.4400, 78.4980),
    "bangalore" := LatLng(12.9716, 77.5946),
    "bengaluru" := LatLng(12.9716, 77.5946),
    "mumbai" := LatLng(19.0760, 72.8777),
    "delhi" := LatLng(28.6139, 77.2090),
    "new delhi" := LatLng(28.6139, 77.2090),
    "chennai" := LatLng(13.0827, 80.2707),
    "kolkata" := LatLng(22.5726, 88.3639),
    "pune" := LatLng(18.5204, 73.8567)
  ]

  datatype Geocoded = Geocoded(city: string, latitude: Option<real>, longitude: Option<real>)

  /** `geocodeLocation`: the lower-cased, trimmed text is looked up as an exact
      key. A hit gives its coordinates, a miss gives none, and the city is
      always the text as typed. */
  function GeocodeLocation(text: string): (g: Geocoded)
    ensures g.city == text
    ensures var key := Trim(ToLower(text));
      && (key in Cities ==> g.latitude == Some(Cities[key].lat) && g.longitude == Some(Cities[key].lng))
      && (key !in Cities ==> g.latitude.None? && g.longitude.None?)
  {
    var key := Trim(ToLower(text));
    if key in Cities then Geocoded(text, Some(Cities[key].lat), Some(Cities[key].lng))
    else Geocoded(text, None, None)
  }

  /** The aliases of Bengaluru and of Delhi share their coordinates. */
  lemma CityAliases()
    ensures Cities["bangalore"] == Cities["bengaluru"]
    ensures Cities["delhi"] == Cities["new delhi"]
  {
  }

  /** The lookup ignores letter case: an upper-cased text finds the same place. */
  lemma {:induction false} GeocodeIgnoresCase(text: string)
    ensures GeocodeLocation(ToUpper(text)).latitude == GeocodeLocation(text).latitude
    ensures GeocodeLocation(ToUpper(text)).longitude == GeocodeLocation(text).longitude
  {
    assert ToLower(ToUpper(text)) == ToLower(text) by {
      forall i | 0 <= i < |text|
        ensures ToLower(ToUpper(text))[i] == ToLower(text)[i]
      {
        var c := text[i];
        assert ToUpper(text)[i] == UpperChar(c);
      }
    }
  }

  // ---------------------------------------------------------------------------
  // Medical records

  /** A row of `medical_records` with the hospital join resolved. */
  datatype RecordRow = RecordRow(
    id: string,
    userId: string,
    title: Option<string>,
    recordType: string,
    createdAt: string,
    hospitalName: Option<string>)

  /** The summary of one row; a record without a hospital is listed under
      "Unknown Hospital". */
  function Summary(row: RecordRow): (s: RecordSummary)
    ensures row.hospitalName.None? ==> s.hospitalName == "Unknown Hospital"
    ensures row.hospitalName.Some? ==> s.hospitalName == row.hospitalName.value
    ensures s.id == row.id && s.title == row.title && s.createdAt == row.createdAt
  {
    RecordSummary(row.id, row.title, row.recordType, row.createdAt, row.hospitalName.GetOr("Unknown Hospital"))
  }

  /** `created_at` descending: ISO timestamps order as their text does. */
  predicate NewerFirst(a: RecordRow, b: RecordRow) {
    LexLess(b.createdAt, a.createdAt)
  }

  lemma NewerFirstIsStrict()
    ensures StrictOrder(NewerFirst)
  {
    forall a, b | NewerFirst(a, b)
      ensures !NewerFirst(b, a)
    {
      LexLessAsymmetric(b.createdAt, a.createdAt);
    }
    forall a, b, c | NewerFirst(a, b) && NewerFirst(b, c)
      ensures NewerFirst(a, c)
    {
      LexLessTransitive(c.createdAt, b.createdAt, a.createdAt);
    }
  }

  function OwnedBy(userId: string): RecordRow -> bool {
    (r: RecordRow) => r.userId == userId
  }

  /** `getUserMedicalRecords` */
  function UserMedicalRecords(rows: seq<RecordRow>, userId: string): seq<RecordSummary> {
    var picked := SelectOrdered(rows, OwnedBy(userId), NewerFirst, 10);
    seq(|picked|, i requires 0 <= i < |picked| => Summary(picked[i]))
  }

  /** At most ten of the user's own records, newest first, with the hospital
      name defaulting to "Unknown Hospital". */
  lemma UserMedicalRecordsSpec(rows: seq<RecordRow>, userId: string)
    ensures var r := UserMedicalRecords(rows, userId);
      && |r| == (if Count(rows, OwnedBy(userId)) < 10 then Count(rows, OwnedBy(userId)) else 10)
      && (forall i :: 0 <= i < |r| ==> exists row :: row in rows && row.userId == userId && r[i] == Summary(row))
      && (forall i, j :: 0 <= i < j < |r| ==> !LexLess(r[i].createdAt, r[j].createdAt))
  {
    var picked := SelectOrdered(rows, OwnedBy(userId), NewerFirst, 10);
    PickedRecords(rows, userId);
    var r := UserMedicalRecords(rows, userId);
    assert |r| == |picked|;
    forall i | 0 <= i < |r|
      ensures exists row :: row in rows && row.userId == userId && r[i] == Summary(row)
    {
      var row := picked[i];
      assert row in rows && row.userId == userId && r[i] == Summary(row);
    }
    forall i, j | 0 <= i < j < |r|
      ensures !LexLess(r[i].createdAt, r[j].createdAt)
    {
      assert r[i].createdAt == picked[i].createdAt && r[j].createdAt == picked[j].createdAt;
    }
  }

  /** The query behind `getUserMedicalRecords`, before the rows are
      summarised: the user's own rows, newest first, at most ten. */
  lemma PickedRecords(rows: seq<RecordRow>, userId: string)
    ensures var picked := SelectOrdered(rows, OwnedBy(userId), NewerFirst, 10);
      && |picked| == (if Count(rows, OwnedBy(userId)) < 10 then Count(rows, OwnedBy(userId)) else 10)
      && (forall i :: 0 <= i < |picked| ==> picked[i] in rows && picked[i].userId == userId)
      && (forall i, j :: 0 <= i < j < |picked| ==> !LexLess(picked[i].createdAt, picked[j].createdAt))
  {
    var picked := SelectOrdered(rows, OwnedBy(userId), NewerFirst, 10);
    NewerFirstIsStrict();
    SelectOrderedSpec(rows, OwnedBy(userId), NewerFirst, 10);
    forall i | 0 <= i < |picked|
      ensures picked[i] in rows && picked[i].userId == userId
    {
      assert OwnedBy(userId)(picked[i]);
    }
    forall i, j | 0 <= i < j < |picked|
      ensures !LexLess(picked[i].createdAt, picked[j].createdAt)
    {
      assert !NewerFirst(picked[j], picked[i]);
    }
  }
}
