/** The documents the backend keeps, one datatype per collection. A string
    field that may be missing, null or empty is the empty string here, so
    the three are not told apart; where the store would tell them apart
    (a `$regex` never matches a missing or null field) the model admits
    more. Generated timestamps (`created_at`) are not part of the model. */
module Records {

  datatype UserRecord = UserRecord(id: string, email: string, passwordHash: string, name: string, role: string)

  /** The user as `/auth/register`, `/auth/login` and `/auth/me` return it:
      no password hash. */
  datatype PublicUser = PublicUser(id: string, email: string, name: string, role: string)

  datatype Expo = Expo(id: string, name: string, region: string, industry: string)

  datatype Company = Company(
    id: string, expoId: string, name: string, hq: string, revenue: real,
    booth: string, industry: string, shortlistStage: string)

  datatype Shortlist = Shortlist(id: string, userId: string, companyId: string, expoId: string, notes: string)

  datatype Network = Network(
    id: string, userId: string, companyId: string, expoId: string,
    contactName: string, contactRole: string, status: string,
    meetingType: string, scheduledTime: string, notes: string)

  datatype ExpoDay = ExpoDay(
    id: string, userId: string, expoId: string, companyId: string,
    timeSlot: string, status: string, meetingType: string, booth: string, notes: string)

  function Public(u: UserRecord): PublicUser {
    PublicUser(u.id, u.email, u.name, u.role)
  }

  /** A stored document as an ordered list of (key, value) pairs: the keys in
      the order the creating handler wrote them, which is the column order a
      CSV export takes from its first row. */
  type Doc = seq<(string, string)>

  function ShortlistDoc(s: Shortlist): Doc {
    [("id", s.id), ("user_id", s.userId), ("company_id", s.companyId),
     ("expo_id", s.expoId), ("notes", s.notes)]
  }

  function NetworkDoc(n: Network): Doc {
    [("id", n.id), ("user_id", n.userId), ("company_id", n.companyId),
     ("expo_id", n.expoId), ("contact_name", n.contactName), ("contact_role", n.contactRole),
     ("status", n.status), ("meeting_type", n.meetingType),
     ("scheduled_time", n.scheduledTime), ("notes", n.notes)]
  }

  function ExpoDayDoc(e: ExpoDay): Doc {
    [("id", e.id), ("user_id", e.userId), ("expo_id", e.expoId),
     ("company_id", e.companyId), ("time_slot", e.timeSlot), ("status", e.status),
     ("meeting_type", e.meetingType), ("booth", e.booth), ("notes", e.notes)]
  }

  /** `doc.get(key)`, "" when the key is missing. A document built from a
      dict has each key once; for a repeated key the first pair is read. */
  function Get(d: Doc, key: string): (r: string)
    ensures (forall i :: 0 <= i < |d| ==> d[i].0 != key) ==> r == ""
    ensures (exists i :: 0 <= i < |d| && d[i].0 == key) ==>
      exists i :: 0 <= i < |d| && d[i] == (key, r) && forall j :: 0 <= j < i ==> d[j].0 != key
  {
    if |d| == 0 then ""
    else if d[0].0 == key then d[0].1
    else
      var r := Get(d[1..], key);
      assert (exists i :: 0 <= i < |d| && d[i].0 == key) ==> exists i :: 1 <= i < |d| && d[i].0 == key;
      r
  }
}
