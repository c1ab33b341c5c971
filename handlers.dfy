/** The route handlers of the backend as operations on in-memory tables. Each
    Mongo collection is a field of `Backend` holding its documents in
    storage order; `find_one`, `update_one` and `delete_one` act on the first
    document that matches. Authentication (`current_user`), password hashing,
    id generation and regex matching are supplied by the caller. */
module Handlers {
  import opened Common
  import opened Records
  import opened Queries

  /** `to_list(500)` on the listing and export queries. */
  const LIST_LIMIT: nat := 500

  datatype HttpError = HttpError(status: nat, detail: string)

  /** A handler's answer: its JSON body, or the `HTTPException` it raises. */
  datatype Reply<T> = Ok(value: T) | Fail(error: HttpError)

  /** The closed set of pipeline stages `update_stage` accepts. */
  const STAGES: seq<string> := ["prospecting", "prospecting_complete", "engaging", "closed_won", "closed_lost"]

  const INVALID_STAGE := "Invalid stage. Must be one of: ['prospecting', 'prospecting_complete', 'engaging', 'closed_won', 'closed_lost']"

  /** The values `{"$in": [None, "", "none"]}` treats as "no stage yet". */
  predicate Unset(stage: string) {
    stage == "" || stage == "none"
  }

  /** The collections `export_csv` serves. */
  const EXPORTABLE: set<string> := {"shortlists", "networks", "expo-days"}

  // ---- table invariants ----------------------------------------------------

  predicate UniqueEmails(users: seq<UserRecord>) {
    forall i, j :: 0 <= i < j < |users| ==> users[i].email != users[j].email
  }

  predicate SameTriple(a: Shortlist, b: Shortlist) {
    a.userId == b.userId && a.companyId == b.companyId && a.expoId == b.expoId
  }

  /** At most one shortlist entry per (user, company, expo). */
  predicate OnePerTriple(sls: seq<Shortlist>) {
    forall i, j :: 0 <= i < j < |sls| ==> !SameTriple(sls[i], sls[j])
  }

  /** The stage column holds an unset marker or one of the five stages. */
  predicate StagesClosed(companies: seq<Company>) {
    forall c :: c in companies ==> Unset(c.shortlistStage) || c.shortlistStage in STAGES
  }

  lemma {:induction false} RemovalKeepsOnePerTriple(sls: seq<Shortlist>, i: nat)
    requires OnePerTriple(sls) && i < |sls|
    ensures OnePerTriple(sls[..i] + sls[i + 1..])
  {
    var t := sls[..i] + sls[i + 1..];
    forall a, b | 0 <= a < b < |t| ensures !SameTriple(t[a], t[b]) {
      var a' := if a < i then a else a + 1;
      var b' := if b < i then b else b + 1;
      assert t[a] == sls[a'] && t[b] == sls[b'];
    }
  }

  // ---- record selectors ------------------------------------------------------

  function CompanyIdIs(cid: string): Company -> bool {
    (c: Company) => c.id == cid
  }

  function ExpoIdIs(eid: string): Expo -> bool {
    (e: Expo) => e.id == eid
  }

  function HasEmail(email: string): UserRecord -> bool {
    (u: UserRecord) => u.email == email
  }

  function TripleIs(uid: string, cid: string, eid: string): Shortlist -> bool {
    (s: Shortlist) => s.userId == uid && s.companyId == cid && s.expoId == eid
  }

  /** `{"id": cid, "shortlist_stage": {"$in": [None, "", "none"]}}` */
  function UnsetCompany(cid: string): Company -> bool {
    (c: Company) => c.id == cid && Unset(c.shortlistStage)
  }

  /** `{"id": sid, "user_id": uid}`: the caller's own entry. */
  function OwnShortlist(uid: string, sid: string): Shortlist -> bool {
    (s: Shortlist) => s.id == sid && s.userId == uid
  }

  function OwnNetwork(uid: string, nid: string): Network -> bool {
    (n: Network) => n.id == nid && n.userId == uid
  }

  function OwnExpoDay(uid: string, eid: string): ExpoDay -> bool {
    (e: ExpoDay) => e.id == eid && e.userId == uid
  }

  /** `{"user_id": uid}` plus `"expo_id"` when one is given. */
  function ShortlistScope(uid: string, expoId: Option<string>): Shortlist -> bool {
    (s: Shortlist) => s.userId == uid && (Truthy(expoId) ==> s.expoId == expoId.value)
  }

  function NetworkScope(uid: string, expoId: Option<string>): Network -> bool {
    (n: Network) => n.userId == uid && (Truthy(expoId) ==> n.expoId == expoId.value)
  }

  function ExpoDayScope(uid: string, expoId: Option<string>): ExpoDay -> bool {
    (e: ExpoDay) => e.userId == uid && (Truthy(expoId) ==> e.expoId == expoId.value)
  }

  // ---- register --------------------------------------------------------------

  /** `email.split("@")[0]`: everything before the first '@'. */
  function EmailLocalPart(email: string): (r: string)
    ensures r <= email
    ensures '@' !in r
    ensures |r| < |email| ==> email[|r|] == '@'
  {
    if |email| == 0 || email[0] == '@' then ""
    else [email[0]] + EmailLocalPart(email[1..])
  }

  // ---- shortlists --------------------------------------------------------------

  datatype CreateShortlistReply = AlreadyExists(id: string) | Created(entry: Shortlist)

  /** A shortlist entry with what `get_shortlists` attaches to it. */
  datatype ShortlistView = ShortlistView(entry: Shortlist, company: Option<Company>, expo: Option<Expo>)

  /** The entry joined with its company and expo, as a listing without a
      stage filter returns it. */
  function Joined(s: Shortlist, companies: seq<Company>, expos: seq<Expo>): ShortlistView {
    ShortlistView(s, FindOne(companies, CompanyIdIs(s.companyId)), FindOne(expos, ExpoIdIs(s.expoId)))
  }

  function JoinAll(items: seq<Shortlist>, companies: seq<Company>, expos: seq<Expo>): (r: seq<ShortlistView>)
    ensures |r| == |items|
    ensures forall k :: 0 <= k < |items| ==> r[k] == Joined(items[k], companies, expos)
  {
    seq(|items|, k requires 0 <= k < |items| => Joined(items[k], companies, expos))
  }

  /** `s.get("company", {}).get("shortlist_stage") == stage` */
  function StageIs(stage: string): ShortlistView -> bool {
    (v: ShortlistView) => v.company.Some? && v.company.value.shortlistStage == stage
  }

  // ---- networks and expo days -------------------------------------------------

  /** The optional form fields of `PUT /networks/{nid}`. */
  datatype NetworkEdit = NetworkEdit(
    status: Option<string>, meetingType: Option<string>, scheduledTime: Option<string>,
    notes: Option<string>, contactName: Option<string>, contactRole: Option<string>)

  /** The field as given, or as it was. */
  function Overlay(given: Option<string>, current: string): string {
    if given.Some? then given.value else current
  }

  /** The entry with exactly the supplied fields replaced. */
  function Revised(n: Network, e: NetworkEdit): Network {
    n.(status := Overlay(e.status, n.status), meetingType := Overlay(e.meetingType, n.meetingType),
       scheduledTime := Overlay(e.scheduledTime, n.scheduledTime), notes := Overlay(e.notes, n.notes),
       contactName := Overlay(e.contactName, n.contactName), contactRole := Overlay(e.contactRole, n.contactRole))
  }

  /** `{"$set": u}` on a network entry. */
  function SetNetworkFields(n: Network, u: map<string, string>): Network {
    n.(status := if "status" in u then u["status"] else n.status,
       meetingType := if "meeting_type" in u then u["meeting_type"] else n.meetingType,
       scheduledTime := if "scheduled_time" in u then u["scheduled_time"] else n.scheduledTime,
       notes := if "notes" in u then u["notes"] else n.notes,
       contactName := if "contact_name" in u then u["contact_name"] else n.contactName,
       contactRole := if "contact_role" in u then u["contact_role"] else n.contactRole)
  }

  /** `{"$set": u}` on an expo-day entry. */
  function SetExpoDayFields(d: ExpoDay, u: map<string, string>): ExpoDay {
    d.(status := if "status" in u then u["status"] else d.status,
       notes := if "notes" in u then u["notes"] else d.notes)
  }

  /** Builds the `updates` dict of `update_network`: one entry per form field
      that is present, whatever its value. */
  method NetworkUpdates(e: NetworkEdit) returns (u: map<string, string>)
    ensures u.Keys <= {"status", "meeting_type", "scheduled_time", "notes", "contact_name", "contact_role"}
    ensures ("status" in u <==> e.status.Some?) && ("status" in u ==> u["status"] == e.status.value)
    ensures ("meeting_type" in u <==> e.meetingType.Some?) && ("meeting_type" in u ==> u["meeting_type"] == e.meetingType.value)
    ensures ("scheduled_time" in u <==> e.scheduledTime.Some?) && ("scheduled_time" in u ==> u["scheduled_time"] == e.scheduledTime.value)
    ensures ("notes" in u <==> e.notes.Some?) && ("notes" in u ==> u["notes"] == e.notes.value)
    ensures ("contact_name" in u <==> e.contactName.Some?) && ("contact_name" in u ==> u["contact_name"] == e.contactName.value)
    ensures ("contact_role" in u <==> e.contactRole.Some?) && ("contact_role" in u ==> u["contact_role"] == e.contactRole.value)
    ensures forall n :: SetNetworkFields(n, u) == Revised(n, e)
  {
    u := map[];
    if e.status.Some? { u := u["status" := e.status.value]; }
    if e.meetingType.Some? { u := u["meeting_type" := e.meetingType.value]; }
    if e.scheduledTime.Some? { u := u["scheduled_time" := e.scheduledTime.value]; }
    if e.notes.Some? { u := u["notes" := e.notes.value]; }
    if e.contactName.Some? { u := u["contact_name" := e.contactName.value]; }
    if e.contactRole.Some? { u := u["contact_role" := e.contactRole.value]; }
  }

  /** Builds the `updates` dict of `update_expo_day`: status only when it is
      non-empty, notes whenever the field is present, even empty. */
  method ExpoDayUpdates(status: Option<string>, notes: Option<string>) returns (u: map<string, string>)
    ensures u.Keys <= {"status", "notes"}
    ensures ("status" in u <==> Truthy(status)) && ("status" in u ==> u["status"] == status.value)
    ensures ("notes" in u <==> notes.Some?) && ("notes" in u ==> u["notes"] == notes.value)
  {
    u := map[];
    if Truthy(status) { u := u["status" := status.value]; }
    if notes.Some? { u := u["notes" := notes.value]; }
  }

  // ---- export ----------------------------------------------------------------

  datatype CsvExport = CsvExport(rows: seq<Doc>, filename: string)

  /** Columns an export row never carries. */
  function NotPrivate(): ((string, string)) -> bool {
    (kv: (string, string)) => kv.0 != "_id" && kv.0 != "user_id"
  }

  /** `company.get("name", "")` for `find_one({"id": cid})`: the name of the
      first company with that id, "" when there is none. */
  function CompanyName(cid: string, companies: seq<Company>): (name: string)
    ensures (exists j :: 0 <= j < |companies| && companies[j].id == cid) ==>
      exists j :: 0 <= j < |companies| && companies[j].id == cid && companies[j].name == name
        && forall i :: 0 <= i < j ==> companies[i].id != cid
    ensures (forall j :: 0 <= j < |companies| ==> companies[j].id != cid) ==> name == ""
  {
    match FindFirst(companies, CompanyIdIs(cid))
    case Some(j) => companies[j].name
    case None => ""
  }

  /** The same join for the expo. */
  function ExpoName(eid: string, expos: seq<Expo>): (name: string)
    ensures (exists j :: 0 <= j < |expos| && expos[j].id == eid) ==>
      exists j :: 0 <= j < |expos| && expos[j].id == eid && expos[j].name == name
        && forall i :: 0 <= i < j ==> expos[i].id != eid
    ensures (forall j :: 0 <= j < |expos| ==> expos[j].id != eid) ==> name == ""
  {
    match FindFirst(expos, ExpoIdIs(eid))
    case Some(j) => expos[j].name
    case None => ""
  }

  /** One export row: the document without `_id` and `user_id`, then the
      names of the joined company and expo ("" when the join finds nothing). */
  function ExportRow(item: Doc, companies: seq<Company>, expos: seq<Expo>): (row: Doc)
    ensures |row| >= 2
    ensures row[..|row| - 2] == Filter(item, NotPrivate())
    ensures row[|row| - 2].0 == "company_name" && row[|row| - 1].0 == "expo_name"
    ensures forall kv :: kv in row ==> kv.0 != "_id" && kv.0 != "user_id"
    ensures row[|row| - 2].1 == CompanyName(Get(item, "company_id"), companies)
    ensures row[|row| - 1].1 == ExpoName(Get(item, "expo_id"), expos)
  {
    var kept := Filter(item, NotPrivate());
    assert forall k :: 0 <= k < |kept| ==> kept[k] in kept;
    kept + [("company_name", CompanyName(Get(item, "company_id"), companies)),
            ("expo_name", ExpoName(Get(item, "expo_id"), expos))]
  }

  /** What the loop of `get_shortlists` leaves in one entry: the company
      when there is one, and the expo too unless a stage filter already rules
      the entry out. */
  function Attached(s: Shortlist, companies: seq<Company>, expos: seq<Expo>, stage: Option<string>): ShortlistView {
    var c := FindOne(companies, CompanyIdIs(s.companyId));
    if c.Some? && Truthy(stage) && c.value.shortlistStage != stage.value then ShortlistView(s, c, None)
    else Joined(s, companies, expos)
  }

  /** The entries the loop left without their expo are exactly those the
      stage filter drops, so the listing equals the filtered full join. */
  lemma ListingMatchesJoin(items: seq<Shortlist>, sls: seq<ShortlistView>, companies: seq<Company>,
                           expos: seq<Expo>, stage: Option<string>)
    requires |sls| == |items|
    requires forall k :: 0 <= k < |items| ==> sls[k] == Attached(items[k], companies, expos, stage)
    ensures Truthy(stage) ==> Filter(sls, StageIs(stage.value)) == Filter(JoinAll(items, companies, expos), StageIs(stage.value))
    ensures !Truthy(stage) ==> sls == JoinAll(items, companies, expos)
  {
    var joined := JoinAll(items, companies, expos);
    if Truthy(stage) {
      FilterAgree(sls, joined, StageIs(stage.value));
    } else {
      assert forall k :: 0 <= k < |items| ==> sls[k] == joined[k];
    }
  }

  /** Every listed entry is the caller's, of the requested expo and stage,
      and carries its own joins. */
  lemma ListingScoped(shortlists: seq<Shortlist>, items: seq<Shortlist>, companies: seq<Company>, expos: seq<Expo>,
                      uid: string, stage: Option<string>, expoId: Option<string>)
    requires items == Select(shortlists, ShortlistScope(uid, expoId), LIST_LIMIT)
    ensures var listing := if Truthy(stage) then Filter(JoinAll(items, companies, expos), StageIs(stage.value))
                           else JoinAll(items, companies, expos);
      forall v :: v in listing ==>
        && v.entry in shortlists && v.entry.userId == uid
        && (Truthy(expoId) ==> v.entry.expoId == expoId.value)
        && (Truthy(stage) ==> v.company.Some? && v.company.value.shortlistStage == stage.value)
        && v == Joined(v.entry, companies, expos)
  {
    var joined := JoinAll(items, companies, expos);
    forall v | v in joined
      ensures v.entry in items && v == Joined(v.entry, companies, expos)
    {
      var k :| 0 <= k < |joined| && joined[k] == v;
      assert items[k] in items;
    }
  }

  /** The loop of `export_csv`: one row per document, in order, each built
      by `row` (in the handler, `ExportRow` over the current tables). */
  method ExportLoop(items: seq<Doc>, row: Doc -> Doc) returns (rows: seq<Doc>)
    ensures |rows| == |items|
    ensures forall k :: 0 <= k < |items| ==> rows[k] == row(items[k])
  {
    rows := [];
    for i := 0 to |items|
      invariant |rows| == i
      invariant forall k :: 0 <= k < i ==> rows[k] == row(items[k])
    {
      rows := rows + [row(items[i])];
    }
  }

  class Backend {
    var users: seq<UserRecord>
    var expos: seq<Expo>
    var companies: seq<Company>
    var shortlists: seq<Shortlist>
    var networks: seq<Network>
    var expoDays: seq<ExpoDay>

    ghost predicate Valid()
      reads this
    {
      UniqueEmails(users) && OnePerTriple(shortlists) && StagesClosed(companies)
    }

    constructor (users: seq<UserRecord>, expos: seq<Expo>, companies: seq<Company>,
                 shortlists: seq<Shortlist>, networks: seq<Network>, expoDays: seq<ExpoDay>)
      requires UniqueEmails(users) && OnePerTriple(shortlists) && StagesClosed(companies)
      ensures Valid()
      ensures this.users == users && this.expos == expos && this.companies == companies
      ensures this.shortlists == shortlists && this.networks == networks && this.expoDays == expoDays
    {
      this.users, this.expos, this.companies := users, expos, companies;
      this.shortlists, this.networks, this.expoDays := shortlists, networks, expoDays;
    }

    /** POST /auth/register. `passwordHash` is what hashing the password
        gave; `newId` the generated id. */
    method Register(email: string, name: Option<string>, passwordHash: string, newId: string)
      returns (r: Reply<PublicUser>)
      requires Valid()
      modifies this
      ensures Valid()
      ensures expos == old(expos) && companies == old(companies) && shortlists == old(shortlists)
      ensures networks == old(networks) && expoDays == old(expoDays)
      ensures (exists u :: u in old(users) && u.email == email) ==>
        r == Fail(HttpError(400, "Email already registered")) && users == old(users)
      ensures (forall u :: u in old(users) ==> u.email != email) ==>
        var u := UserRecord(newId, email, passwordHash, OrElse(name, EmailLocalPart(email)), "user");
        users == old(users) + [u] && r == Ok(Public(u))
    {
      if FindOne(users, HasEmail(email)).Some? {
        return Fail(HttpError(400, "Email already registered"));
      }
      var u := UserRecord(newId, email, passwordHash, OrElse(name, EmailLocalPart(email)), "user");
      users := users + [u];
      r := Ok(Public(u));
    }

    /** PUT /companies/{cid}/stage. */
    method UpdateStage(cid: string, stage: string) returns (r: Reply<string>)
      requires Valid()
      modifies this
      ensures Valid()
      ensures users == old(users) && expos == old(expos) && shortlists == old(shortlists)
      ensures networks == old(networks) && expoDays == old(expoDays)
      ensures stage !in STAGES ==> r == Fail(HttpError(400, INVALID_STAGE)) && companies == old(companies)
      ensures stage in STAGES ==> r == Ok(stage)
      ensures stage in STAGES ==>
        match FindFirst(old(companies), CompanyIdIs(cid))
        case None => companies == old(companies)
        case Some(i) => companies == old(companies)[i := old(companies)[i].(shortlistStage := stage)]
    {
      if stage !in STAGES {
        return Fail(HttpError(400, INVALID_STAGE));
      }
      var i := FindFirst(companies, CompanyIdIs(cid));
      if i.Some? {
        companies := companies[i.value := companies[i.value].(shortlistStage := stage)];
      }
      r := Ok(stage);
    }

    /** GET /companies: the filter is built from the given parameters and
        the first 500 matching companies are returned. */
    method GetCompanies(p: CompanyParams, rx: (string, string) -> bool) returns (result: seq<Company>)
      ensures result == Select(companies, AdmitsFn(p, rx), COMPANY_LIMIT)
      ensures forall c :: c in result ==> c in companies && Admits(p, c, rx)
      ensures |Filter(companies, AdmitsFn(p, rx))| <= COMPANY_LIMIT ==>
        forall c :: c in companies && Admits(p, c, rx) ==> c in result
    {
      var q := CompanyQuery(p);
      forall c ensures CompanyMatches(q, c, rx) == Admits(p, c, rx) {
        QueryMeaning(q, p, c, rx);
      }
      FilterExtensional(companies, (c: Company) => CompanyMatches(q, c, rx), AdmitsFn(p, rx));
      result := Select(companies, (c: Company) => CompanyMatches(q, c, rx), COMPANY_LIMIT);
    }

    /** GET /shortlists: the caller's entries (optionally of one expo), each
        joined with its company and expo; with a stage, only entries whose
        company is at that stage, so entries without a company are dropped. */
    method GetShortlists(uid: string, stage: Option<string>, expoId: Option<string>)
      returns (result: seq<ShortlistView>)
      ensures var items := Select(shortlists, ShortlistScope(uid, expoId), LIST_LIMIT);
        result == if Truthy(stage) then Filter(JoinAll(items, companies, expos), StageIs(stage.value))
                  else JoinAll(items, companies, expos)
      ensures forall v :: v in result ==>
        && v.entry in shortlists && v.entry.userId == uid
        && (Truthy(expoId) ==> v.entry.expoId == expoId.value)
        && (Truthy(stage) ==> v.company.Some? && v.company.value.shortlistStage == stage.value)
        && v == Joined(v.entry, companies, expos)
    {
      var items := Select(shortlists, ShortlistScope(uid, expoId), LIST_LIMIT);
      var sls := seq(|items|, k requires 0 <= k < |items| => ShortlistView(items[k], None, None));
      for i := 0 to |sls|
        invariant |sls| == |items|
        invariant forall k :: 0 <= k < i ==> sls[k] == Attached(items[k], companies, expos, stage)
        invariant forall k :: i <= k < |sls| ==> sls[k] == ShortlistView(items[k], None, None)
      {
        var v := sls[i];
        var c := FindOne(companies, CompanyIdIs(v.entry.companyId));
        if c.Some? {
          v := v.(company := c);
          if Truthy(stage) && c.value.shortlistStage != stage.value {
            sls := sls[i := v];
            continue;
          }
        }
        var e := FindOne(expos, ExpoIdIs(v.entry.expoId));
        if e.Some? {
          v := v.(expo := e);
        }
        sls := sls[i := v];
      }
      result := if Truthy(stage) then Filter(sls, StageIs(stage.value)) else sls;
      ListingMatchesJoin(items, sls, companies, expos, stage);
      ListingScoped(shortlists, items, companies, expos, uid, stage, expoId);
    }

    /** POST /shortlists: idempotent per (user, company, expo); a new entry
        moves its company from an unset stage to "prospecting". */
    method CreateShortlist(uid: string, companyId: string, expoId: string, notes: Option<string>, newId: string)
      returns (r: CreateShortlistReply)
      requires Valid()
      modifies this
      ensures Valid()
      ensures users == old(users) && expos == old(expos) && networks == old(networks) && expoDays == old(expoDays)
      ensures match FindOne(old(shortlists), TripleIs(uid, companyId, expoId))
        case Some(existing) =>
          r == AlreadyExists(existing.id) && shortlists == old(shortlists) && companies == old(companies)
        case None =>
          && r == Created(Shortlist(newId, uid, companyId, expoId, OrElse(notes, "")))
          && shortlists == old(shortlists) + [r.entry]
          && match FindFirst(old(companies), UnsetCompany(companyId))
             case None => companies == old(companies)
             case Some(i) => companies == old(companies)[i := old(companies)[i].(shortlistStage := "prospecting")]
    {
      var existing := FindOne(shortlists, TripleIs(uid, companyId, expoId));
      if existing.Some? {
        return AlreadyExists(existing.value.id);
      }
      var sl := Shortlist(newId, uid, companyId, expoId, OrElse(notes, ""));
      shortlists := shortlists + [sl];
      var i := FindFirst(companies, UnsetCompany(companyId));
      if i.Some? {
        companies := companies[i.value := companies[i.value].(shortlistStage := "prospecting")];
      }
      r := Created(sl);
    }

    /** PUT /shortlists/{sid}: sets the notes of the caller's own entry; an
        absent form field counts as "". */
    method UpdateShortlist(uid: string, sid: string, notes: Option<string>)
      requires Valid()
      modifies this
      ensures Valid()
      ensures users == old(users) && expos == old(expos) && companies == old(companies)
      ensures networks == old(networks) && expoDays == old(expoDays)
      ensures match FindFirst(old(shortlists), OwnShortlist(uid, sid))
        case None => shortlists == old(shortlists)
        case Some(i) => shortlists == old(shortlists)[i := old(shortlists)[i].(notes := OrElse(notes, ""))]
    {
      var i := FindFirst(shortlists, OwnShortlist(uid, sid));
      if i.Some? {
        shortlists := shortlists[i.value := shortlists[i.value].(notes := OrElse(notes, ""))];
      }
    }

    /** DELETE /shortlists/{sid}: removes the caller's own entry, if any. */
    method DeleteShortlist(uid: string, sid: string)
      requires Valid()
      modifies this
      ensures Valid()
      ensures users == old(users) && expos == old(expos) && companies == old(companies)
      ensures networks == old(networks) && expoDays == old(expoDays)
      ensures shortlists == DeleteFirst(old(shortlists), OwnShortlist(uid, sid))
      ensures forall s :: s in old(shortlists) && s.userId != uid ==> s in shortlists
    {
      var i := FindFirst(shortlists, OwnShortlist(uid, sid));
      if i.Some? {
        RemovalKeepsOnePerTriple(shortlists, i.value);
      }
      shortlists := DeleteFirst(shortlists, OwnShortlist(uid, sid));
    }

    /** PUT /networks/{nid}: writes exactly the supplied fields of the
        caller's own entry; with no field supplied nothing is written. */
    method UpdateNetwork(uid: string, nid: string, e: NetworkEdit)
      requires Valid()
      modifies this
      ensures Valid()
      ensures users == old(users) && expos == old(expos) && companies == old(companies)
      ensures shortlists == old(shortlists) && expoDays == old(expoDays)
      ensures match FindFirst(old(networks), OwnNetwork(uid, nid))
        case None => networks == old(networks)
        case Some(i) => networks == old(networks)[i := Revised(old(networks)[i], e)]
      ensures e == NetworkEdit(None, None, None, None, None, None) ==> networks == old(networks)
    {
      var updates := NetworkUpdates(e);
      var i := FindFirst(networks, OwnNetwork(uid, nid));
      if updates != map[] {
        if i.Some? {
          networks := networks[i.value := SetNetworkFields(networks[i.value], updates)];
        }
      } else if i.Some? {
        assert networks[i.value := networks[i.value]] == networks;
      }
    }

    /** DELETE /networks/{nid}: removes the caller's own entry, if any. */
    method DeleteNetwork(uid: string, nid: string)
      requires Valid()
      modifies this
      ensures Valid()
      ensures users == old(users) && expos == old(expos) && companies == old(companies)
      ensures shortlists == old(shortlists) && expoDays == old(expoDays)
      ensures networks == DeleteFirst(old(networks), OwnNetwork(uid, nid))
      ensures forall n :: n in old(networks) && n.userId != uid ==> n in networks
    {
      networks := DeleteFirst(networks, OwnNetwork(uid, nid));
    }

    /** POST /expo-days: a new entry, status "planned", with the defaults of
        the request model for absent or empty fields. */
    method CreateExpoDay(uid: string, expoId: string, companyId: string, timeSlot: string,
                         meetingType: Option<string>, booth: Option<string>, notes: Option<string>, newId: string)
      returns (r: ExpoDay)
      requires Valid()
      modifies this
      ensures Valid()
      ensures users == old(users) && expos == old(expos) && companies == old(companies)
      ensures shortlists == old(shortlists) && networks == old(networks)
      ensures r == ExpoDay(newId, uid, expoId, companyId, timeSlot, "planned",
                           OrElse(meetingType, "booth_visit"), OrElse(booth, ""), OrElse(notes, ""))
      ensures expoDays == old(expoDays) + [r]
    {
      r := ExpoDay(newId, uid, expoId, companyId, timeSlot, "planned",
                   OrElse(meetingType, "booth_visit"), OrElse(booth, ""), OrElse(notes, ""));
      expoDays := expoDays + [r];
    }

    /** PUT /expo-days/{eid}: status when non-empty, notes whenever present,
        on the caller's own entry only. */
    method UpdateExpoDay(uid: string, eid: string, status: Option<string>, notes: Option<string>)
      requires Valid()
      modifies this
      ensures Valid()
      ensures users == old(users) && expos == old(expos) && companies == old(companies)
      ensures shortlists == old(shortlists) && networks == old(networks)
      ensures match FindFirst(old(expoDays), OwnExpoDay(uid, eid))
        case None => expoDays == old(expoDays)
        case Some(i) => expoDays == old(expoDays)[i := old(expoDays)[i].(
          status := if Truthy(status) then status.value else old(expoDays)[i].status,
          notes := Overlay(notes, old(expoDays)[i].notes))]
    {
      var updates := ExpoDayUpdates(status, notes);
      var i := FindFirst(expoDays, OwnExpoDay(uid, eid));
      if updates != map[] {
        if i.Some? {
          expoDays := expoDays[i.value := SetExpoDayFields(expoDays[i.value], updates)];
        }
      } else if i.Some? {
        assert expoDays[i.value := expoDays[i.value].(status := expoDays[i.value].status, notes := expoDays[i.value].notes)] == expoDays;
      }
    }

    /** DELETE /expo-days/{eid}: removes the caller's own entry, if any. */
    method DeleteExpoDay(uid: string, eid: string)
      requires Valid()
      modifies this
      ensures Valid()
      ensures users == old(users) && expos == old(expos) && companies == old(companies)
      ensures shortlists == old(shortlists) && networks == old(networks)
      ensures expoDays == DeleteFirst(old(expoDays), OwnExpoDay(uid, eid))
      ensures forall d :: d in old(expoDays) && d.userId != uid ==> d in expoDays
    {
      expoDays := DeleteFirst(expoDays, OwnExpoDay(uid, eid));
    }

    /** The documents `export_csv` reads for a collection. */
    function ExportItems(collection: string, uid: string, expoId: Option<string>): seq<Doc>
      reads this
      requires collection in EXPORTABLE
    {
      if collection == "shortlists" then
        var s := Select(shortlists, ShortlistScope(uid, expoId), LIST_LIMIT);
        seq(|s|, k requires 0 <= k < |s| => ShortlistDoc(s[k]))
      else if collection == "networks" then
        var s := Select(networks, NetworkScope(uid, expoId), LIST_LIMIT);
        seq(|s|, k requires 0 <= k < |s| => NetworkDoc(s[k]))
      else
        var s := Select(expoDays, ExpoDayScope(uid, expoId), LIST_LIMIT);
        seq(|s|, k requires 0 <= k < |s| => ExpoDayDoc(s[k]))
    }

    /** GET /export/{collection}: one row per document of the caller's, in
        table order, with `_id` and `user_id` dropped and the company and
        expo names added; CSV text rendering is not modelled. */
    method ExportCsv(collection: string, uid: string, expoId: Option<string>) returns (r: Reply<CsvExport>)
      ensures collection !in EXPORTABLE ==> r == Fail(HttpError(400, "Invalid collection"))
      ensures collection in EXPORTABLE ==>
        && r.Ok?
        && r.value.filename == collection + "_export.csv"
        && |r.value.rows| == |ExportItems(collection, uid, expoId)|
        && forall k :: 0 <= k < |r.value.rows| ==>
             r.value.rows[k] == ExportRow(ExportItems(collection, uid, expoId)[k], companies, expos)
      ensures r.Ok? ==> forall k, kv :: 0 <= k < |r.value.rows| && kv in r.value.rows[k] ==> kv.0 != "user_id" && kv.0 != "_id"
    {
      if collection !in EXPORTABLE {
        return Fail(HttpError(400, "Invalid collection"));
      }
      var items, cs, es := ExportItems(collection, uid, expoId), companies, expos;
      var rows := ExportLoop(items, item => ExportRow(item, cs, es));
      assert forall k :: 0 <= k < |items| ==> rows[k] == ExportRow(items[k], cs, es);
      r := Ok(CsvExport(rows, collection + "_export.csv"));
    }
  }

  /** Posting the same (user, company, expo) twice: the second call finds the
      first call's entry and changes nothing. */
  method ShortlistTwice(b: Backend, uid: string, companyId: string, expoId: string,
                        notes: Option<string>, id1: string, id2: string)
    returns (first: CreateShortlistReply, second: CreateShortlistReply)
    requires b.Valid()
    modifies b
    ensures b.Valid()
    ensures first.Created? ==> second == AlreadyExists(first.entry.id)
    ensures first.AlreadyExists? ==> second == first
    ensures b.shortlists == old(b.shortlists) || (first.Created? && b.shortlists == old(b.shortlists) + [first.entry])
  {
    first := b.CreateShortlist(uid, companyId, expoId, notes, id1);
    ghost var afterFirst := b.shortlists;
    ghost var companiesAfterFirst := b.companies;
    second := b.CreateShortlist(uid, companyId, expoId, notes, id2);
    if first.Created? {
      var p := TripleIs(uid, companyId, expoId);
      assert FindFirst(old(b.shortlists), p).None?;
      assert p(afterFirst[|afterFirst| - 1]);
      assert FindFirst(afterFirst, p) == Some(|afterFirst| - 1);
    }
  }
}
