/** The read-side rules of the backend: the company filter that
    `get_companies` builds field by field, the independent reading of what
    that filter admits, and the option lists of `expo_filters` and
    `company_filter_options`. */
module Queries {
  import opened Common
  import opened Ordering
  import opened Records

  /** How many documents `get_companies` returns at most (`to_list(500)`). */
  const COMPANY_LIMIT: nat := 500

  /** One value of the Mongo filter document. */
  datatype Constraint =
    | Equals(value: string)                // q[k] = v
    | Regex(pattern: string)               // {"$regex": p, "$options": "i"}
    | Range(bounds: map<string, real>)     // {"$gte": lo, "$lte": hi}, either optional

  type Query = map<string, Constraint>

  /** The query-string parameters of `GET /api/companies`. */
  datatype CompanyParams = CompanyParams(
    expoId: Option<string>, industry: Option<string>, hq: Option<string>,
    minRevenue: Option<real>, maxRevenue: Option<real>, search: Option<string>)

  /** A field value as the store sees it. */
  datatype Value = Text(s: string) | Number(x: real)

  function FieldOf(c: Company, key: string): Option<Value> {
    match key
    case "expo_id" => Some(Text(c.expoId))
    case "industry" => Some(Text(c.industry))
    case "hq" => Some(Text(c.hq))
    case "name" => Some(Text(c.name))
    case "revenue" => Some(Number(c.revenue))
    case _ => None
  }

  /** Whether one stored value meets one filter entry; `rx(pattern, text)`
      stands for the case-insensitive `$regex` search. */
  predicate Holds(k: Constraint, v: Option<Value>, rx: (string, string) -> bool) {
    match k
    case Equals(s) => v == Some(Text(s))
    case Regex(p) => v.Some? && v.value.Text? && rx(p, v.value.s)
    case Range(b) =>
      && v.Some? && v.value.Number?
      && ("$gte" in b ==> v.value.x >= b["$gte"])
      && ("$lte" in b ==> v.value.x <= b["$lte"])
  }

  /** `find(q)` keeps the documents that meet every entry of the filter. */
  predicate CompanyMatches(q: Query, c: Company, rx: (string, string) -> bool) {
    forall key :: key in q ==> Holds(q[key], FieldOf(c, key), rx)
  }

  /** The shape of the filter `get_companies` builds: an entry per given
      parameter, a revenue range exactly when a bound is given, and nothing
      for an absent or empty parameter. */
  predicate IsCompanyQuery(q: Query, p: CompanyParams) {
    && q.Keys <= {"expo_id", "industry", "hq", "revenue", "name"}
    && ("expo_id" in q <==> Truthy(p.expoId))
    && ("expo_id" in q ==> q["expo_id"] == Equals(p.expoId.value))
    && ("industry" in q <==> Truthy(p.industry))
    && ("industry" in q ==> q["industry"] == Regex(p.industry.value))
    && ("hq" in q <==> Truthy(p.hq))
    && ("hq" in q ==> q["hq"] == Regex(p.hq.value))
    && ("revenue" in q <==> p.minRevenue.Some? || p.maxRevenue.Some?)
    && ("revenue" in q ==>
          && q["revenue"].Range?
          && q["revenue"].bounds.Keys <= {"$gte", "$lte"}
          && ("$gte" in q["revenue"].bounds <==> p.minRevenue.Some?)
          && ("$gte" in q["revenue"].bounds ==> q["revenue"].bounds["$gte"] == p.minRevenue.value)
          && ("$lte" in q["revenue"].bounds <==> p.maxRevenue.Some?)
          && ("$lte" in q["revenue"].bounds ==> q["revenue"].bounds["$lte"] == p.maxRevenue.value))
    && ("name" in q <==> Truthy(p.search))
    && ("name" in q ==> q["name"] == Regex(p.search.value))
  }

  /** Builds the filter of `get_companies` one field at a time. */
  method CompanyQuery(p: CompanyParams) returns (q: Query)
    ensures IsCompanyQuery(q, p)
  {
    q := map[];
    if Truthy(p.expoId) { q := q["expo_id" := Equals(p.expoId.value)]; }
    if Truthy(p.industry) { q := q["industry" := Regex(p.industry.value)]; }
    if Truthy(p.hq) { q := q["hq" := Regex(p.hq.value)]; }
    if p.minRevenue.Some? || p.maxRevenue.Some? {
      var bounds: map<string, real> := map[];
      if p.minRevenue.Some? { bounds := bounds["$gte" := p.minRevenue.value]; }
      if p.maxRevenue.Some? { bounds := bounds["$lte" := p.maxRevenue.value]; }
      assert "$gte" in bounds || "$lte" in bounds;
      q := q["revenue" := Range(bounds)];
      if bounds == map[] { q := q - {"revenue"}; }
    }
    if Truthy(p.search) { q := q["name" := Regex(p.search.value)]; }
  }

  /** What the listing admits, read directly off the parameters: the
      reference the built filter is proved against. */
  predicate Admits(p: CompanyParams, c: Company, rx: (string, string) -> bool) {
    && (Truthy(p.expoId) ==> c.expoId == p.expoId.value)
    && (Truthy(p.industry) ==> rx(p.industry.value, c.industry))
    && (Truthy(p.hq) ==> rx(p.hq.value, c.hq))
    && (p.minRevenue.Some? ==> c.revenue >= p.minRevenue.value)
    && (p.maxRevenue.Some? ==> c.revenue <= p.maxRevenue.value)
    && (Truthy(p.search) ==> rx(p.search.value, c.name))
  }

  function AdmitsFn(p: CompanyParams, rx: (string, string) -> bool): Company -> bool {
    (c: Company) => Admits(p, c, rx)
  }

  /** A filter of the built shape admits exactly the companies the
      parameters describe. */
  lemma QueryMeaning(q: Query, p: CompanyParams, c: Company, rx: (string, string) -> bool)
    requires IsCompanyQuery(q, p)
    ensures CompanyMatches(q, c, rx) <==> Admits(p, c, rx)
  {
    if CompanyMatches(q, c, rx) {
      if Truthy(p.expoId) { assert Holds(q["expo_id"], FieldOf(c, "expo_id"), rx); }
      if Truthy(p.industry) { assert Holds(q["industry"], FieldOf(c, "industry"), rx); }
      if Truthy(p.hq) { assert Holds(q["hq"], FieldOf(c, "hq"), rx); }
      if p.minRevenue.Some? || p.maxRevenue.Some? {
        assert Holds(q["revenue"], FieldOf(c, "revenue"), rx);
      }
      if Truthy(p.search) { assert Holds(q["name"], FieldOf(c, "name"), rx); }
    }
    if Admits(p, c, rx) {
      forall key | key in q ensures Holds(q[key], FieldOf(c, key), rx) {
        assert key in {"expo_id", "industry", "hq", "revenue", "name"};
      }
    }
  }

  // ---- GET /api/expos/meta/filters ----------------------------------------

  datatype ExpoFilterLists = ExpoFilterLists(regions: seq<string>, industries: seq<string>)

  function Regions(expos: seq<Expo>): (r: seq<string>)
    ensures forall x :: x in r <==> exists e :: e in expos && e.region == x
  {
    var r := seq(|expos|, i requires 0 <= i < |expos| => expos[i].region);
    assert forall e :: e in expos ==> r[IndexOf(expos, e)] == e.region;
    r
  }

  function ExpoIndustries(expos: seq<Expo>): (r: seq<string>)
    ensures forall x :: x in r <==> exists e :: e in expos && e.industry == x
  {
    var r := seq(|expos|, i requires 0 <= i < |expos| => expos[i].industry);
    assert forall e :: e in expos ==> r[IndexOf(expos, e)] == e.industry;
    r
  }

  function IndexOf<T(==)>(s: seq<T>, x: T): (i: nat)
    requires x in s
    ensures i < |s| && s[i] == x
  {
    if s[0] == x then 0 else 1 + IndexOf(s[1..], x)
  }

  /** The distinct non-empty regions and industries of all expos, each list
      ascending. */
  function ExpoFilters(expos: seq<Expo>): (r: ExpoFilterLists)
    ensures StrictlySorted(r.regions) && StrictlySorted(r.industries)
    ensures forall x :: x in r.regions <==> x != "" && exists e :: e in expos && e.region == x
    ensures forall x :: x in r.industries <==> x != "" && exists e :: e in expos && e.industry == x
  {
    ExpoFilterLists(SortedDistinct(Regions(expos)), SortedDistinct(ExpoIndustries(expos)))
  }

  // ---- GET /api/companies/filters/options ---------------------------------

  datatype FilterOptions = FilterOptions(
    industries: seq<string>, hqs: seq<string>, minRevenue: real, maxRevenue: real)

  /** The answer when no company matches. */
  const DEFAULT_OPTIONS := FilterOptions([], [], 0.0, 1000.0)

  function InExpo(expoId: Option<string>): Company -> bool {
    (c: Company) => !Truthy(expoId) || c.expoId == expoId.value
  }

  function CompanyIndustries(cs: seq<Company>): (r: seq<string>)
    ensures forall x :: x in r <==> exists c :: c in cs && c.industry == x
  {
    var r := seq(|cs|, i requires 0 <= i < |cs| => cs[i].industry);
    assert forall c :: c in cs ==> r[IndexOf(cs, c)] == c.industry;
    r
  }

  function Hqs(cs: seq<Company>): (r: seq<string>)
    ensures forall x :: x in r <==> exists c :: c in cs && c.hq == x
  {
    var r := seq(|cs|, i requires 0 <= i < |cs| => cs[i].hq);
    assert forall c :: c in cs ==> r[IndexOf(cs, c)] == c.hq;
    r
  }

  /** `$min` over the revenues of a non-empty group. */
  function MinRevenue(cs: seq<Company>): (r: real)
    requires |cs| > 0
    ensures exists c :: c in cs && c.revenue == r
    ensures forall c :: c in cs ==> r <= c.revenue
  {
    if |cs| == 1 then cs[0].revenue
    else
      var m := MinRevenue(cs[1..]);
      assert forall c :: c in cs ==> c == cs[0] || c in cs[1..];
      if cs[0].revenue <= m then cs[0].revenue else m
  }

  /** `$max` over the revenues of a non-empty group. */
  function MaxRevenue(cs: seq<Company>): (r: real)
    requires |cs| > 0
    ensures exists c :: c in cs && c.revenue == r
    ensures forall c :: c in cs ==> c.revenue <= r
  {
    if |cs| == 1 then cs[0].revenue
    else
      var m := MaxRevenue(cs[1..]);
      assert forall c :: c in cs ==> c == cs[0] || c in cs[1..];
      if cs[0].revenue >= m then cs[0].revenue else m
  }

  /** The filter choices offered for the companies of one expo (or of all
      expos when no expo is given). */
  function CompanyFilterOptions(companies: seq<Company>, expoId: Option<string>): (r: FilterOptions)
    ensures var m := Filter(companies, InExpo(expoId));
      && (|m| == 0 ==> r == DEFAULT_OPTIONS)
      && (|m| > 0 ==>
            && StrictlySorted(r.industries) && StrictlySorted(r.hqs)
            && (forall x :: x in r.industries <==> x != "" && exists c :: c in m && c.industry == x)
            && (forall x :: x in r.hqs <==> x != "" && exists c :: c in m && c.hq == x)
            && (forall c :: c in m ==> r.minRevenue <= c.revenue <= r.maxRevenue)
            && (exists c :: c in m && c.revenue == r.minRevenue)
            && (exists c :: c in m && c.revenue == r.maxRevenue))
  {
    var m := Filter(companies, InExpo(expoId));
    if |m| == 0 then DEFAULT_OPTIONS
    else
      FilterOptions(SortedDistinct(CompanyIndustries(m)), SortedDistinct(Hqs(m)),
                    MinRevenue(m), MaxRevenue(m))
  }

  /** The range offered never runs backwards. */
  lemma OptionsRangeOrdered(companies: seq<Company>, expoId: Option<string>)
    ensures CompanyFilterOptions(companies, expoId).minRevenue <= CompanyFilterOptions(companies, expoId).maxRevenue
  {
    var m := Filter(companies, InExpo(expoId));
    if |m| > 0 {
      assert m[0] in m;
    }
  }

  /** Every company offered by the options belongs to the expo asked for. */
  lemma OptionsComeFromExpo(companies: seq<Company>, expoId: Option<string>, x: string)
    requires Truthy(expoId)
    requires x in CompanyFilterOptions(companies, expoId).industries
    ensures exists c :: c in companies && c.expoId == expoId.value && c.industry == x
  {
    var m := Filter(companies, InExpo(expoId));
    var c :| c in m && c.industry == x;
    assert InExpo(expoId)(c);
  }
}
