/** The report schema (types.ts) and the untyped JSON values the generation service
    produces before they are read through that schema. */
module Types {
  import opened Wrappers

  /** The lifecycle of one analysis job, as shown to the user. */
  datatype JobStatus = Idle | Crawling | Analyzing | Completed | Failed

  /** Every job status, each exactly once. */
  const AllStatuses: seq<JobStatus> := [Idle, Crawling, Analyzing, Completed, Failed]

  /** The string value each status carries in the enum. */
  function StatusName(s: JobStatus): string {
    match s
    case Idle => "IDLE"
    case Crawling => "CRAWLING"
    case Analyzing => "ANALYZING"
    case Completed => "COMPLETED"
    case Failed => "FAILED"
  }

  /** The status whose enum value is `name`, if any. */
  function ParseStatus(name: string): (r: Option<JobStatus>)
    ensures r.Some? ==> StatusName(r.value) == name
    ensures (exists s :: StatusName(s) == name) ==> r.Some?
  {
    if name == "IDLE" then Some(Idle)
    else if name == "CRAWLING" then Some(Crawling)
    else if name == "ANALYZING" then Some(Analyzing)
    else if name == "COMPLETED" then Some(Completed)
    else if name == "FAILED" then Some(Failed)
    else None
  }

  /** The enum has exactly five members with five distinct string values. */
  lemma StatusEnumeration()
    ensures |AllStatuses| == 5
    ensures forall s: JobStatus :: s in AllStatuses
    ensures forall i, j :: 0 <= i < j < |AllStatuses| ==> StatusName(AllStatuses[i]) != StatusName(AllStatuses[j])
    ensures forall s: JobStatus :: ParseStatus(StatusName(s)) == Some(s)
  {
    forall s: JobStatus ensures s in AllStatuses {
      match s
      case Idle => assert AllStatuses[0] == s;
      case Crawling => assert AllStatuses[1] == s;
      case Analyzing => assert AllStatuses[2] == s;
      case Completed => assert AllStatuses[3] == s;
      case Failed => assert AllStatuses[4] == s;
    }
  }

  /** Support of one company for one feature: a plain yes/no or a free-text qualifier
      such as "Enterprise only". */
  datatype Availability = Flag(available: bool) | Qualifier(text: string)

  datatype Feature = Feature(
    name: string,
    canonicalFeature: string,
    confidence: real,
    evidenceSnippet: string,
    availability: map<string, Availability>)  // keyed by company URL

  datatype PricingTier = PricingTier(
    tierName: string,
    price: string,
    billingCycle: string,
    featuresIncluded: seq<string>)

  datatype PricingModel = PricingModel(
    url: string,
    hasFreeTrial: bool,
    currency: string,
    tiers: seq<PricingTier>)

  datatype MetaHealth = Good | Fair | Poor

  datatype Freshness = High | Medium | Low

  function MetaHealthName(h: MetaHealth): string {
    match h
    case Good => "Good"
    case Fair => "Fair"
    case Poor => "Poor"
  }

  /** The meta-description health named by `name`: only the three literal values exist. */
  function ParseMetaHealth(name: string): (r: Option<MetaHealth>)
    ensures r.Some? <==> name in {"Good", "Fair", "Poor"}
    ensures r.Some? ==> MetaHealthName(r.value) == name
  {
    if name == "Good" then Some(Good)
    else if name == "Fair" then Some(Fair)
    else if name == "Poor" then Some(Poor)
    else None
  }

  function FreshnessName(f: Freshness): string {
    match f
    case High => "High"
    case Medium => "Medium"
    case Low => "Low"
  }

  /** The blog freshness named by `name`: only the three literal values exist. */
  function ParseFreshness(name: string): (r: Option<Freshness>)
    ensures r.Some? <==> name in {"High", "Medium", "Low"}
    ensures r.Some? ==> FreshnessName(r.value) == name
  {
    if name == "High" then Some(High)
    else if name == "Medium" then Some(Medium)
    else if name == "Low" then Some(Low)
    else None
  }

  datatype SeoSignals = SeoSignals(
    url: string,
    pageSpeedScore: real,  // documented as 0-100, not enforced
    metaDescriptionHealth: MetaHealth,
    schemaTypes: seq<string>,
    blogFreshness: Freshness,
    mobileFriendly: bool)

  datatype CompanyProfile = CompanyProfile(
    url: string,
    name: string,
    description: string,
    colors: seq<string>)

  datatype Swot = Swot(
    strengths: seq<string>,
    weaknesses: seq<string>,
    opportunities: seq<string>,
    threats: seq<string>)

  datatype TechStack = TechStack(
    url: string,
    frontend: seq<string>,
    backend: seq<string>,
    analytics: seq<string>)

  /** A company's place on the strategy map: x is innovation, y market presence. */
  datatype Position = Position(x: real, y: real)

  /** The report aggregate. The first four fields are identity and echoed input; the
      other nine are the generated content. */
  datatype AnalysisReport = AnalysisReport(
    id: string,
    timestamp: string,
    primaryUrl: string,
    competitors: seq<string>,
    profiles: seq<CompanyProfile>,
    features: seq<Feature>,
    pricing: seq<PricingModel>,
    seo: seq<SeoSignals>,
    swot: map<string, Swot>,
    techStacks: seq<TechStack>,
    marketPositioning: map<string, Position>,
    summary: string,
    recommendations: seq<string>)

  /** The documented 0-100 scale of speed scores and positioning axes. */
  predicate OnScale(v: real) {
    0.0 <= v <= 100.0
  }

  /** Every score and coordinate of the report lies on the documented scale. */
  ghost predicate ScoresOnScale(r: AnalysisReport) {
    && (forall i :: 0 <= i < |r.seo| ==> OnScale(r.seo[i].pageSpeedScore))
    && (forall u :: u in r.marketPositioning ==>
          OnScale(r.marketPositioning[u].x) && OnScale(r.marketPositioning[u].y))
  }

  /** Every company of the analysis: the primary URL first, then the competitors. */
  function Companies(r: AnalysisReport): (urls: seq<string>)
    ensures |urls| == 1 + |r.competitors|
    ensures urls[0] == r.primaryUrl && urls[1..] == r.competitors
  {
    [r.primaryUrl] + r.competitors
  }

  /** The JSON keys of the identity and input fields, set by hydration. */
  const IdentityKeys: seq<string> := ["id", "timestamp", "primaryUrl", "competitors"]

  /** The JSON keys of the nine content fields, produced by the generation service. */
  const ContentKeys: seq<string> :=
    ["profiles", "features", "pricing", "seo", "swot", "tech_stacks",
     "market_positioning", "summary", "recommendations"]

  /** A report has four identity keys and nine distinct content keys, and no key is both. */
  lemma SchemaKeys()
    ensures |IdentityKeys| == 4 && |ContentKeys| == 9
    ensures forall i, j :: 0 <= i < j < |ContentKeys| ==> ContentKeys[i] != ContentKeys[j]
    ensures forall j :: 0 <= j < |ContentKeys| ==> ContentKeys[j] !in IdentityKeys
  {
  }

  /** A JSON value as `JSON.parse` returns it. Numbers are JavaScript numbers, taken here
      as reals. */
  datatype Value =
    | JNull
    | JBool(b: bool)
    | JNumber(n: real)
    | JString(s: string)
    | JArray(items: seq<Value>)
    | JObject(fields: map<string, Value>)

  /** A JavaScript object built at run time: its own enumerable properties. */
  type JsObject = map<string, Value>
}
