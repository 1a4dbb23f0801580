/** The records the digest pipeline passes between its stages: collected and
    stored signals, business units, scoring dimensions and the analysis that
    scoring attaches to a signal. */
module Model {
  import Wire

  datatype Option<T> = None | Some(value: T)

  /** The seven signal classes of the analysis. */
  datatype SignalType =
    | CompetitiveThreat
    | RevenueOpportunity
    | MarketShift
    | PartnershipSignal
    | CustomerIntelligence
    | TechnologyTrend
    | TradeTariff
  {
    /** The identifier the analysis and the database use for the class. */
    function Id(): string {
      match this
      case CompetitiveThreat => "competitive-threat"
      case RevenueOpportunity => "revenue-opportunity"
      case MarketShift => "market-shift"
      case PartnershipSignal => "partnership-signal"
      case CustomerIntelligence => "customer-intelligence"
      case TechnologyTrend => "technology-trend"
      case TradeTariff => "trade-tariff"
    }
  }

  /** The class with the given identifier, if there is one. */
  function ParseSignalType(s: string): (r: Option<SignalType>)
    ensures r.Some? ==> r.value.Id() == s
  {
    if s == "competitive-threat" then Some(CompetitiveThreat)
    else if s == "revenue-opportunity" then Some(RevenueOpportunity)
    else if s == "market-shift" then Some(MarketShift)
    else if s == "partnership-signal" then Some(PartnershipSignal)
    else if s == "customer-intelligence" then Some(CustomerIntelligence)
    else if s == "technology-trend" then Some(TechnologyTrend)
    else if s == "trade-tariff" then Some(TradeTariff)
    else None
  }

  /** Every class is found again from its identifier, so identifiers are distinct. */
  lemma ParseId(t: SignalType)
    ensures ParseSignalType(t.Id()) == Some(t)
  {
  }

  /** Life-cycle status of a stored signal. */
  datatype Status = New | Validated | Scored | Published {
    function Name(): string {
      match this
      case New => "new"
      case Validated => "validated"
      case Scored => "scored"
      case Published => "published"
    }
  }

  /** A signal as a collector produces it, before it is stored. */
  datatype Collected = Collected(
    externalId: string,
    title: string,
    summary: string,
    url: string,
    sourceId: string,
    sourceName: string,
    sourceTier: int,
    publishedAt: Option<string>,
    rawContent: Option<string>,
    imageUrl: Option<string>)

  /** A stored row of the signals table. */
  datatype Signal = Signal(
    id: nat,
    externalId: string,
    title: string,
    summary: string,
    url: string,
    sourceId: string,
    sourceName: string,
    sourceTier: int,
    publishedAt: Option<string>,
    rawContent: Option<string>,
    imageUrl: Option<string>,
    status: Status)

  /** A business unit of the catalogue. */
  datatype BusinessUnit = BusinessUnit(
    id: string,
    name: string,
    active: bool,
    keywords: seq<string>,
    products: seq<string>,
    industries: seq<string>,
    competitors: seq<string>,
    color: Option<string>)

  /** A scoring dimension: its id, label (name), weight, description and scale notes. */
  datatype Dimension = Dimension(
    id: string,
    name: string,
    weight: real,
    description: string,
    scale: seq<(nat, string)>)

  /** A business unit a signal was matched to, with its relevance. */
  datatype BuMatch = BuMatch(buId: string, relevance: real)

  /** How an analysis was obtained. */
  datatype Method = Heuristic | Ai | AiBatch {
    function Name(): string {
      match this
      case Heuristic => "heuristic"
      case Ai => "ai"
      case AiBatch => "ai-batch"
    }
  }

  /** The four dimensions every analysis scores. */
  const RevenueImpact := "revenue_impact"
  const TimeSensitivity := "time_sensitivity"
  const StrategicAlignment := "strategic_alignment"
  const CompetitivePressure := "competitive_pressure"
  const RequiredDimensions: seq<string> :=
    [RevenueImpact, TimeSensitivity, StrategicAlignment, CompetitivePressure]

  /** The analysis of one signal, as scoring returns it. */
  datatype Analysis = Analysis(
    signalType: SignalType,
    scores: map<string, Wire.Num>,
    composite: real,
    buMatches: seq<BuMatch>,
    headline: string,
    whatSummary: string,
    whyItMatters: string,
    quickWin: string,
    suggestedOwner: string,
    estimatedImpact: string,
    outreach: Option<string>,
    analysisMethod: Method)

  /** A signal merged with its analysis (the signal dict after `update`). */
  datatype ScoredSignal = ScoredSignal(signal: Signal, analysis: Analysis) {
    function CompositeScore(): real { analysis.composite }
  }

  /** A strategic initiative of the catalogue's strategic context. */
  datatype Initiative = Initiative(name: string, description: string, launchEvent: Option<string>)

  /** The strategic context of the business-unit catalogue; None marks a missing key. */
  datatype Strategic = Strategic(
    productionHub: Option<string>,
    indiaAdvantage: Option<string>,
    targetAccounts: seq<string>,
    priorities: seq<string>,
    initiatives: seq<Initiative>)

  /** The business-unit catalogue. */
  datatype BuConfig = BuConfig(units: seq<BusinessUnit>, strategic: Strategic)

  /** The scoring thresholds; None marks a missing key. */
  datatype Thresholds = Thresholds(includeInDigest: Option<real>, maxSignalsPerDigest: Option<int>)

  /** The scoring configuration: the weighted dimensions, in configuration order. */
  datatype ScoringConfig = ScoringConfig(dimensions: seq<Dimension>, thresholds: Thresholds)

  /** An entry of the recipient list; None marks a missing key. */
  datatype Recipient = Recipient(
    id: string,
    name: string,
    email: string,
    role: string,
    groups: seq<string>,
    buFilter: seq<string>,
    signalTypeFilter: seq<string>,
    status: Option<string>,
    createdAt: Option<string>,
    notes: string)
  {
    /** `r.get("status") == "active"` */
    predicate Active() {
      status == Some("active")
    }
  }

  /** `r.get("status") == "active"`, as a value to filter and count with. */
  function IsActive(r: Recipient): bool {
    r.Active()
  }

  /** An entry of the source list; None marks a missing key. */
  datatype SourceConfig = SourceConfig(
    id: string,
    name: string,
    url: string,
    sourceType: Option<string>,
    active: Option<bool>,
    tier: Option<int>)
  {
    /** `source.get("active", True)` */
    predicate Enabled() {
      active != Some(false)
    }

    /** `source.get("tier", 2)` */
    function Tier(): int {
      if tier.Some? then tier.value else 2
    }
  }
}
