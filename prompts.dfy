/** The prompts sent to the language model: the system prompt built from the
    business-unit catalogue, the prompt for one signal and the prompt for a batch.
    The fixed instruction text between the variable parts is kept in the
    constants below, in the order it appears. */
module Prompts {
  import opened Model
  import opened Text
  import Sorting

  /** The identifiers the analysis may use for a signal class, in catalogue order. */
  const ValidSignalTypes: seq<string> := [
    "competitive-threat",
    "revenue-opportunity",
    "market-shift",
    "partnership-signal",
    "customer-intelligence",
    "technology-trend",
    "trade-tariff"
  ]

  /** The list is exactly the identifiers of the seven classes: a string is listed
      iff it names a class. */
  lemma ValidSignalTypesExact(s: string)
    ensures s in ValidSignalTypes <==> ParseSignalType(s).Some?
    ensures |ValidSignalTypes| == 7
  {
  }

  /** The list holds no identifier twice. */
  lemma ValidSignalTypesDistinct()
    ensures forall i, j :: 0 <= i < j < |ValidSignalTypes| ==> ValidSignalTypes[i] != ValidSignalTypes[j]
  {
  }

  /** `", ".join(f'"{t}"' for t in VALID_SIGNAL_TYPES)` */
  function QuotedTypes(ts: seq<string>): string {
    Join(", ", QuoteEach(ts))
  }

  function QuoteEach(ts: seq<string>): (r: seq<string>)
    ensures |r| == |ts|
    ensures forall i :: 0 <= i < |ts| ==> r[i] == "\"" + ts[i] + "\""
  {
    if ts == [] then [] else ["\"" + ts[0] + "\""] + QuoteEach(ts[1..])
  }

  // ---- system prompt ----

  /** The long fixed passages of the prompts: the analyst's role and task list in
      the system prompt, the output instructions around the list of signal classes
      in the two analysis prompts, and that list. */
  datatype Instructions = Instructions(
    analystRole: string,
    analysisRequirements: string,
    signalOutputHead: string,
    signalOutputTail: string,
    batchOutputHead: string,
    batchOutputTail: string,
    signalTypes: string)

  /** The passages the deployed prompts use. */
  const DeployedInstructions := Instructions(
    "You are VPG's Strategic Intelligence Analyst. Your job is to analyze industry signals and generate actionable intelligence for VPG's business teams.\n\n## VPG Business Units\n\n",
    "\n\n## Key Competitors Across All BUs\n\nTT Electronics, HBK (Hottinger Bruel & Kjaer), Zemic, Rice Lake, Kistler, Kyowa, NMB, Omega, Novanta, Flintec, Sunrise Instruments, Figure AI, Boston Dynamics\n\n## Your Analysis Requirements\n\n1. Every signal MUST map to at least one VPG business unit\n2. Every signal MUST include a specific, executable action for this week\n3. Scoring must be objective and evidence-based\n4. Actions must name a specific owner role (e.g., \"VP Sales - Force Sensors\", \"BU Manager - KELK\")\n5. Revenue impact estimates must be realistic and grounded\n6. When trade/tariff signals arise, always include VPG's India production advantage angle",
    "\n\n## Required Output\n\nReturn a single JSON object with exactly these fields:\n\n```json\n{\n  \"signal_type\": \"<one of: ",
    ">\",\n  \"relevant_bus\": [\n    {\"bu_id\": \"<business-unit-id>\", \"relevance_score\": <0.0-1.0>}\n  ],\n  \"scores\": {\n    \"revenue_impact\": <1-10>,\n    \"time_sensitivity\": <1-10>,\n    \"strategic_alignment\": <1-10>,\n    \"competitive_pressure\": <1-10>\n  },\n  \"headline\": \"<concise action-oriented headline, max 100 chars>\",\n  \"what_summary\": \"<2-3 sentence factual summary of the signal>\",\n  \"why_it_matters\": \"<2-3 sentences on specific relevance to the matched VPG BU(s)>\",\n  \"quick_win\": \"<one specific action to take THIS WEEK, with enough detail to execute>\",\n  \"suggested_owner\": \"<specific role, e.g. 'VP Sales - Force Sensors'>\",\n  \"estimated_impact\": \"<revenue range, e.g. '$200K-$500K' or 'Defensive - protect $1M+ account'>\",\n  \"outreach_template\": \"<optional: 2-3 sentence email/LinkedIn outreach draft if signal_type is revenue-opportunity or partnership-signal, otherwise null>\"\n}\n```\n\nRules:\n- relevant_bus MUST contain at least one entry\n- All score values must be integers from 1 to 10\n- headline must be concise and action-oriented\n- quick_win must be specific enough to execute this week\n- suggested_owner must name a role tied to a specific BU\n- Return ONLY the JSON object, no additional text",
    "\n\n## Required Output\n\nReturn a JSON array with one object per signal, in the same order. Each object must have:\n- signal_type: one of ",
    "\n- relevant_bus: array of {\"bu_id\": \"<id>\", \"relevance_score\": <0-1>}\n- scores: {\"revenue_impact\": <1-10>, \"time_sensitivity\": <1-10>, \"strategic_alignment\": <1-10>, \"competitive_pressure\": <1-10>}\n- headline: concise action-oriented headline\n- what_summary: 2-3 sentence factual summary\n- why_it_matters: BU-specific relevance\n- quick_win: specific action for this week\n- suggested_owner: role tied to a BU\n- estimated_impact: revenue range string\n- outreach_template: outreach draft or null\n\nReturn ONLY a JSON array, no additional text.",
    QuotedTypes(ValidSignalTypes))

  const SystemText1 := "\n\n## Strategic Context\n\n- **Production Hub:** "
  const SystemText2 := " — "
  const SystemText3 := "\n- **Target Accounts:** "
  const SystemText4 := "\n- **Current Initiatives:**\n"
  const SystemText5 := "\n## Monitoring Priorities\n\n"

  /** `bu.get(key, default)` for a text key of the strategic context. */
  function OrDefault(o: Option<string>, default: string): string {
    match o
    case Some(s) => s
    case None => default
  }

  /** The line describing one business unit. */
  function BuLine(bu: BusinessUnit): (line: string)
    ensures StartsWith(line, "- **" + bu.name + "** (id: " + bu.id + "): ")
    ensures Join(", ", bu.competitors) == "" ==> EndsWith(line, "Competitors: N/A.")
    ensures Join(", ", bu.competitors) != "" ==> EndsWith(line, "Competitors: " + Join(", ", bu.competitors) + ".")
  {
    var competitors := Join(", ", bu.competitors);
    var head := "- **" + bu.name + "** (id: " + bu.id + "): ";
    var shown := if competitors == "" then "N/A" else competitors;
    var tail := "Competitors: " + shown + ".";
    var mid := "Products: " + Join(", ", bu.products) + ". "
      + "Industries: " + Join(", ", bu.industries) + ". ";
    assert competitors == "" ==> tail == "Competitors: N/A.";
    AppendAssoc(head, mid, tail);
    StartsWithConcat(head, mid + tail);
    EndsWithConcat(head + mid, tail);
    head + mid + tail
  }

  /** One line per business unit, in catalogue order. */
  function BuLines(units: seq<BusinessUnit>): (lines: seq<string>)
    ensures |lines| == |units|
    ensures forall i :: 0 <= i < |units| ==> lines[i] == BuLine(units[i])
  {
    if units == [] then [] else [BuLine(units[0])] + BuLines(units[1..])
  }

  /** One line per initiative, each ending in a newline; a missing launch event reads "TBD". */
  function InitiativeLines(inits: seq<Initiative>): string {
    if inits == [] then ""
    else
      var i := inits[0];
      "- " + i.name + ": " + i.description + " (launch: " + OrDefault(i.launchEvent, "TBD") + ")\n"
        + InitiativeLines(inits[1..])
  }

  function Bulleted(items: seq<string>): (r: seq<string>)
    ensures |r| == |items|
    ensures forall i :: 0 <= i < |items| ==> r[i] == "- " + items[i]
  {
    if items == [] then [] else ["- " + items[0]] + Bulleted(items[1..])
  }

  /** `build_system_prompt` over the business-unit catalogue. */
  function SystemPrompt(ins: Instructions, config: BuConfig): string {
    ins.analystRole + Join("\n", BuLines(config.units)) + StrategicText(ins, config.strategic)
  }

  /** The part of the system prompt after the business-unit lines. */
  function StrategicText(ins: Instructions, st: Strategic): string {
    SystemText1 + OrDefault(st.productionHub, "India")
      + SystemText2 + OrDefault(st.indiaAdvantage, "competitive advantage vs China-dependent competitors")
      + SystemText3 + Join(", ", st.targetAccounts)
      + SystemText4 + InitiativeLines(st.initiatives)
      + SystemText5 + Join("\n", Bulleted(st.priorities))
      + ins.analysisRequirements
  }

  /** The system prompt lists every business unit's line. */
  lemma SystemPromptListsUnits(ins: Instructions, config: BuConfig, i: nat)
    requires i < |config.units|
    ensures Contains(SystemPrompt(ins, config), BuLine(config.units[i]))
  {
    var lines := BuLines(config.units);
    JoinContainsPart("\n", lines, i);
    ContainsInLonger(ins.analystRole, Join("\n", lines), StrategicText(ins, config.strategic), BuLine(config.units[i]));
  }

  /** Every part of a join occurs in the joined string. */
  lemma {:induction false} JoinContainsPart(sep: string, parts: seq<string>, i: nat)
    requires i < |parts|
    ensures Contains(Join(sep, parts), parts[i])
  {
    if |parts| == 1 {
      assert MatchAt(parts[0], parts[0], 0);
    } else if i == 0 {
      assert MatchAt(parts[0], parts[0], 0);
      ContainsInLonger([], parts[0], sep + Join(sep, parts[1..]), parts[0]);
      assert [] + parts[0] + (sep + Join(sep, parts[1..])) == Join(sep, parts);
    } else {
      JoinContainsPart(sep, parts[1..], i - 1);
      ContainsInLonger(parts[0] + sep, Join(sep, parts[1..]), [], parts[i]);
      assert parts[0] + sep + Join(sep, parts[1..]) + [] == Join(sep, parts);
    }
  }

  // ---- single-signal prompt ----

  const SignalText0 := "Analyze this industry signal and produce a structured intelligence assessment.\n\n## Signal Data\n\n**Title:** "
  const SignalText1 := "\n**Source:** "
  const SignalText2 := " (Tier "
  const SignalText3 := ")\n**URL:** "
  const SignalText4 := "\n**Published:** "
  const SignalText5 := "\n**Summary:** "
  const SignalText6 := "\n**Full Content:** "
  const SignalText7 := "\n\n## Scoring Dimensions\n\n"

  /** `f"{k}={v}"` for the scale entries of a dimension, highest score first. */
  function ScaleEntries(scale: seq<(nat, string)>): seq<(nat, string)> {
    Sorting.SortDesc(scale, (e: (nat, string)) => e.0 as real)
  }

  /** The scale is listed in descending order of its numeric keys, with every entry once. */
  lemma ScaleEntriesDescending(scale: seq<(nat, string)>)
    ensures forall i, j :: 0 <= i < j < |ScaleEntries(scale)| ==> ScaleEntries(scale)[i].0 >= ScaleEntries(scale)[j].0
    ensures multiset(ScaleEntries(scale)) == multiset(scale)
  {
    var key := (e: (nat, string)) => e.0 as real;
    Sorting.SortDescSorted(scale, key);
    assert Sorting.SortedDesc(ScaleEntries(scale), key);
    forall i, j | 0 <= i < j < |ScaleEntries(scale)|
      ensures ScaleEntries(scale)[i].0 >= ScaleEntries(scale)[j].0
    {
      assert key(ScaleEntries(scale)[i]) >= key(ScaleEntries(scale)[j]);
    }
  }

  function ScaleItems(entries: seq<(nat, string)>): (r: seq<string>)
    ensures |r| == |entries|
    ensures forall i :: 0 <= i < |entries| ==> r[i] == NatToString(entries[i].0) + "=" + entries[i].1
  {
    if entries == [] then [] else [NatToString(entries[0].0) + "=" + entries[0].1] + ScaleItems(entries[1..])
  }

  /** The description line of one dimension; `showWeight` prints a weight as Python does. */
  function DimensionLine(d: Dimension, showWeight: real -> string): string {
    "- **" + d.name + "** (weight: " + showWeight(d.weight) + ", id: " + d.id + "): "
      + d.description + ". Scale: " + Join("; ", ScaleItems(ScaleEntries(d.scale)))
  }

  function DimensionLines(dims: seq<Dimension>, showWeight: real -> string): (r: seq<string>)
    ensures |r| == |dims|
    ensures forall i :: 0 <= i < |dims| ==> r[i] == DimensionLine(dims[i], showWeight)
  {
    if dims == [] then [] else [DimensionLine(dims[0], showWeight)] + DimensionLines(dims[1..], showWeight)
  }

  /** `str(x)` of an optional database value: None prints as "None". */
  function ShowOptional(o: Option<string>): string {
    match o
    case Some(s) => s
    case None => "None"
  }

  /** `(raw_content or 'Not available')[:3000]` */
  function FullContent(s: Signal): (r: string)
    ensures |r| <= 3000
    ensures (s.rawContent == None || s.rawContent == Some("")) ==> r == "Not available"
    ensures s.rawContent.Some? && s.rawContent.value != "" ==> r == Prefix(s.rawContent.value, 3000)
  {
    match s.rawContent
    case Some(c) => if c == "" then "Not available" else Prefix(c, 3000)
    case None => "Not available"
  }

  /** `build_signal_prompt` */
  function SignalPrompt(ins: Instructions, s: Signal, dims: seq<Dimension>, showWeight: real -> string): string {
    SignalText0 + s.title
      + SignalText1 + s.sourceName
      + SignalText2 + IntToString(s.sourceTier)
      + SignalText3 + s.url
      + SignalText4 + ShowOptional(s.publishedAt)
      + SignalText5 + s.summary
      + SignalText6 + FullContent(s)
      + SignalText7 + Join("\n", DimensionLines(dims, showWeight))
      + ins.signalOutputHead + ins.signalTypes
      + ins.signalOutputTail
  }

  /** The single-signal prompt describes every scoring dimension. */
  lemma SignalPromptListsDimensions(ins: Instructions, s: Signal, dims: seq<Dimension>, showWeight: real -> string, i: nat)
    requires i < |dims|
    ensures Contains(SignalPrompt(ins, s, dims, showWeight), DimensionLine(dims[i], showWeight))
  {
    var lines := DimensionLines(dims, showWeight);
    JoinContainsPart("\n", lines, i);
    var head := SignalText0 + s.title
      + SignalText1 + s.sourceName
      + SignalText2 + IntToString(s.sourceTier)
      + SignalText3 + s.url
      + SignalText4 + ShowOptional(s.publishedAt)
      + SignalText5 + s.summary
      + SignalText6 + FullContent(s)
      + SignalText7;
    var tail := ins.signalOutputHead + ins.signalTypes + ins.signalOutputTail;
    ContainsInLonger(head, Join("\n", lines), tail, lines[i]);
    assert SignalPrompt(ins, s, dims, showWeight) == head + Join("\n", lines) + tail;
  }

  // ---- batch prompt ----

  const BatchText0 := "Analyze these "
  const BatchText1 := " industry signals and produce structured intelligence for each.\n\n## Signals\n\n"
  const BatchText2 := "\n\n## Scoring Dimensions\n\n"

  /** `(summary or 'No summary')[:500]` */
  function BatchSummary(s: Signal): (r: string)
    ensures |r| <= 500
    ensures s.summary == "" ==> r == "No summary"
    ensures s.summary != "" ==> r == Prefix(s.summary, 500)
  {
    if s.summary == "" then "No summary" else Prefix(s.summary, 500)
  }

  /** The heading of the block for the signal at 0-based position `i`. */
  function BlockHeading(i: nat): string {
    "### Signal " + NatToString(i + 1) + "\n"
  }

  /** The block of the signal at 0-based position `i`. */
  function SignalBlock(i: nat, s: Signal): (b: string)
    ensures StartsWith(b, BlockHeading(i))
  {
    var rest := "**Title:** " + s.title + "\n"
      + "**Source:** " + s.sourceName + " (Tier " + IntToString(s.sourceTier) + ")\n"
      + "**URL:** " + s.url + "\n"
      + "**Summary:** " + BatchSummary(s) + "\n";
    StartsWithConcat(BlockHeading(i), rest);
    BlockHeading(i) + rest
  }

  /** The blocks of `signals`, in order, numbered from 1. */
  function SignalBlocks(signals: seq<Signal>): (r: seq<string>)
    ensures |r| == |signals|
    ensures forall i :: 0 <= i < |signals| ==> r[i] == SignalBlock(i, signals[i])
  {
    seq(|signals|, i requires 0 <= i < |signals| => SignalBlock(i, signals[i]))
  }

  /** The short line of one dimension in the batch prompt. */
  function BatchDimensionLine(d: Dimension, showWeight: real -> string): string {
    "- " + d.name + " (id: " + d.id + ", weight: " + showWeight(d.weight) + ")"
  }

  function BatchDimensionLines(dims: seq<Dimension>, showWeight: real -> string): (r: seq<string>)
    ensures |r| == |dims|
    ensures forall i :: 0 <= i < |dims| ==> r[i] == BatchDimensionLine(dims[i], showWeight)
  {
    if dims == [] then [] else [BatchDimensionLine(dims[0], showWeight)] + BatchDimensionLines(dims[1..], showWeight)
  }

  /** `build_batch_prompt` */
  function BatchPrompt(ins: Instructions, signals: seq<Signal>, dims: seq<Dimension>, showWeight: real -> string): string {
    BatchHead(|signals|) + Join("\n", SignalBlocks(signals)) + BatchTail(ins, dims, showWeight)
  }

  /** The batch prompt opens with the heading that states how many signals it holds. */
  lemma BatchPromptCount(ins: Instructions, signals: seq<Signal>, dims: seq<Dimension>, showWeight: real -> string)
    ensures StartsWith(BatchPrompt(ins, signals, dims, showWeight), BatchHead(|signals|))
  {
    var head := BatchHead(|signals|);
    var rest := Join("\n", SignalBlocks(signals)) + BatchTail(ins, dims, showWeight);
    assert BatchPrompt(ins, signals, dims, showWeight) == head + rest;
    assert (head + rest)[..|head|] == head;
  }

  /** The opening of the batch prompt, which states how many signals follow. */
  function BatchHead(count: nat): string {
    BatchText0 + NatToString(count) + BatchText1
  }

  /** The part of the batch prompt after the signal blocks. */
  function BatchTail(ins: Instructions, dims: seq<Dimension>, showWeight: real -> string): string {
    BatchText2 + Join("\n", BatchDimensionLines(dims, showWeight))
      + ins.batchOutputHead + ins.signalTypes
      + ins.batchOutputTail
  }

  /** The batch prompt holds the block of the i-th signal, headed "### Signal i+1". */
  lemma BatchPromptHasBlock(ins: Instructions, signals: seq<Signal>, dims: seq<Dimension>, showWeight: real -> string, i: nat)
    requires i < |signals|
    ensures Contains(BatchPrompt(ins, signals, dims, showWeight), SignalBlock(i, signals[i]))
  {
    var blocks := SignalBlocks(signals);
    JoinContainsPart("\n", blocks, i);
    var head := BatchHead(|signals|);
    var tail := BatchTail(ins, dims, showWeight);
    assert blocks[i] == SignalBlock(i, signals[i]);
    ContainsInLonger(head, Join("\n", blocks), tail, blocks[i]);
  }
}
