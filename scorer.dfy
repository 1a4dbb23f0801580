/** The scoring engine: the weighted composite, keyword matching of a signal to
    business units, validation of an analysis returned by the language model,
    the keyword heuristic used when no such analysis is available, and the
    single-signal and batch entry points that choose between them. */
module Scorer {
  import opened Model
  import opened Text
  import opened Wire
  import Sorting
  import Prompts
  import Seqs

  // ---------------------------------------------------------------- composite

  /** `weight * scores.get(dim_id, 0)` without the weight: a missing key counts 0,
      a number its value; any other value makes the product raise (None). */
  function Term(scores: map<string, Num>, id: string): Option<real> {
    if id !in scores then Some(0.0)
    else if scores[id].Number? then Some(scores[id].value)
    else None
  }

  /** Sum over the configured dimensions of weight times score, or None when one
      of the products raises. */
  function WeightedSum(dims: seq<Dimension>, scores: map<string, Num>): Option<real>
    decreases |dims|
  {
    if dims == [] then Some(0.0)
    else AddTerm(WeightedSum(dims[..|dims| - 1], scores), dims[|dims| - 1].weight, Term(scores, dims[|dims| - 1].id))
  }

  /** `composite += weight * score`, where either side may already have raised. */
  function AddTerm(acc: Option<real>, weight: real, t: Option<real>): Option<real> {
    if acc.None? || t.None? then None else Some(acc.value + Times(weight, t.value))
  }

  /** A product of two reals. The weighted sums and their bounds are stated with
      it, so that each proof step about them unfolds only the products it needs. */
  function Times(a: real, b: real): real {
    a * b
  }

  function TotalWeight(dims: seq<Dimension>): real
    decreases |dims|
  {
    if dims == [] then 0.0 else TotalWeight(dims[..|dims| - 1]) + dims[|dims| - 1].weight
  }

  /** The composite raises exactly when a configured dimension holds a value
      that is not a number. */
  lemma {:induction false} CompositeRaises(dims: seq<Dimension>, scores: map<string, Num>)
    ensures WeightedSum(dims, scores).None? <==> exists i :: 0 <= i < |dims| && Term(scores, dims[i].id).None?
    decreases |dims|
  {
    if dims != [] {
      var init := dims[..|dims| - 1];
      CompositeRaises(init, scores);
      if exists i :: 0 <= i < |init| && Term(scores, init[i].id).None? {
        var i :| 0 <= i < |init| && Term(scores, init[i].id).None?;
        assert dims[i] == init[i];
      }
      if exists i :: 0 <= i < |dims| && Term(scores, dims[i].id).None? {
        var i :| 0 <= i < |dims| && Term(scores, dims[i].id).None?;
        if i < |init| {
          assert init[i] == dims[i];
        }
      }
    }
  }

  /** `calculate_composite_score`: accumulates weight times score over the
      configured dimensions, in configuration order; a product that raises ends it. */
  method CompositeScore(dims: seq<Dimension>, scores: map<string, Num>) returns (composite: Option<real>)
    ensures composite == WeightedSum(dims, scores)
  {
    var sum := 0.0;
    var i := 0;
    while i < |dims|
      invariant 0 <= i <= |dims|
      invariant WeightedSum(dims[..i], scores).Some? && WeightedSum(dims[..i], scores).value == sum
    {
      assert dims[..i + 1][..i] == dims[..i] && dims[..i + 1][i] == dims[i];
      var score := Term(scores, dims[i].id);
      if score.None? {
        assert WeightedSum(dims[..i + 1], scores).None?;
        CompositeRaises(dims[..i + 1], scores);
        var k :| 0 <= k < i + 1 && Term(scores, dims[..i + 1][k].id).None?;
        assert dims[..i + 1][k] == dims[k];
        CompositeRaises(dims, scores);
        return None;
      }
      assert WeightedSum(dims[..i + 1], scores) == AddTerm(WeightedSum(dims[..i], scores), dims[i].weight, score);
      sum := sum + Times(dims[i].weight, score.value);
      i := i + 1;
    }
    assert dims[..|dims|] == dims;
    composite := Some(sum);
  }

  /** The documented example: weights .35/.25/.25/.15 and scores 8/6/7/5 give 6.8. */
  lemma CompositeExample()
    ensures WeightedSum(
      [Dimension(RevenueImpact, "Revenue Impact", 0.35, "", []),
       Dimension(TimeSensitivity, "Time Sensitivity", 0.25, "", []),
       Dimension(StrategicAlignment, "Strategic Alignment", 0.25, "", []),
       Dimension(CompetitivePressure, "Competitive Pressure", 0.15, "", [])],
      map[RevenueImpact := Number(8.0), TimeSensitivity := Number(6.0),
          StrategicAlignment := Number(7.0), CompetitivePressure := Number(5.0)]) == Some(6.8)
  {
    var dims := [Dimension(RevenueImpact, "Revenue Impact", 0.35, "", []),
       Dimension(TimeSensitivity, "Time Sensitivity", 0.25, "", []),
       Dimension(StrategicAlignment, "Strategic Alignment", 0.25, "", []),
       Dimension(CompetitivePressure, "Competitive Pressure", 0.15, "", [])];
    var scores := map[RevenueImpact := Number(8.0), TimeSensitivity := Number(6.0),
                      StrategicAlignment := Number(7.0), CompetitivePressure := Number(5.0)];
    assert dims[..3][..2][..1][..0] == [];
    assert WeightedSum(dims[..3][..2][..1], scores) == Some(0.35 * 8.0);
    assert WeightedSum(dims[..3][..2], scores) == Some(0.35 * 8.0 + 0.25 * 6.0);
    assert WeightedSum(dims[..3], scores) == Some(0.35 * 8.0 + 0.25 * 6.0 + 0.25 * 7.0);
  }

  /** With non-negative weights and every configured dimension scored by a number
      within [lo, hi] (or missing, as 0), the composite does not raise and lies
      within [lo, hi] times the total weight; when the weights sum to 1 it lies
      within [lo, hi] itself. */
  lemma CompositeBounds(dims: seq<Dimension>, scores: map<string, Num>, lo: real, hi: real)
    requires forall i :: 0 <= i < |dims| ==> dims[i].weight >= 0.0
    requires forall i :: 0 <= i < |dims| ==> Term(scores, dims[i].id).Some? && lo <= Term(scores, dims[i].id).value <= hi
    ensures WeightedSum(dims, scores).Some?
    ensures lo * TotalWeight(dims) <= WeightedSum(dims, scores).value <= hi * TotalWeight(dims)
  {
    CompositeLowerBound(dims, scores, lo);
    CompositeUpperBound(dims, scores, hi);
  }

  lemma {:induction false} CompositeLowerBound(dims: seq<Dimension>, scores: map<string, Num>, lo: real)
    requires forall i :: 0 <= i < |dims| ==> dims[i].weight >= 0.0
    requires forall i :: 0 <= i < |dims| ==> Term(scores, dims[i].id).Some? && lo <= Term(scores, dims[i].id).value
    ensures WeightedSum(dims, scores).Some? && Times(lo, TotalWeight(dims)) <= WeightedSum(dims, scores).value
    decreases |dims|
  {
    if dims != [] {
      var init := dims[..|dims| - 1];
      assert forall i :: 0 <= i < |init| ==> init[i] == dims[i];
      CompositeLowerBound(init, scores, lo);
      LowerBoundStep(dims, scores, lo);
    }
  }

  lemma {:induction false} CompositeUpperBound(dims: seq<Dimension>, scores: map<string, Num>, hi: real)
    requires forall i :: 0 <= i < |dims| ==> dims[i].weight >= 0.0
    requires forall i :: 0 <= i < |dims| ==> Term(scores, dims[i].id).Some? && Term(scores, dims[i].id).value <= hi
    ensures WeightedSum(dims, scores).Some? && WeightedSum(dims, scores).value <= Times(hi, TotalWeight(dims))
    decreases |dims|
  {
    if dims != [] {
      var init := dims[..|dims| - 1];
      assert forall i :: 0 <= i < |init| ==> init[i] == dims[i];
      CompositeUpperBound(init, scores, hi);
      UpperBoundStep(dims, scores, hi);
    }
  }

  /** The lower bound carries over from the dimensions before the last one. */
  lemma {:induction false} LowerBoundStep(dims: seq<Dimension>, scores: map<string, Num>, lo: real)
    requires dims != [] && dims[|dims| - 1].weight >= 0.0
    requires Term(scores, dims[|dims| - 1].id).Some? && lo <= Term(scores, dims[|dims| - 1].id).value
    requires WeightedSum(dims[..|dims| - 1], scores).Some?
    requires Times(lo, TotalWeight(dims[..|dims| - 1])) <= WeightedSum(dims[..|dims| - 1], scores).value
    ensures WeightedSum(dims, scores).Some? && Times(lo, TotalWeight(dims)) <= WeightedSum(dims, scores).value
  {
    var init := dims[..|dims| - 1];
    var last := dims[|dims| - 1];
    LastTerm(dims, scores);
    LowerStep(lo, TotalWeight(init), WeightedSum(init, scores).value, last.weight, Term(scores, last.id).value,
              TotalWeight(dims), WeightedSum(dims, scores).value);
  }

  /** The upper bound carries over from the dimensions before the last one. */
  lemma {:induction false} UpperBoundStep(dims: seq<Dimension>, scores: map<string, Num>, hi: real)
    requires dims != [] && dims[|dims| - 1].weight >= 0.0
    requires Term(scores, dims[|dims| - 1].id).Some? && Term(scores, dims[|dims| - 1].id).value <= hi
    requires WeightedSum(dims[..|dims| - 1], scores).Some?
    requires WeightedSum(dims[..|dims| - 1], scores).value <= Times(hi, TotalWeight(dims[..|dims| - 1]))
    ensures WeightedSum(dims, scores).Some? && WeightedSum(dims, scores).value <= Times(hi, TotalWeight(dims))
  {
    var init := dims[..|dims| - 1];
    var last := dims[|dims| - 1];
    LastTerm(dims, scores);
    UpperStep(hi, TotalWeight(init), WeightedSum(init, scores).value, last.weight, Term(scores, last.id).value,
              TotalWeight(dims), WeightedSum(dims, scores).value);
  }

  /** The weighted sum and the total weight of a non-empty list, in terms of its
      last dimension and the ones before it. */
  lemma {:induction false} LastTerm(dims: seq<Dimension>, scores: map<string, Num>)
    requires dims != []
    requires WeightedSum(dims[..|dims| - 1], scores).Some? && Term(scores, dims[|dims| - 1].id).Some?
    ensures WeightedSum(dims, scores).Some?
    ensures WeightedSum(dims, scores).value
      == WeightedSum(dims[..|dims| - 1], scores).value + Times(dims[|dims| - 1].weight, Term(scores, dims[|dims| - 1].id).value)
    ensures TotalWeight(dims) == TotalWeight(dims[..|dims| - 1]) + dims[|dims| - 1].weight
  {
  }

  /** One more dimension keeps the lower bound: its weighted score is at least lo times its weight. */
  lemma LowerStep(lo: real, t: real, acc: real, w: real, s: real, total: real, sum: real)
    requires Times(lo, t) <= acc && w >= 0.0 && lo <= s
    requires total == t + w && sum == acc + Times(w, s)
    ensures Times(lo, total) <= sum
  {
    assert w * lo <= w * s;
  }

  /** One more dimension keeps the upper bound. */
  lemma UpperStep(hi: real, t: real, acc: real, w: real, s: real, total: real, sum: real)
    requires acc <= Times(hi, t) && w >= 0.0 && s <= hi
    requires total == t + w && sum == acc + Times(w, s)
    ensures sum <= Times(hi, total)
  {
    assert w * s <= w * hi;
  }

  /** A value under a key that is not a configured dimension has no effect, even
      one that is not a number. */
  lemma {:induction false} CompositeIgnoresOtherKeys(dims: seq<Dimension>, scores: map<string, Num>, k: string, v: Num)
    requires forall i :: 0 <= i < |dims| ==> dims[i].id != k
    ensures WeightedSum(dims, scores[k := v]) == WeightedSum(dims, scores)
    decreases |dims|
  {
    if dims != [] {
      var init := dims[..|dims| - 1];
      assert forall i :: 0 <= i < |init| ==> init[i] == dims[i];
      CompositeIgnoresOtherKeys(init, scores, k, v);
      var id := dims[|dims| - 1].id;
      assert Term(scores[k := v], id) == Term(scores, id);
    }
  }

  /** Scores that are all numbers give a composite that does not raise. */
  lemma {:induction false} NumbersCompose(dims: seq<Dimension>, scores: map<string, Num>)
    requires forall k :: k in scores ==> scores[k].Number?
    ensures WeightedSum(dims, scores).Some?
    decreases |dims|
  {
    if dims != [] {
      NumbersCompose(dims[..|dims| - 1], scores);
    }
  }

  /** A dimension missing from the scores counts as a score of 0. */
  lemma {:induction false} CompositeMissingIsZero(dims: seq<Dimension>, scores: map<string, Num>, k: string)
    requires k !in scores
    ensures WeightedSum(dims, scores[k := Number(0.0)]) == WeightedSum(dims, scores)
    decreases |dims|
  {
    if dims != [] {
      CompositeMissingIsZero(dims[..|dims| - 1], scores, k);
      assert Term(scores[k := Number(0.0)], dims[|dims| - 1].id) == Term(scores, dims[|dims| - 1].id);
    }
  }

  // ---------------------------------------------------------------- BU matching

  /** The lower-cased "title summary" text the keyword rules search. */
  function SearchText(title: string, summary: string): string {
    Lower(title + " " + summary)
  }

  /** Keywords, then products, then industries of a unit. */
  function AllKeywords(bu: BusinessUnit): seq<string> {
    bu.keywords + bu.products + bu.industries
  }

  /** How many of `words` occur, lower-cased, in `text`. */
  function Hits(words: seq<string>, text: string): (n: nat)
    ensures n <= |words|
    decreases |words|
  {
    if words == [] then 0
    else Hits(words[..|words| - 1], text) + (if Contains(text, Lower(words[|words| - 1])) then 1 else 0)
  }

  lemma {:induction false} HitsPositive(words: seq<string>, text: string)
    ensures Hits(words, text) > 0 <==> exists k :: 0 <= k < |words| && Contains(text, Lower(words[k]))
    decreases |words|
  {
    if words != [] {
      var init := words[..|words| - 1];
      HitsPositive(init, text);
      if Hits(init, text) > 0 {
        var k :| 0 <= k < |init| && Contains(text, Lower(init[k]));
        assert words[k] == init[k];
      }
      forall k | 0 <= k < |init| && Contains(text, Lower(words[k]))
        ensures Hits(init, text) > 0
      {
        assert words[k] == init[k];
      }
    }
  }

  function Min(a: real, b: real): real { if a <= b then a else b }
  function Max(a: real, b: real): real { if a >= b then a else b }

  /** The normalised relevance of a unit with `hits` matches among `n` keywords. */
  function Relevance(hits: nat, n: nat): (r: real)
    ensures hits >= 1 ==> 0.4 <= r <= 1.0
  {
    var scaled := hits as real / Max(n as real * 0.25, 1.0);
    Min(0.4 + scaled * 0.6, 1.0)
  }

  /** The match of one unit: present when the unit is active and at least one
      of its keywords occurs in `text`. */
  function UnitMatch(bu: BusinessUnit, text: string): Option<BuMatch> {
    var hits := Hits(AllKeywords(bu), text);
    if bu.active && hits > 0 then Some(BuMatch(bu.id, Relevance(hits, |AllKeywords(bu)|))) else None
  }

  function Matcher(text: string): BusinessUnit -> Option<BuMatch> {
    bu => UnitMatch(bu, text)
  }

  /** The units of `units` that match `text`, in catalogue order. */
  function Candidates(units: seq<BusinessUnit>, text: string): seq<BuMatch> {
    Seqs.FilterMap(units, Matcher(text))
  }

  /** The sort key of a match. */
  function RelevanceKey(m: BuMatch): real { m.relevance }

  /** Unit `bu` is active, matches `text`, and `m` is its match. */
  predicate Selects(bu: BusinessUnit, text: string, m: BuMatch) {
    var hits := Hits(AllKeywords(bu), text);
    bu.active && hits > 0 && m == BuMatch(bu.id, Relevance(hits, |AllKeywords(bu)|))
  }

  /** A unit of the catalogue appears in `Candidates` iff it is active and one of
      its keywords, products or industries occurs in the text; it then carries the
      normalised relevance of its hits. */
  lemma CandidatesExact(units: seq<BusinessUnit>, text: string, m: BuMatch)
    ensures m in Candidates(units, text) <==> exists i :: 0 <= i < |units| && Selects(units[i], text, m)
  {
    Seqs.FilterMapExact(units, Matcher(text), m);
    forall i | 0 <= i < |units|
      ensures Matcher(text)(units[i]) == Some(m) <==> Selects(units[i], text, m)
    {
    }
  }

  /** Every candidate has a relevance within [0.4, 1]. */
  lemma CandidatesRelevance(units: seq<BusinessUnit>, text: string)
    ensures forall m :: m in Candidates(units, text) ==> 0.4 <= m.relevance <= 1.0
  {
    forall m | m in Candidates(units, text)
      ensures 0.4 <= m.relevance <= 1.0
    {
      CandidatesExact(units, text, m);
    }
  }

  /** `match_signal_to_bus`: the matching units, most relevant first; ties keep
      catalogue order. */
  function MatchBus(units: seq<BusinessUnit>, title: string, summary: string): seq<BuMatch> {
    Sorting.SortDesc(Candidates(units, SearchText(title, summary)), RelevanceKey)
  }

  /** The matches are what the keyword rule selects, sorted by non-increasing
      relevance, each relevance within [0.4, 1]. */
  lemma MatchBusProperties(units: seq<BusinessUnit>, title: string, summary: string)
    ensures forall i, j :: 0 <= i < j < |MatchBus(units, title, summary)| ==>
      MatchBus(units, title, summary)[i].relevance >= MatchBus(units, title, summary)[j].relevance
    ensures forall m :: m in MatchBus(units, title, summary) <==> m in Candidates(units, SearchText(title, summary))
    ensures forall m :: m in MatchBus(units, title, summary) ==> 0.4 <= m.relevance <= 1.0
  {
    var r := MatchBus(units, title, summary);
    var c := Candidates(units, SearchText(title, summary));
    Sorting.SortDescSorted(c, RelevanceKey);
    assert multiset(r) == multiset(c);
    forall m ensures m in r <==> m in c {
      assert m in r <==> m in multiset(r);
      assert m in c <==> m in multiset(c);
    }
    CandidatesRelevance(units, SearchText(title, summary));
    forall i, j | 0 <= i < j < |r| ensures r[i].relevance >= r[j].relevance {
      assert RelevanceKey(r[i]) >= RelevanceKey(r[j]);
    }
  }

  /** An inactive unit never appears among the matches. */
  lemma MatchBusSkipsInactive(units: seq<BusinessUnit>, title: string, summary: string, m: BuMatch)
    requires m in MatchBus(units, title, summary)
    ensures exists i :: 0 <= i < |units| && units[i].active && units[i].id == m.buId
  {
    MatchBusProperties(units, title, summary);
    CandidatesExact(units, SearchText(title, summary), m);
  }

  /** `match_signal_to_bus`, as the source computes it: a pass over the catalogue
      counting keyword hits per active unit, then a sort by relevance. */
  method MatchSignalToBus(units: seq<BusinessUnit>, title: string, summary: string) returns (matches: seq<BuMatch>)
    ensures matches == MatchBus(units, title, summary)
  {
    var text := SearchText(title, summary);
    var found: seq<BuMatch> := [];
    var i := 0;
    while i < |units|
      invariant 0 <= i <= |units|
      invariant found == Candidates(units[..i], text)
    {
      var bu := units[i];
      CandidatesSnoc(units, i, text);
      if bu.active {
        var words := AllKeywords(bu);
        var hits := CountHits(words, text);
        if hits > 0 {
          assert UnitMatch(bu, text) == Some(BuMatch(bu.id, Relevance(hits, |words|)));
          found := found + [BuMatch(bu.id, Relevance(hits, |words|))];
        } else {
          assert UnitMatch(bu, text) == None;
        }
      } else {
        assert UnitMatch(bu, text) == None;
      }
      i := i + 1;
    }
    assert units[..|units|] == units;
    assert found == Candidates(units, text);
    matches := Sorting.SortDesc(found, RelevanceKey);
  }

  /** One more unit of the catalogue adds its match, if any, at the end. */
  lemma CandidatesSnoc(units: seq<BusinessUnit>, i: int, text: string)
    requires 0 <= i < |units|
    ensures Candidates(units[..i + 1], text)
      == Candidates(units[..i], text) + (match UnitMatch(units[i], text) case Some(m) => [m] case None => [])
  {
    assert units[..i + 1][..i] == units[..i];
    assert Matcher(text)(units[i]) == UnitMatch(units[i], text);
  }

  /** The keyword loop of `match_signal_to_bus`: one hit per keyword whose
      lower-cased form occurs in `text`. */
  method CountHits(words: seq<string>, text: string) returns (hits: nat)
    ensures hits == Hits(words, text)
  {
    hits := 0;
    var j := 0;
    while j < |words|
      invariant 0 <= j <= |words|
      invariant hits == Hits(words[..j], text)
    {
      assert words[..j + 1][..j] == words[..j];
      if Contains(text, Lower(words[j])) {
        hits := hits + 1;
      }
      j := j + 1;
    }
    assert words[..|words|] == words;
  }

  // ---------------------------------------------------------------- validation

  /** Python's `round` to an integer: the nearest integer, ties to the even one. */
  function RoundHalfEven(x: real): (r: int)
    ensures x - 0.5 <= r as real <= x + 0.5
    ensures (r as real == x - 0.5 || r as real == x + 0.5) ==> r % 2 == 0
  {
    var f := x.Floor;
    var d := x - f as real;
    if d < 0.5 then f
    else if d > 0.5 then f + 1
    else if f % 2 == 0 then f
    else f + 1
  }

  /** `max(lo, min(hi, n))` */
  function ClampInt(n: int, lo: int, hi: int): (r: int)
    requires lo <= hi
    ensures lo <= r <= hi
    ensures lo <= n <= hi ==> r == n
    ensures n < lo ==> r == lo
    ensures n > hi ==> r == hi
  {
    if n < lo then lo else if n > hi then hi else n
  }

  /** `max(1, min(10, int(round(x))))` */
  function NormalizeScore(x: real): (s: int)
    ensures 1 <= s <= 10
  {
    ClampInt(RoundHalfEven(x), 1, 10)
  }

  /** The documented cases: 15 becomes 10, -3 becomes 1, 5.7 becomes 6, 0 becomes 1;
      a tie such as 6.5 goes to the even neighbour. */
  lemma NormalizeScoreExamples()
    ensures NormalizeScore(15.0) == 10
    ensures NormalizeScore(-3.0) == 1
    ensures NormalizeScore(5.7) == 6
    ensures NormalizeScore(0.0) == 1
    ensures NormalizeScore(6.5) == 6 && NormalizeScore(7.5) == 8
  {
    assert RoundHalfEven(5.7) == 6;
    assert RoundHalfEven(6.5) == 6;
    assert RoundHalfEven(7.5) == 8;
  }

  /** `max(0.0, min(1.0, x))` */
  function ClampUnit(x: real): (r: real)
    ensures 0.0 <= r <= 1.0
    ensures 0.0 <= x <= 1.0 ==> r == x
  {
    if x < 0.0 then 0.0 else if x > 1.0 then 1.0 else x
  }

  /** The defaults validation supplies for missing fields. */
  const DefaultSignalType := MarketShift
  const DefaultRelevance := 0.5
  const DefaultScore := 5.0
  const DefaultHeadline := "Industry Signal Detected"
  const DefaultWhatSummary := "Signal details pending review."
  const DefaultWhyItMatters := "Relevance assessment in progress."
  const DefaultQuickWin := "Review signal and assess BU impact."
  const DefaultOwner := "BU Manager"

  /** An element of `relevant_bus` after validation; the id is still unchecked. */
  datatype ValidatedBu = ValidatedBu(buId: Field<string>, relevance: real)

  /** An analysis object after validation. */
  datatype Repaired = Repaired(
    signalType: SignalType,
    bus: seq<ValidatedBu>,
    scores: map<string, Num>,
    headline: string,
    whatSummary: string,
    whyItMatters: string,
    quickWin: string,
    suggestedOwner: string,
    estimatedImpact: string,
    outreach: Option<string>)

  /** `_validate_ai_result`: None, a repaired record, or an exception from `float()`
      or from `.get` on a value that is not an object. */
  datatype Validation = Rejected | Accepted(record: Repaired) | Raises

  /** `result.get(key, default)` for a text field. */
  function FieldOr(f: Field<string>, default: string): (r: string)
    ensures f.Absent? ==> r == default
    ensures f.Present? ==> r == f.value
  {
    match f
    case Absent => default
    case Present(v) => v
  }

  /** The unknown or missing class becomes "market-shift". */
  function ValidSignalType(f: Field<string>): (t: SignalType)
    ensures f.Present? && ParseSignalType(f.value).Some? ==> t == ParseSignalType(f.value).value
    ensures (f.Absent? || ParseSignalType(f.value).None?) ==> t == MarketShift
  {
    match f
    case Absent => DefaultSignalType
    case Present(s) =>
      match ParseSignalType(s)
      case Some(t) => t
      case None => DefaultSignalType
  }

  /** The relevance of one element, or None when the element is not an object or
      its relevance is not numeric (both raise). */
  function ValidateBuEntry(e: RawBu): (r: Option<ValidatedBu>)
    ensures r.Some? ==> 0.0 <= r.value.relevance <= 1.0
    ensures r.Some? && e.BuObject? && e.relevance.Absent? ==> r.value.relevance == DefaultRelevance
    ensures r.Some? && e.BuObject? && e.relevance.Present? && !e.relevance.value.NotNumeric? ==> r.value.relevance == ClampUnit(e.relevance.value.value)
    ensures r.None? <==> (e.BuNotObject? || (e.relevance.Present? && e.relevance.value.NotNumeric?))
  {
    match e
    case BuNotObject => None
    case BuObject(id, rel) =>
      match rel
      case Absent => Some(ValidatedBu(id, ClampUnit(DefaultRelevance)))
      case Present(Number(x)) => Some(ValidatedBu(id, ClampUnit(x)))
      case Present(NumericText(x)) => Some(ValidatedBu(id, ClampUnit(x)))
      case Present(NotNumeric) => None
  }

  /** All elements of `relevant_bus`, in order, or None when one of them raises. */
  function ValidateBus(entries: seq<RawBu>): (r: Option<seq<ValidatedBu>>)
    ensures r.Some? ==> |r.value| == |entries|
    ensures r.Some? ==> forall i :: 0 <= i < |entries| ==> Some(r.value[i]) == ValidateBuEntry(entries[i])
    ensures r.None? <==> exists i :: 0 <= i < |entries| && ValidateBuEntry(entries[i]).None?
    decreases |entries|
  {
    if entries == [] then Some([])
    else
      var init := ValidateBus(entries[..|entries| - 1]);
      var last := ValidateBuEntry(entries[|entries| - 1]);
      if init.None? then
        var i :| 0 <= i < |entries| - 1 && ValidateBuEntry(entries[..|entries| - 1][i]).None?;
        assert entries[..|entries| - 1][i] == entries[i];
        None
      else if last.None? then None
      else
        assert forall i :: 0 <= i < |entries| - 1 ==> entries[..|entries| - 1][i] == entries[i];
        Some(init.value + [last.value])
  }

  /** One required dimension: missing reads as 5, a number or numeric text is
      rounded and clamped, anything else raises (None). */
  function ValidateDimension(values: map<string, Num>, dim: string): (r: Option<int>)
    ensures r.Some? ==> 1 <= r.value <= 10
    ensures dim !in values ==> r == Some(5)
    ensures dim in values && !values[dim].NotNumeric? ==> r == Some(NormalizeScore(values[dim].value))
    ensures r.None? <==> dim in values && values[dim].NotNumeric?
  {
    if dim !in values then Some(NormalizeScore(DefaultScore))
    else if values[dim].NotNumeric? then None
    else Some(NormalizeScore(values[dim].value))
  }

  /** The scores of the given required dimensions, or None when one raises. */
  function ValidateDimensions(values: map<string, Num>, dims: seq<string>): Option<map<string, int>>
    decreases |dims|
  {
    if dims == [] then Some(map[])
    else
      var init := ValidateDimensions(values, dims[..|dims| - 1]);
      var v := ValidateDimension(values, dims[|dims| - 1]);
      if init.None? || v.None? then None
      else Some(init.value[dims[|dims| - 1] := v.value])
  }

  /** The validated scores have exactly the given dimensions as keys, each with
      its own validated score; they are missing exactly when one dimension raises. */
  lemma {:induction false} ValidateDimensionsSpec(values: map<string, Num>, dims: seq<string>)
    ensures var r := ValidateDimensions(values, dims);
      && (r.Some? ==> r.value.Keys == set d | d in dims)
      && (r.Some? ==> forall d :: d in dims ==> Some(r.value[d]) == ValidateDimension(values, d))
      && (r.None? <==> exists d :: d in dims && ValidateDimension(values, d).None?)
    decreases |dims|
  {
    if dims != [] {
      var init := dims[..|dims| - 1];
      var d := dims[|dims| - 1];
      ValidateDimensionsSpec(values, init);
      assert forall e :: e in dims <==> e in init || e == d;
    }
  }

  /** A score as validation leaves it: an integer from 1 to 10. */
  predicate ValidScore(n: Num) {
    n.Number? && 1.0 <= n.value <= 10.0 && n.value == n.value.Floor as real
  }

  /** The object `scores` as `result.get("scores", {})` reads it. */
  function RawValues(raw: RawScores): map<string, Num> {
    if raw.ScoresObject? then raw.values else map[]
  }

  /** The object `values` after `values[k] = m[k]` for every key of `m`. */
  function Rewritten(values: map<string, Num>, m: map<string, int>): (r: map<string, Num>)
    ensures r.Keys == values.Keys + m.Keys
    ensures forall k :: k in m ==> r[k] == Number(m[k] as real)
    ensures forall k :: k in values && k !in m ==> r[k] == values[k]
  {
    map k | k in values.Keys + m.Keys :: if k in m then Number(m[k] as real) else values[k]
  }

  /** The validated integer score of each required dimension, or None when the
      object is not one or one of them raises. */
  function RequiredScores(raw: RawScores): Option<map<string, int>> {
    if raw.ScoresNotObject? then None else ValidateDimensions(RawValues(raw), RequiredDimensions)
  }

  /** The `scores` object after validation, or None when it raises: each required
      dimension is rewritten in place with its validated score, and every other
      key the object holds is kept as it was. */
  function ValidateScores(raw: RawScores): (r: Option<map<string, Num>>)
    ensures r.Some? ==> r.value.Keys == (set d | d in RequiredDimensions) + RawValues(raw).Keys
    ensures r.Some? ==> forall d :: d in RequiredDimensions ==> ValidScore(r.value[d])
    ensures r.Some? ==> forall d :: d in RequiredDimensions ==>
      ValidateDimension(RawValues(raw), d).Some? && r.value[d] == Number(ValidateDimension(RawValues(raw), d).value as real)
    ensures r.Some? ==> forall k :: k in RawValues(raw) && k !in RequiredDimensions ==> r.value[k] == RawValues(raw)[k]
    ensures raw.ScoresAbsent? ==> r == Some(map d | d in RequiredDimensions :: Number(5.0))
    ensures r.None? <==> raw.ScoresNotObject? || exists d :: d in RequiredDimensions && d in RawValues(raw) && RawValues(raw)[d].NotNumeric?
  {
    var m := RequiredScores(raw);
    RequiredScoresSpec(raw);
    if m.None? then None
    else
      var r := Rewritten(RawValues(raw), m.value);
      if raw.ScoresAbsent? then
        assert r == map d | d in RequiredDimensions :: Number(5.0);
        Some(r)
      else Some(r)
  }

  lemma RequiredScoresSpec(raw: RawScores)
    ensures var m := RequiredScores(raw);
      && (m.Some? ==> m.value.Keys == set d | d in RequiredDimensions)
      && (m.Some? ==> forall d :: d in RequiredDimensions ==> Some(m.value[d]) == ValidateDimension(RawValues(raw), d))
      && (m.None? <==> raw.ScoresNotObject? || exists d :: d in RequiredDimensions && d in RawValues(raw) && RawValues(raw)[d].NotNumeric?)
  {
    ValidateDimensionsSpec(RawValues(raw), RequiredDimensions);
  }

  /** The revenue band used for `estimated_impact` when the analysis gives none. */
  function ImpactBand(revenue: int): (s: string)
    ensures s != "TBD"
  {
    if revenue >= 8 then "$1M-$5M potential revenue impact"
    else if revenue >= 6 then "$500K-$2M potential revenue impact"
    else if revenue >= 4 then "$200K-$500K potential revenue impact"
    else "$100K-$200K potential revenue impact"
  }

  /** A missing, empty or "TBD" impact is replaced by the revenue band. */
  function ValidImpact(f: Field<string>, revenue: int): (s: string)
    ensures s != "TBD"
    ensures s != ""
    ensures f.Present? && f.value != "" && f.value != "TBD" ==> s == f.value
    ensures (f.Absent? || f.value == "" || f.value == "TBD") ==> s == ImpactBand(revenue)
  {
    if f.Absent? || f.value == "" || f.value == "TBD" then ImpactBand(revenue) else f.value
  }

  /** `relevant_bus` is a non-empty list. */
  predicate HasBus(bus: RawBus) {
    bus.BusList? && bus.entries != []
  }

  /** The record repaired from an analysis object whose parts validated. */
  function Repair(a: RawAnalysis, bus: seq<ValidatedBu>, scores: map<string, Num>, revenue: int): Repaired {
    Repaired(
      ValidSignalType(a.signalType),
      bus,
      scores,
      FieldOr(a.headline, DefaultHeadline),
      FieldOr(a.whatSummary, DefaultWhatSummary),
      FieldOr(a.whyItMatters, DefaultWhyItMatters),
      FieldOr(a.quickWin, DefaultQuickWin),
      FieldOr(a.suggestedOwner, DefaultOwner),
      ValidImpact(a.estimatedImpact, revenue),
      match a.outreachTemplate case Absent => None case Present(t) => Some(t))
  }

  /** `_validate_ai_result` on a decoded reply. */
  function Validate(reply: Reply): (r: Validation)
    ensures r.Rejected? <==> !reply.ReplyObject? || !HasBus(reply.analysis.relevantBus)
    ensures r.Raises? <==> (reply.ReplyObject? && HasBus(reply.analysis.relevantBus)
      && (ValidateBus(reply.analysis.relevantBus.entries).None? || ValidateScores(reply.analysis.scores).None?))
    ensures r.Accepted? ==> Some(r.record.scores) == ValidateScores(reply.analysis.scores)
    ensures r.Accepted? ==> forall d :: d in RequiredDimensions ==> ValidScore(r.record.scores[d])
    ensures r.Accepted? ==> |r.record.bus| == |reply.analysis.relevantBus.entries| > 0
    ensures r.Accepted? ==> forall i :: 0 <= i < |r.record.bus| ==> 0.0 <= r.record.bus[i].relevance <= 1.0
    ensures r.Accepted? ==> r.record.estimatedImpact != "TBD" && r.record.estimatedImpact != ""
  {
    match reply
    case ReplyObject(a) =>
      if !HasBus(a.relevantBus) then Rejected
      else
        var bus := ValidateBus(a.relevantBus.entries);
        var m := RequiredScores(a.scores);
        var scores := ValidateScores(a.scores);
        if bus.None? || scores.None? then Raises
        else
          ValidateDimensionsSpec(RawValues(a.scores), RequiredDimensions);
          assert forall i :: 0 <= i < |bus.value| ==> Some(bus.value[i]) == ValidateBuEntry(a.relevantBus.entries[i]);
          Accepted(Repair(a, bus.value, scores.value, m.value[RevenueImpact]))
    case _ => Rejected
  }

  /** The validated record keeps every class the list names, and each given
      narrative field; missing ones get their fixed defaults. */
  lemma ValidateFields(a: RawAnalysis)
    requires Validate(ReplyObject(a)).Accepted?
    ensures var v := Validate(ReplyObject(a)).record;
      && (a.signalType.Present? && a.signalType.value in Prompts.ValidSignalTypes ==> v.signalType.Id() == a.signalType.value)
      && (a.signalType.Absent? || a.signalType.value !in Prompts.ValidSignalTypes ==> v.signalType == MarketShift)
      && v.headline == FieldOr(a.headline, "Industry Signal Detected")
      && v.whatSummary == FieldOr(a.whatSummary, "Signal details pending review.")
      && v.whyItMatters == FieldOr(a.whyItMatters, "Relevance assessment in progress.")
      && v.quickWin == FieldOr(a.quickWin, "Review signal and assess BU impact.")
      && v.suggestedOwner == FieldOr(a.suggestedOwner, "BU Manager")
  {
    if a.signalType.Present? {
      Prompts.ValidSignalTypesExact(a.signalType.value);
    }
  }

  /** A relevance the analysis leaves out reads as 0.5; one outside [0, 1] is clamped. */
  lemma ValidateRelevance(a: RawAnalysis, i: nat)
    requires Validate(ReplyObject(a)).Accepted? && i < |a.relevantBus.entries|
    ensures var e := a.relevantBus.entries[i];
      var rel := Validate(ReplyObject(a)).record.bus[i].relevance;
      && e.BuObject?
      && (e.relevance.Absent? ==> rel == 0.5)
      && (e.relevance.Present? ==> !e.relevance.value.NotNumeric? && rel == ClampUnit(e.relevance.value.value))
  {
    var bus := ValidateBus(a.relevantBus.entries);
    assert Some(bus.value[i]) == ValidateBuEntry(a.relevantBus.entries[i]);
  }

  /** `validate_ai_result` as the source performs it: it clamps each element in
      place, then rewrites each required score. */
  method ValidateAiResult(reply: Reply) returns (r: Validation)
    ensures r == Validate(reply)
  {
    if !reply.ReplyObject? || !HasBus(reply.analysis.relevantBus) {
      return Rejected;
    }
    var a := reply.analysis;
    var bus := ClampBus(a.relevantBus.entries);
    if bus.None? {
      return Raises;
    }
    if a.scores.ScoresNotObject? {
      return Raises;
    }
    var values: map<string, Num> := if a.scores.ScoresObject? then a.scores.values else map[];
    var scores := NormalizeScores(values, RequiredDimensions);
    if scores.None? {
      return Raises;
    }
    ValidateDimensionsSpec(values, RequiredDimensions);
    var revenue := ValidateDimension(values, RevenueImpact).value;
    r := Accepted(Repair(a, bus.value, scores.value, revenue));
  }

  /** The loop over `relevant_bus` that clamps each relevance in turn; it stops at
      the first element that raises. */
  method ClampBus(entries: seq<RawBu>) returns (r: Option<seq<ValidatedBu>>)
    ensures r == ValidateBus(entries)
  {
    var bus: seq<ValidatedBu> := [];
    var i := 0;
    while i < |entries|
      invariant 0 <= i <= |entries|
      invariant ValidateBus(entries[..i]) == Some(bus)
    {
      assert entries[..i + 1][..i] == entries[..i];
      var e := ValidateBuEntry(entries[i]);
      if e.None? {
        assert ValidateBus(entries[..i + 1]).None?;
        ValidateBusPrefix(entries, i + 1);
        return None;
      }
      bus := bus + [e.value];
      i := i + 1;
    }
    assert entries[..|entries|] == entries;
    r := Some(bus);
  }

  /** The loop over the required dimensions that rewrites each score of the
      object in place, leaving its other keys alone. */
  method NormalizeScores(values: map<string, Num>, dims: seq<string>) returns (r: Option<map<string, Num>>)
    ensures ValidateDimensions(values, dims).None? ==> r.None?
    ensures ValidateDimensions(values, dims).Some? ==> r == Some(Rewritten(values, ValidateDimensions(values, dims).value))
  {
    var scores := values;
    ghost var m: map<string, int> := map[];
    var k := 0;
    while k < |dims|
      invariant 0 <= k <= |dims|
      invariant ValidateDimensions(values, dims[..k]) == Some(m)
      invariant scores == Rewritten(values, m)
    {
      var dim := dims[k];
      assert dims[..k + 1][..k] == dims[..k];
      var v := ValidateDimension(values, dim);
      if v.None? {
        assert ValidateDimensions(values, dims[..k + 1]).None?;
        ValidateDimensionsPrefix(values, dims, k + 1);
        return None;
      }
      assert ValidateDimensions(values, dims[..k + 1]) == Some(m[dim := v.value]);
      RewrittenUpdate(values, m, dim, v.value);
      scores := scores[dim := Number(v.value as real)];
      m := m[dim := v.value];
      k := k + 1;
    }
    assert dims[..|dims|] == dims;
    r := Some(scores);
  }

  /** Rewriting one more score in place is rewriting with one more validated value. */
  lemma RewrittenUpdate(values: map<string, Num>, m: map<string, int>, dim: string, v: int)
    ensures Rewritten(values, m)[dim := Number(v as real)] == Rewritten(values, m[dim := v])
  {
  }

  lemma ValidateDimensionsPrefix(values: map<string, Num>, dims: seq<string>, n: nat)
    requires n <= |dims| && ValidateDimensions(values, dims[..n]).None?
    ensures ValidateDimensions(values, dims).None?
  {
    ValidateDimensionsSpec(values, dims[..n]);
    ValidateDimensionsSpec(values, dims);
    var e :| e in dims[..n] && ValidateDimension(values, e).None?;
  }

  /** Once a prefix of the elements raises, so do all of them. */
  lemma ValidateBusPrefix(entries: seq<RawBu>, n: nat)
    requires n <= |entries| && ValidateBus(entries[..n]).None?
    ensures ValidateBus(entries).None?
  {
    var i :| 0 <= i < n && ValidateBuEntry(entries[..n][i]).None?;
    assert entries[..n][i] == entries[i];
  }

  // ---------------------------------------------------------------- remote analysis

  /** The remote model as the scorer sees it: whether the client is available and
      the decoded reply (or none) that `analyze` returns for a system and a user
      prompt. */
  datatype Remote = Remote(available: bool, answer: (string, string) -> Option<Reply>)

  /** The configuration scoring reads: the business-unit catalogue, the weighted
      dimensions and the way a weight is printed. */
  datatype Setup = Setup(
    catalogue: BuConfig,
    scoring: ScoringConfig,
    showWeight: real -> string)

  /** The result of a call that may raise: a value, or an exception that no caller
      inside the scorer catches. */
  datatype Outcome<T> = Returned(value: T) | Thrown

  /** `[{"bu_id": bu["bu_id"], ...} for bu in relevant_bus]`; None when an element
      has no id (`KeyError`). */
  function ToBuMatches(bus: seq<ValidatedBu>): (r: Option<seq<BuMatch>>)
    ensures r.Some? <==> forall i :: 0 <= i < |bus| ==> bus[i].buId.Present?
    ensures r.Some? ==> |r.value| == |bus|
    ensures r.Some? ==> forall i :: 0 <= i < |bus| ==> r.value[i] == BuMatch(bus[i].buId.value, bus[i].relevance)
    decreases |bus|
  {
    if bus == [] then Some([])
    else
      var init := ToBuMatches(bus[..|bus| - 1]);
      var last := bus[|bus| - 1];
      assert forall i :: 0 <= i < |bus| - 1 ==> bus[..|bus| - 1][i] == bus[i];
      if init.None? || last.buId.Absent? then None
      else Some(init.value + [BuMatch(last.buId.value, last.relevance)])
  }

  /** The analysis made from a validated record: its composite recomputed from its
      scores and its units copied into the match list; None when either raises. */
  function FromRecord(v: Repaired, dims: seq<Dimension>, how: Method): (r: Option<Analysis>)
    ensures r.Some? <==> ToBuMatches(v.bus).Some? && WeightedSum(dims, v.scores).Some?
    ensures r.Some? ==> (r.value.analysisMethod == how && r.value.scores == v.scores
      && Some(r.value.composite) == WeightedSum(dims, v.scores) && r.value.signalType == v.signalType
      && r.value.estimatedImpact == v.estimatedImpact && r.value.headline == v.headline)
  {
    var composite := WeightedSum(dims, v.scores);
    match ToBuMatches(v.bus)
    case None => None
    case Some(matches) =>
      if composite.None? then None
      else
        Some(Analysis(v.signalType, v.scores, composite.value, matches, v.headline,
          v.whatSummary, v.whyItMatters, v.quickWin, v.suggestedOwner, v.estimatedImpact, v.outreach, how))
  }

  /** The system prompt of this configuration. */
  function SystemPromptOf(cx: Setup): string {
    Prompts.SystemPrompt(Prompts.DeployedInstructions, cx.catalogue)
  }

  /** What `score_signal_ai` makes of the model's reply: None when no reply came or
      the reply failed validation, an exception when validation raises. */
  function FromReply(reply: Option<Reply>, dims: seq<Dimension>): (r: Outcome<Option<Analysis>>)
    ensures reply.None? ==> r == Returned(None)
    ensures reply.Some? && Validate(reply.value).Raises? ==> r == Thrown
    ensures r.Returned? && r.value.Some? ==>
      var a := r.value.value;
      && a.analysisMethod == Ai
      && Some(a.composite) == WeightedSum(dims, a.scores)
      && reply.Some? && reply.value.ReplyObject? && Some(a.scores) == ValidateScores(reply.value.analysis.scores)
      && (forall d :: d in RequiredDimensions ==> d in a.scores && ValidScore(a.scores[d]))
      && a.estimatedImpact != "TBD"
  {
    match reply
    case None => Returned(None)
    case Some(value) =>
      match Validate(value)
      case Rejected => Returned(None)
      case Raises => Thrown
      case Accepted(v) =>
        match FromRecord(v, dims, Ai)
        case None => Thrown
        case Some(a) => Returned(Some(a))
  }

  /** `score_signal_ai`: None when the client is unavailable, no reply came or the
      reply failed validation. */
  function ScoreSignalAi(remote: Remote, cx: Setup, s: Signal): (r: Outcome<Option<Analysis>>)
    ensures !remote.available ==> r == Returned(None)
    ensures r.Returned? && r.value.Some? ==>
      var a := r.value.value;
      && a.analysisMethod == Ai
      && Some(a.composite) == WeightedSum(cx.scoring.dimensions, a.scores)
      && (forall d :: d in RequiredDimensions ==> d in a.scores && ValidScore(a.scores[d]))
      && a.estimatedImpact != "TBD"
  {
    if !remote.available then Returned(None)
    else
      var dims := cx.scoring.dimensions;
      FromReply(remote.answer(SystemPromptOf(cx),
        Prompts.SignalPrompt(Prompts.DeployedInstructions, s, dims, cx.showWeight)), dims)
  }

  // ---------------------------------------------------------------- heuristic

  /** The keyword lists of the classification rules, in rule order. */
  const CompetitorWords := ["competitor", "competes", "launch", "threat", "rival"]
  const RevenueWords := ["rfi", "rfp", "order", "partner", "revenue", "opportunity", "seeking"]
  const TradeWords := ["tariff", "trade", "duty", "import", "export"]
  const PartnershipWords := ["acqui", "partner", "alliance", "joint venture"]
  const TechnologyWords := ["patent", "innovation", "breakthrough", "technology"]

  /** `any(w in text for w in words)` */
  predicate AnyIn(words: seq<string>, text: string) {
    exists k :: 0 <= k < |words| && Contains(text, words[k])
  }

  /** The class of the first rule whose words occur in the text, or "market-shift". */
  function Classify(text: string): (t: SignalType)
    ensures t == CompetitiveThreat <==> AnyIn(CompetitorWords, text)
    ensures t == RevenueOpportunity <==> !AnyIn(CompetitorWords, text) && AnyIn(RevenueWords, text)
    ensures t == TradeTariff <==>
      !AnyIn(CompetitorWords, text) && !AnyIn(RevenueWords, text) && AnyIn(TradeWords, text)
    ensures t == PartnershipSignal <==>
      !AnyIn(CompetitorWords, text) && !AnyIn(RevenueWords, text) && !AnyIn(TradeWords, text)
      && AnyIn(PartnershipWords, text)
    ensures t == TechnologyTrend <==>
      !AnyIn(CompetitorWords, text) && !AnyIn(RevenueWords, text) && !AnyIn(TradeWords, text)
      && !AnyIn(PartnershipWords, text) && AnyIn(TechnologyWords, text)
    ensures t != CustomerIntelligence
  {
    if AnyIn(CompetitorWords, text) then CompetitiveThreat
    else if AnyIn(RevenueWords, text) then RevenueOpportunity
    else if AnyIn(TradeWords, text) then TradeTariff
    else if AnyIn(PartnershipWords, text) then PartnershipSignal
    else if AnyIn(TechnologyWords, text) then TechnologyTrend
    else MarketShift
  }

  /** "partner" is a revenue word listed before the partnership rule, so a text
      that mentions it is never classed as a partnership. */
  lemma PartnerIsRevenue(text: string)
    requires Contains(text, "partner")
    ensures Classify(text) != PartnershipSignal
    ensures !AnyIn(CompetitorWords, text) ==> Classify(text) == RevenueOpportunity
  {
    assert RevenueWords[3] == "partner";
  }

  /** Base revenue, time and competitive scores of each class. */
  function BaseScores(t: SignalType): (int, int, int) {
    match t
    case CompetitiveThreat => (5, 7, 7)
    case RevenueOpportunity => (7, 7, 4)
    case TradeTariff => (7, 5, 6)
    case PartnershipSignal => (6, 5, 4)
    case _ => (5, 5, 4)
  }

  /** Python's `int()` of a real: truncation toward zero. */
  function Trunc(x: real): (n: int)
    ensures x >= 0.0 ==> n == x.Floor
    ensures x < 0.0 ==> n == -((-x).Floor)
  {
    if x >= 0.0 then x.Floor else -((-x).Floor)
  }

  /** Strategic alignment: ten times the best relevance, truncated and kept within
      [4, 10], when a unit matched; 3 otherwise. */
  function Alignment(matches: seq<BuMatch>): (a: int)
    ensures matches == [] ==> a == 3
    ensures matches != [] ==> 4 <= a <= 10
    ensures matches != [] && 0.4 <= matches[0].relevance <= 1.0 ==> a == ClampInt(Trunc(matches[0].relevance * 10.0), 4, 10)
  {
    if matches == [] then 3
    else
      var raw := Trunc(matches[0].relevance * 10.0);
      if raw < 4 then 4 else if raw > 10 then 10 else raw
  }

  /** The heuristic dimension scores. */
  function HeuristicScores(t: SignalType, alignment: int): (m: map<string, int>)
    ensures m.Keys == set d | d in RequiredDimensions
    ensures m[RevenueImpact] == BaseScores(t).0 && m[TimeSensitivity] == BaseScores(t).1
    ensures m[StrategicAlignment] == alignment && m[CompetitivePressure] == BaseScores(t).2
  {
    var b := BaseScores(t);
    map[RevenueImpact := b.0, TimeSensitivity := b.1, StrategicAlignment := alignment, CompetitivePressure := b.2]
  }

  /** The documented table: the base scores of every class lie within [4, 7], so
      every heuristic score lies within [3, 10]. */
  lemma HeuristicScoresRange(t: SignalType, matches: seq<BuMatch>)
    ensures var m := HeuristicScores(t, Alignment(matches));
      forall d :: d in RequiredDimensions ==> 3 <= m[d] <= 10
    ensures t == CompetitiveThreat ==> BaseScores(t) == (5, 7, 7)
    ensures t == RevenueOpportunity ==> BaseScores(t) == (7, 7, 4)
    ensures t == TradeTariff ==> BaseScores(t) == (7, 5, 6)
    ensures t != CompetitiveThreat && t != RevenueOpportunity && t != TradeTariff && t != PartnershipSignal
      ==> BaseScores(t) == (5, 5, 4)
  {
  }

  /** `{bu["id"]: bu["name"] ...}.get(id, id)`: the name of the last unit with the
      id, or the id itself. */
  function UnitName(units: seq<BusinessUnit>, id: string): (name: string)
    ensures (forall i :: 0 <= i < |units| ==> units[i].id != id) ==> name == id
    decreases |units|
  {
    if units == [] then id
    else if units[|units| - 1].id == id then units[|units| - 1].name
    else UnitName(units[..|units| - 1], id)
  }

  function UnitNames(units: seq<BusinessUnit>, matches: seq<BuMatch>): (names: seq<string>)
    ensures |names| == |matches|
    ensures forall i :: 0 <= i < |matches| ==> names[i] == UnitName(units, matches[i].buId)
  {
    if matches == [] then [] else [UnitName(units, matches[0].buId)] + UnitNames(units, matches[1..])
  }

  /** The names of the first three matched units, or "VPG business units". */
  function UnitList(units: seq<BusinessUnit>, matches: seq<BuMatch>): (s: string)
    ensures matches == [] ==> s == "VPG business units"
    ensures matches != [] ==> s == Join(", ", UnitNames(units, Prefix(matches, 3)))
  {
    var names := UnitNames(units, Prefix(matches, 3));
    if names == [] then "VPG business units" else Join(", ", names)
  }

  /** The fixed texts of the heuristic analysis of one signal class: the words
      before and after the unit list of its "why it matters" line, its quick win
      and the owner role it suggests. */
  datatype Narrative = Narrative(whyLead: string, whyTail: string, quickWin: string, owner: string)

  /** The texts `_generate_heuristic_why`, `_generate_heuristic_quick_win` and
      `_generate_heuristic_owner` use for each class. */
  function DeployedNarrative(t: SignalType): Narrative {
    Narrative(WhyLead(t), WhyTail(t), DeployedQuickWin(t), DeployedOwner(t))
  }

  /** The text before the unit list of the "why it matters" line. */
  function WhyLead(t: SignalType): string {
    match t
    case CompetitiveThreat => "A competitor move has been detected that could affect "
    case RevenueOpportunity => "This signal points to a potential revenue opportunity relevant to "
    case TradeTariff => "Trade policy changes could create a cost advantage for VPG's India production hub relative to China-dependent competitors, benefiting "
    case PartnershipSignal => "A potential partnership or alliance opportunity has been identified that aligns with "
    case TechnologyTrend => "An emerging technology trend could impact "
    case CustomerIntelligence => "Customer activity signals suggest "
    case MarketShift => "Industry dynamics are shifting in a way that could create both risks and opportunities for "
  }

  /** The text after the unit list of the "why it matters" line. */
  function WhyTail(t: SignalType): string {
    match t
    case CompetitiveThreat => ". Monitoring competitor positioning and preparing a defensive response is advised."
    case RevenueOpportunity => ". Early engagement could secure first-mover advantage."
    case TradeTariff => "."
    case PartnershipSignal => " strategic priorities."
    case TechnologyTrend => " product roadmaps or create new market opportunities."
    case CustomerIntelligence => " should evaluate account strategy and prepare updated talking points."
    case MarketShift => "."
  }

  /** `_generate_heuristic_quick_win` */
  function DeployedQuickWin(t: SignalType): string {
    match t
    case CompetitiveThreat => "Brief sales team on competitive positioning. Prepare counter-messaging for affected accounts."
    case RevenueOpportunity => "Identify decision-maker contacts and prepare an initial outreach draft within the week."
    case TradeTariff => "Quantify cost advantage vs. China-sourced competitors and update pricing models."
    case PartnershipSignal => "Research the partner's strategic priorities and identify mutual value propositions."
    case TechnologyTrend => "Map current product capabilities against the emerging trend. Identify gaps and content opportunities."
    case CustomerIntelligence => "Schedule internal account review and prepare updated talking points for the next customer interaction."
    case MarketShift => "Circulate this signal to the BU leadership team for impact assessment and response planning."
  }

  /** `_generate_heuristic_owner` */
  function DeployedOwner(t: SignalType): string {
    match t
    case CompetitiveThreat => "VP Sales / Product Marketing"
    case RevenueOpportunity => "BU Sales Director"
    case TradeTariff => "VP Operations / Supply Chain"
    case PartnershipSignal => "VP Business Development"
    case TechnologyTrend => "CTO / Product Engineering Lead"
    case CustomerIntelligence => "Key Account Manager"
    case MarketShift => "BU General Manager"
  }

  /** `_generate_heuristic_why`: the class's lead text, the unit list, the class's tail text. */
  function WhyItMatters(units: seq<BusinessUnit>, n: Narrative, matches: seq<BuMatch>): (s: string)
    ensures Contains(s, UnitList(units, matches))
    ensures StartsWith(s, n.whyLead) && EndsWith(s, n.whyTail)
  {
    var list := UnitList(units, matches);
    assert MatchAt(list, list, 0);
    ContainsInLonger(n.whyLead, list, n.whyTail, list);
    var s := n.whyLead + list + n.whyTail;
    assert s[..|n.whyLead|] == n.whyLead;
    assert s[|s| - |n.whyTail|..] == n.whyTail;
    s
  }

  // ---------------------------------------------------------------- dollar amounts

  /** A character of `[\d,.]`. */
  predicate IsAmountChar(c: char) {
    IsDigit(c) || c == ',' || c == '.'
  }

  /** One of `[bmk]`. */
  predicate IsScaleLetter(c: char) {
    c == 'b' || c == 'm' || c == 'k'
  }

  /** End of the longest run of amount characters from `i`. */
  function AmountRunEnd(t: string, i: nat): (k: nat)
    requires i <= |t|
    ensures i <= k <= |t|
    ensures forall j :: i <= j < k ==> IsAmountChar(t[j])
    ensures k < |t| ==> !IsAmountChar(t[k])
    decreases |t| - i
  {
    if i == |t| || !IsAmountChar(t[i]) then i else AmountRunEnd(t, i + 1)
  }

  /** End of the longest run of whitespace from `i`. */
  function SpaceRunEnd(t: string, i: nat): (k: nat)
    requires i <= |t|
    ensures i <= k <= |t|
    ensures forall j :: i <= j < k ==> IsSpace(t[j])
    ensures k < |t| ==> !IsSpace(t[k])
    decreases |t| - i
  {
    if i == |t| || !IsSpace(t[i]) then i else SpaceRunEnd(t, i + 1)
  }

  /** `\b` at offset `k`: a word character on exactly one side. */
  predicate Boundary(t: string, k: nat)
    requires k <= |t|
  {
    (k > 0 && IsWordChar(t[k - 1])) != (k < |t| && IsWordChar(t[k]))
  }

  /** `\s*[bmk]?\b` after a number that ends at `k`, with the whitespace run cut
      back to `s`: the run is given back one character at a time, and at each
      length the letter is tried before its absence. */
  function MatchSuffix(t: string, k: nat, s: nat): (e: Option<nat>)
    requires k <= |t| && k <= s <= SpaceRunEnd(t, k)
    ensures e.Some? ==> k <= e.value <= |t| && Boundary(t, e.value)
    decreases s - k
  {
    if s < |t| && IsScaleLetter(t[s]) && Boundary(t, s + 1) then Some(s + 1)
    else if Boundary(t, s) then Some(s)
    else if s == k then None
    else MatchSuffix(t, k, s - 1)
  }

  /** `[\d,.]+` from `i + 1`, cut back to end at `k`, followed by the suffix. */
  function MatchNumber(t: string, i: nat, k: nat): (e: Option<nat>)
    requires i + 1 <= |t| && i + 2 <= k <= AmountRunEnd(t, i + 1)
    ensures e.Some? ==> i + 2 <= e.value <= |t|
    decreases k
  {
    var m := MatchSuffix(t, k, SpaceRunEnd(t, k));
    if m.Some? then m
    else if k == i + 2 then None
    else MatchNumber(t, i, k - 1)
  }

  /** The end of the match of `\$[\d,.]+\s*[bmk]?\b` that starts at `i`, if any. */
  function MatchDollar(t: string, i: nat): (e: Option<nat>)
    requires i <= |t|
    ensures e.Some? ==> i + 2 <= e.value <= |t| && t[i] == '$'
  {
    if i < |t| && t[i] == '$' && AmountRunEnd(t, i + 1) >= i + 2 then MatchNumber(t, i, AmountRunEnd(t, i + 1))
    else None
  }

  /** `re.finditer` from `from`: the leftmost match, then the search resumes
      where it ended. */
  function DollarMatches(t: string, from: nat): (ms: seq<(nat, nat)>)
    requires from <= |t|
    ensures forall k :: 0 <= k < |ms| ==> from <= ms[k].0 && ms[k].0 + 2 <= ms[k].1 <= |t| && t[ms[k].0] == '$'
    ensures forall k :: 0 <= k < |ms| - 1 ==> ms[k].1 <= ms[k + 1].0
    ensures forall k :: 0 <= k < |ms| ==> MatchDollar(t, ms[k].0) == Some(ms[k].1)
    decreases |t| - from
  {
    if from == |t| then []
    else
      match MatchDollar(t, from)
      case Some(e) => [(from, e)] + DollarMatches(t, e)
      case None => DollarMatches(t, from + 1)
  }

  /** `re.sub(r'[^\d.]', '', raw)` */
  function KeepNumeric(s: string): (r: string)
    ensures forall i :: 0 <= i < |r| ==> IsDigit(r[i]) || r[i] == '.'
  {
    if s == [] then []
    else (if IsDigit(s[0]) || s[0] == '.' then [s[0]] else []) + KeepNumeric(s[1..])
  }

  function Pow10(n: nat): (p: nat)
    ensures p >= 1
  {
    if n == 0 then 1 else 10 * Pow10(n - 1)
  }

  /** `float()` of a string of digits and dots: at least one digit and at most one
      dot, or None for the `ValueError`. */
  function ParseDecimal(s: string): (v: Option<real>)
    requires forall i :: 0 <= i < |s| ==> IsDigit(s[i]) || s[i] == '.'
    ensures v.Some? ==> v.value >= 0.0
    ensures (forall i :: 0 <= i < |s| ==> s[i] == '.') ==> v.None?
  {
    var d := IndexOf(s, '.');
    IndexOfFirst(s, '.');
    if d == |s| then
      if s == [] then None else Some(DigitsValue(s) as real)
    else
      var whole := s[..d];
      var frac := s[d + 1..];
      if '.' in frac || (whole == [] && frac == []) then None
      else
        assert forall i :: 0 <= i < |whole| ==> whole[i] == s[i];
        assert forall i :: 0 <= i < |frac| ==> frac[i] == s[d + 1 + i];
        Some(DecimalValue(whole, frac))
  }

  /** The value of the digits `whole` before the dot and `frac` after it. */
  function DecimalValue(whole: string, frac: string): (v: real)
    requires forall i :: 0 <= i < |whole| ==> IsDigit(whole[i])
    requires forall i :: 0 <= i < |frac| ==> IsDigit(frac[i])
    ensures v >= DigitsValue(whole) as real
  {
    var f := DigitsValue(frac) as real / Pow10(|frac|) as real;
    assert f >= 0.0;
    DigitsValue(whole) as real + f
  }

  lemma NonNegProduct(x: real, m: real)
    requires x >= 0.0 && m >= 0.0
    ensures x * m >= 0.0
  {
  }

  /** The multiplier of a matched amount, from its last character. */
  function Multiplier(raw: string): (m: real)
    ensures m >= 1.0
  {
    if EndsWith(raw, "b") then 1000000000.0
    else if EndsWith(raw, "m") then 1000000.0
    else if EndsWith(raw, "k") then 1000.0
    else 1.0
  }

  /** The amount one matched text stands for, or None when `float()` rejects its
      digits. */
  function AmountOf(raw: string): (v: Option<real>)
    ensures v.Some? ==> v.value >= 0.0
  {
    var digits := KeepNumeric(raw);
    match ParseDecimal(digits)
    case Some(x) =>
      var m := Multiplier(raw);
      assert x * m >= 0.0 by { NonNegProduct(x, m); }
      Some(x * m)
    case None => None
  }

  /** The matched texts, in order. */
  function MatchedTexts(t: string, ms: seq<(nat, nat)>): (raws: seq<string>)
    requires forall k :: 0 <= k < |ms| ==> ms[k].0 <= ms[k].1 <= |t|
    ensures |raws| == |ms|
    ensures forall k :: 0 <= k < |ms| ==> raws[k] == t[ms[k].0..ms[k].1]
  {
    seq(|ms|, k requires 0 <= k < |ms| => t[ms[k].0..ms[k].1])
  }

  /** The amounts of the matched texts, in order; one whose digits do not parse is
      skipped. */
  function AmountsOf(raws: seq<string>): (amounts: seq<real>)
    ensures |amounts| <= |raws|
    ensures forall k :: 0 <= k < |amounts| ==> amounts[k] >= 0.0
  {
    if raws == [] then []
    else
      var rest := AmountsOf(raws[1..]);
      match AmountOf(raws[0])
      case Some(v) => [v] + rest
      case None => rest
  }

  /** The dollar amounts mentioned in a lower-cased text. */
  function DollarAmounts(t: string): seq<real> {
    AmountsOf(MatchedTexts(t, DollarMatches(t, 0)))
  }

  function MaxOf(xs: seq<real>): (m: real)
    requires xs != []
    ensures m in xs
    ensures forall i :: 0 <= i < |xs| ==> xs[i] <= m
  {
    if |xs| == 1 then xs[0]
    else
      var rest := MaxOf(xs[1..]);
      if xs[0] >= rest then xs[0] else rest
  }

  /** `f"{x:.0f}"` for x >= 1, with exact arithmetic. */
  function WholeText(x: real): string
    requires x >= 1.0
  {
    var n := RoundHalfEven(x);
    NatToString(n)
  }

  /** The estimate by class and revenue score, used when the text names no amount
      of at least $1K. */
  function ClassBand(t: SignalType, revenue: int): (s: string)
    ensures t != CompetitiveThreat && t != TradeTariff ==> s == ImpactBand(revenue)
  {
    if t == CompetitiveThreat then
      if revenue >= 7 then "Defensive — protect $1M+ revenue" else "Defensive — protect $500K+ revenue"
    else if t == TradeTariff then
      if revenue >= 7 then "Cost advantage — $1M+ competitive benefit"
      else "Cost advantage — $200K-$500K competitive benefit"
    else ImpactBand(revenue)
  }

  /** The estimate quoted for the largest amount named: billions, millions or
      thousands, rounded to a whole number. */
  function AmountPhrase(max: real): (s: string)
    requires max >= 1000.0
    ensures EndsWith(s, "opportunity")
  {
    var parts :=
      if max >= 1000000000.0 then ("$" + WholeText(max / 1000000000.0), "B+ market opportunity")
      else if max >= 1000000.0 then ("$" + WholeText(max / 1000000.0), "M+ opportunity")
      else ("$" + WholeText(max / 1000.0), "K+ opportunity");
    var head := parts.0;
    var tail := parts.1;
    assert EndsWith(tail, "opportunity") by {
      assert tail[|tail| - |"opportunity"|..] == "opportunity";
    }
    EndsWithAppend(head, tail, "opportunity");
    head + tail
  }

  /** `_estimate_impact_heuristic` on the lower-cased text. */
  function HeuristicImpact(text: string, t: SignalType, revenue: int): string {
    var amounts := DollarAmounts(text);
    if amounts != [] && MaxOf(amounts) >= 1000.0 then AmountPhrase(MaxOf(amounts))
    else ClassBand(t, revenue)
  }

  /** The estimate quotes an amount ("... opportunity") iff the text names an amount
      of at least $1K; otherwise it is the band of the class and revenue score. */
  lemma HeuristicImpactIff(text: string, t: SignalType, revenue: int)
    ensures var amounts := DollarAmounts(text);
      var s := HeuristicImpact(text, t, revenue);
      && (EndsWith(s, "opportunity") <==> amounts != [] && MaxOf(amounts) >= 1000.0)
      && (!(amounts != [] && MaxOf(amounts) >= 1000.0) ==> s == ClassBand(t, revenue))
  {
    BandsAreNotAmounts(t, revenue);
  }

  lemma BandsAreNotAmounts(t: SignalType, revenue: int)
    ensures !EndsWith(ClassBand(t, revenue), "opportunity")
  {
    if t == CompetitiveThreat {
      DefensiveBandNotAmount(revenue);
    } else if t == TradeTariff {
      CostBandNotAmount(revenue);
    } else {
      RevenueBandNotAmount(revenue);
    }
  }

  lemma DefensiveBandNotAmount(revenue: int)
    ensures !EndsWith(ClassBand(CompetitiveThreat, revenue), "opportunity")
  {
    var s := ClassBand(CompetitiveThreat, revenue);
    assert s[|s| - 1] == 'e';
    LastCharNotEndsWith(s, "opportunity");
  }

  lemma CostBandNotAmount(revenue: int)
    ensures !EndsWith(ClassBand(TradeTariff, revenue), "opportunity")
  {
    var s := ClassBand(TradeTariff, revenue);
    assert s[|s| - 1] == 't';
    LastCharNotEndsWith(s, "opportunity");
  }

  lemma RevenueBandNotAmount(revenue: int)
    ensures !EndsWith(ImpactBand(revenue), "opportunity")
  {
    var s := ImpactBand(revenue);
    assert s[|s| - 1] == 't';
    LastCharNotEndsWith(s, "opportunity");
  }

  /** A mention such as "$2.5m" is one match and counts as 2.5 million. */
  lemma DollarExample()
    ensures DollarAmounts("$2.5m") == [2500000.0]
  {
    var t: string := "$2.5m";
    var raws: seq<string> := [t];
    DollarMatchExample();
    AmountExample();
    assert MatchedTexts(t, [(0, 5)]) == raws by {
      assert t[0..5] == t;
    }
    assert AmountsOf(raws) == [2500000.0] by {
      assert raws[1..] == [];
    }
  }

  lemma DollarMatchExample()
    ensures DollarMatches("$2.5m", 0) == [(0, 5)]
  {
    var t := "$2.5m";
    assert AmountRunEnd(t, 1) == 4;
    assert SpaceRunEnd(t, 4) == 4;
    assert MatchSuffix(t, 4, 4) == Some(5);
    assert MatchDollar(t, 0) == Some(5);
    assert DollarMatches(t, 5) == [];
  }

  lemma AmountExample()
    ensures AmountOf("$2.5m") == Some(2500000.0)
  {
    var t := "$2.5m";
    KeepNumericExample();
    ParseExample();
    assert Multiplier(t) == 1000000.0 by {
      assert !EndsWith(t, "b");
      assert t[|t| - 1..] == "m";
    }
  }

  lemma KeepNumericExample()
    ensures KeepNumeric("$2.5m") == "2.5"
  {
    var t := "$2.5m";
    assert KeepNumeric(t[4..]) == [] by {
      assert t[4..][1..] == [];
    }
    assert KeepNumeric(t[3..]) == "5" by {
      assert t[3..][1..] == t[4..];
    }
    assert KeepNumeric(t[2..]) == ".5" by {
      assert t[2..][1..] == t[3..];
    }
    assert KeepNumeric(t[1..]) == "2.5" by {
      assert t[1..][1..] == t[2..];
    }
  }

  lemma ParseExample()
    ensures ParseDecimal("2.5") == Some(2.5)
  {
    var s := "2.5";
    assert IndexOf(s, '.') == 1;
    assert s[..1] == "2" && s[2..] == "5";
    assert DigitsValue("2") == 2 by {
      assert "2"[..0] == [];
    }
    assert DigitsValue("5") == 5 by {
      assert "5"[..0] == [];
    }
    assert Pow10(1) == 10;
  }

  // ---------------------------------------------------------------- entry points

  /** `score_signal_heuristic` */
  function ScoreSignalHeuristic(cx: Setup, s: Signal): (a: Analysis)
    ensures a.analysisMethod == Heuristic
    ensures a.buMatches == MatchBus(cx.catalogue.units, s.title, s.summary)
    ensures a.signalType == Classify(SearchText(s.title, s.summary))
    ensures a.scores.Keys == set d | d in RequiredDimensions
    ensures forall d :: d in RequiredDimensions ==> d in a.scores && a.scores[d].Number? && 3.0 <= a.scores[d].value <= 10.0
    ensures a.scores[StrategicAlignment] == Number(3.0) <==> a.buMatches == []
    ensures Some(a.composite) == WeightedSum(cx.scoring.dimensions, a.scores)
    ensures a.headline == s.title && a.whatSummary == s.summary && a.outreach == None
    ensures Contains(a.whyItMatters, UnitList(cx.catalogue.units, a.buMatches))
    ensures StartsWith(a.whyItMatters, WhyLead(a.signalType)) && EndsWith(a.whyItMatters, WhyTail(a.signalType))
    ensures a.quickWin == DeployedQuickWin(a.signalType)
    ensures a.suggestedOwner == DeployedOwner(a.signalType)
  {
    var units := cx.catalogue.units;
    var matches := MatchBus(units, s.title, s.summary);
    var text := SearchText(s.title, s.summary);
    var t := Classify(text);
    var m := HeuristicScores(t, Alignment(matches));
    HeuristicScoresRange(t, matches);
    var scores := Numbers(m);
    NumbersCompose(cx.scoring.dimensions, scores);
    var n := DeployedNarrative(t);
    Analysis(t, scores, WeightedSum(cx.scoring.dimensions, scores).value, matches, s.title, s.summary,
      WhyItMatters(units, n, matches), n.quickWin, n.owner,
      HeuristicImpact(text, t, m[RevenueImpact]), None, Heuristic)
  }

  /** The scores as numbers: `{d: v}` with integer values. */
  function Numbers(m: map<string, int>): (r: map<string, Num>)
    ensures r.Keys == m.Keys
    ensures forall k :: k in m ==> r[k] == Number(m[k] as real)
  {
    map d | d in m :: Number(m[d] as real)
  }

  /** Every class has its own owner role, none of them the validation default, so
      two heuristic analyses of different classes never suggest the same owner. */
  lemma OwnersDistinct(cx: Setup, s: Signal, s2: Signal)
    ensures var a := ScoreSignalHeuristic(cx, s);
      var b := ScoreSignalHeuristic(cx, s2);
      a.signalType != b.signalType ==> a.suggestedOwner != b.suggestedOwner
    ensures ScoreSignalHeuristic(cx, s).suggestedOwner != DefaultOwner
  {
    var a := ScoreSignalHeuristic(cx, s);
    var b := ScoreSignalHeuristic(cx, s2);
    DeployedOwnersDistinct(a.signalType, b.signalType);
  }

  lemma DeployedOwnersDistinct(t: SignalType, u: SignalType)
    ensures t != u ==> DeployedOwner(t) != DeployedOwner(u)
    ensures DeployedOwner(t) != DefaultOwner
  {
  }

  /** `score_signal`: the remote analysis when there is one, otherwise the heuristic. */
  function ScoreSignal(remote: Remote, cx: Setup, s: Signal): (r: Outcome<Analysis>)
    ensures ScoreSignalAi(remote, cx, s).Returned? && ScoreSignalAi(remote, cx, s).value.Some? ==>
      r == Returned(ScoreSignalAi(remote, cx, s).value.value)
    ensures ScoreSignalAi(remote, cx, s) == Returned(None) ==> r == Returned(ScoreSignalHeuristic(cx, s))
    ensures r.Thrown? <==> ScoreSignalAi(remote, cx, s).Thrown?
    ensures !remote.available ==> r == Returned(ScoreSignalHeuristic(cx, s))
  {
    match ScoreSignalAi(remote, cx, s)
    case Thrown => Thrown
    case Returned(Some(a)) => Returned(a)
    case Returned(None) => Returned(ScoreSignalHeuristic(cx, s))
  }

  /** The results of a list of calls that may raise, in order, or the exception
      of the first one that raises. */
  function Collect(outs: seq<Outcome<Analysis>>): (r: Outcome<seq<Analysis>>)
    ensures r.Returned? <==> forall i :: 0 <= i < |outs| ==> outs[i].Returned?
    ensures r.Returned? ==> |r.value| == |outs|
    ensures r.Returned? ==> forall i :: 0 <= i < |outs| ==> r.value[i] == outs[i].value
  {
    if outs == [] then Returned([])
    else
      match outs[0]
      case Thrown => Thrown
      case Returned(a) =>
        var rest := Collect(outs[1..]);
        assert forall i :: 1 <= i < |outs| ==> outs[i] == outs[1..][i - 1];
        if rest.Thrown? then Thrown else Returned([a] + rest.value)
  }

  /** `[score_signal(s) for s in signals]` */
  function EachScored(remote: Remote, cx: Setup, signals: seq<Signal>): (outs: seq<Outcome<Analysis>>)
    ensures |outs| == |signals|
    ensures forall i :: 0 <= i < |signals| ==> outs[i] == ScoreSignal(remote, cx, signals[i])
  {
    seq(|signals|, i requires 0 <= i < |signals| => ScoreSignal(remote, cx, signals[i]))
  }

  /** `[score_signal_heuristic(s) for s in signals]` */
  function EachHeuristic(cx: Setup, signals: seq<Signal>): (r: seq<Analysis>)
    ensures |r| == |signals|
    ensures forall i :: 0 <= i < |signals| ==> r[i] == ScoreSignalHeuristic(cx, signals[i])
  {
    seq(|signals|, i requires 0 <= i < |signals| => ScoreSignalHeuristic(cx, signals[i]))
  }

  /** One element of a batch reply of the right length: the validated element
      tagged "ai-batch", or the signal scored on its own when validation rejects it. */
  function BatchElement(remote: Remote, cx: Setup, s: Signal, raw: Reply): (r: Outcome<Analysis>)
    ensures Validate(raw).Rejected? ==> r == ScoreSignal(remote, cx, s)
    ensures Validate(raw).Accepted? && r.Returned? ==>
      r.value.analysisMethod == AiBatch && Some(r.value.composite) == WeightedSum(cx.scoring.dimensions, r.value.scores)
      && Some(r.value.scores) == ValidateScores(raw.analysis.scores)
  {
    match Validate(raw)
    case Rejected => ScoreSignal(remote, cx, s)
    case Raises => Thrown
    case Accepted(v) =>
      match FromRecord(v, cx.scoring.dimensions, AiBatch)
      case None => Thrown
      case Some(a) => Returned(a)
  }

  /** The element-wise results of a reply of the right length, in input order. */
  function AlignedOutcomes(remote: Remote, cx: Setup, signals: seq<Signal>, items: seq<Reply>): (outs: seq<Outcome<Analysis>>)
    requires |items| == |signals|
    ensures |outs| == |signals|
    ensures forall i :: 0 <= i < |signals| ==> outs[i] == BatchElement(remote, cx, signals[i], items[i])
  {
    seq(|signals|, i requires 0 <= i < |signals| => BatchElement(remote, cx, signals[i], items[i]))
  }

  /** The decoded reply to the batch prompt, when the client is asked. */
  function BatchReply(remote: Remote, cx: Setup, signals: seq<Signal>): Option<Reply> {
    remote.answer(SystemPromptOf(cx),
      Prompts.BatchPrompt(Prompts.DeployedInstructions, signals, cx.scoring.dimensions, cx.showWeight))
  }

  /** The reply is an array with one element per signal. */
  predicate Aligned(reply: Option<Reply>, n: nat) {
    reply.Some? && reply.value.ReplyArray? && |reply.value.items| == n
  }

  /** `score_batch_ai` */
  function ScoreBatch(remote: Remote, cx: Setup, signals: seq<Signal>): Outcome<seq<Analysis>> {
    if !remote.available || signals == [] then Returned(EachHeuristic(cx, signals))
    else ScoreReply(remote, cx, signals, BatchReply(remote, cx, signals))
  }

  /** What batch scoring makes of the decoded reply to the batch prompt. */
  function ScoreReply(remote: Remote, cx: Setup, signals: seq<Signal>, reply: Option<Reply>): Outcome<seq<Analysis>> {
    if Aligned(reply, |signals|) then Collect(AlignedOutcomes(remote, cx, signals, reply.value.items))
    else Collect(EachScored(remote, cx, signals))
  }

  /** Without a client, or for no signals, batch scoring is the heuristic of each signal. */
  lemma ScoreBatchFallback(remote: Remote, cx: Setup, signals: seq<Signal>)
    requires !remote.available || signals == []
    ensures ScoreBatch(remote, cx, signals).Returned?
    ensures |ScoreBatch(remote, cx, signals).value| == |signals|
    ensures forall i :: 0 <= i < |signals| ==>
      ScoreBatch(remote, cx, signals).value[i] == ScoreSignalHeuristic(cx, signals[i])
  {
  }

  /** When the reply is not an array with one element per signal, batch scoring is
      `score_signal` of each signal, in input order, and raises when one of them does. */
  lemma ScoreBatchUnaligned(remote: Remote, cx: Setup, signals: seq<Signal>)
    requires remote.available && signals != [] && !Aligned(BatchReply(remote, cx, signals), |signals|)
    ensures var r := ScoreBatch(remote, cx, signals);
      && (r.Returned? <==> forall i :: 0 <= i < |signals| ==> ScoreSignal(remote, cx, signals[i]).Returned?)
      && (r.Returned? ==> |r.value| == |signals|)
      && (r.Returned? ==> forall i :: 0 <= i < |signals| ==> r.value[i] == ScoreSignal(remote, cx, signals[i]).value)
  {
    ScoreReplyUnaligned(remote, cx, signals, BatchReply(remote, cx, signals));
  }

  /** The same, for whatever reply was decoded. */
  lemma ScoreReplyUnaligned(remote: Remote, cx: Setup, signals: seq<Signal>, reply: Option<Reply>)
    requires !Aligned(reply, |signals|)
    ensures var r := ScoreReply(remote, cx, signals, reply);
      && (r.Returned? <==> forall i :: 0 <= i < |signals| ==> ScoreSignal(remote, cx, signals[i]).Returned?)
      && (r.Returned? ==> |r.value| == |signals|)
      && (r.Returned? ==> forall i :: 0 <= i < |signals| ==> r.value[i] == ScoreSignal(remote, cx, signals[i]).value)
  {
    var outs := EachScored(remote, cx, signals);
    assert ScoreReply(remote, cx, signals, reply) == Collect(outs);
  }

  /** When the reply is an array with one element per signal, batch scoring raises
      exactly when one of the elements does. */
  lemma ScoreBatchAlignedRaises(remote: Remote, cx: Setup, signals: seq<Signal>)
    requires remote.available && signals != [] && Aligned(BatchReply(remote, cx, signals), |signals|)
    ensures var items := BatchReply(remote, cx, signals).value.items;
      ScoreBatch(remote, cx, signals).Returned? <==>
        forall i :: 0 <= i < |signals| ==> BatchElement(remote, cx, signals[i], items[i]).Returned?
  {
    ScoreReplyAlignedRaises(remote, cx, signals, BatchReply(remote, cx, signals));
  }

  /** The same, for whatever reply was decoded. */
  lemma ScoreReplyAlignedRaises(remote: Remote, cx: Setup, signals: seq<Signal>, reply: Option<Reply>)
    requires Aligned(reply, |signals|)
    ensures ScoreReply(remote, cx, signals, reply).Returned? <==>
      forall i :: 0 <= i < |signals| ==> BatchElement(remote, cx, signals[i], reply.value.items[i]).Returned?
  {
    var outs := AlignedOutcomes(remote, cx, signals, reply.value.items);
    assert ScoreReply(remote, cx, signals, reply) == Collect(outs);
  }

  /** When the reply is an array with one element per signal and batch scoring
      returns, result i comes from element i of the reply, or from scoring signal i
      alone when that element fails validation. */
  lemma ScoreBatchAligned(remote: Remote, cx: Setup, signals: seq<Signal>)
    requires remote.available && signals != [] && Aligned(BatchReply(remote, cx, signals), |signals|)
    ensures var r := ScoreBatch(remote, cx, signals);
      var items := BatchReply(remote, cx, signals).value.items;
      r.Returned? ==>
        && |r.value| == |signals|
        && forall i :: 0 <= i < |signals| ==> r.value[i] == BatchElement(remote, cx, signals[i], items[i]).value
  {
    ScoreReplyAligned(remote, cx, signals, BatchReply(remote, cx, signals));
  }

  /** The same, for whatever reply was decoded. */
  lemma ScoreReplyAligned(remote: Remote, cx: Setup, signals: seq<Signal>, reply: Option<Reply>)
    requires Aligned(reply, |signals|)
    ensures var r := ScoreReply(remote, cx, signals, reply);
      r.Returned? ==>
        && |r.value| == |signals|
        && forall i :: 0 <= i < |signals| ==> r.value[i] == BatchElement(remote, cx, signals[i], reply.value.items[i]).value
  {
    var outs := AlignedOutcomes(remote, cx, signals, reply.value.items);
    assert ScoreReply(remote, cx, signals, reply) == Collect(outs);
  }

  /** `score_batch_ai` as the source runs it: the signals paired with the elements
      of the reply, one result per signal. */
  method ScoreBatchAi(remote: Remote, cx: Setup, signals: seq<Signal>) returns (r: Outcome<seq<Analysis>>)
    ensures r == ScoreBatch(remote, cx, signals)
  {
    if !remote.available || signals == [] {
      return Returned(EachHeuristic(cx, signals));
    }
    var reply := BatchReply(remote, cx, signals);
    if !Aligned(reply, |signals|) {
      r := ScoreEach(remote, cx, signals);
      return;
    }
    r := CollectFirst(AlignedOutcomes(remote, cx, signals, reply.value.items));
  }

  /** `[score_signal(s) for s in signals]`, stopping at the first exception. */
  method ScoreEach(remote: Remote, cx: Setup, signals: seq<Signal>) returns (r: Outcome<seq<Analysis>>)
    ensures r == Collect(EachScored(remote, cx, signals))
  {
    r := CollectFirst(EachScored(remote, cx, signals));
  }

  /** The loop that appends one result per call and stops at the first call that raises. */
  method CollectFirst(outs: seq<Outcome<Analysis>>) returns (r: Outcome<seq<Analysis>>)
    ensures r == Collect(outs)
  {
    var results: seq<Analysis> := [];
    var i := 0;
    while i < |outs|
      invariant 0 <= i <= |outs|
      invariant |results| == i
      invariant forall j :: 0 <= j < i ==> outs[j] == Returned(results[j])
    {
      if outs[i].Thrown? {
        return Thrown;
      }
      results := results + [outs[i].value];
      i := i + 1;
    }
    var c := Collect(outs);
    assert c.Returned? && c.value == results;
    r := Returned(results);
  }
}
