/** Trend tracking: after a scoring run every scored or published signal
    contributes to trend keys (its business units with its type, its type, its
    business units, the competitors its text names); each key's contributions are
    upserted into `trends`, with a momentum against the stored count, and into a
    weekly snapshot. The clock (week, year, date) and the business-unit names are
    parameters. */
module Tracker {
  import opened Model
  import opened Text
  import opened Db
  import Sorting
  import Seqs

  /** The competitor names looked for in each signal's text. */
  const Competitors: seq<string> := [
    "kistler", "hbk", "zemic", "rice lake", "tt electronics",
    "kyowa", "flintec", "omega", "novanta", "figure ai",
    "boston dynamics", "sunrise instruments"]

  // ---------------------------------------------------------------- the query

  /** A row of the query joining `signals` with `signal_analysis`. */
  datatype Row = Row(id: nat, title: string, summary: string, kind: string, composite: real)

  /** The row a stored signal contributes: only scored or published signals that
      have an analysis. */
  function RowOf(analyses: map<nat, Analysis>, s: Signal): Option<Row> {
    if (s.status == Scored || s.status == Published) && s.id in analyses then
      Some(Row(s.id, s.title, s.summary, analyses[s.id].signalType.Id(), analyses[s.id].composite))
    else None
  }

  function RowFn(analyses: map<nat, Analysis>): Signal -> Option<Row> {
    (s: Signal) => RowOf(analyses, s)
  }

  function Composite(r: Row): real {
    r.composite
  }

  /** `SELECT ... WHERE s.status IN ('scored', 'published') ORDER BY
      sa.score_composite DESC`, with rows of equal score in table order. */
  function Query(signals: seq<Signal>, analyses: map<nat, Analysis>): seq<Row> {
    Sorting.SortDesc(Seqs.FilterMap(signals, RowFn(analyses)), Composite)
  }

  /** The query returns exactly the rows of the scored or published signals with an
      analysis, highest composite first. */
  lemma QueryExact(signals: seq<Signal>, analyses: map<nat, Analysis>, r: Row)
    ensures r in Query(signals, analyses) <==>
      exists i :: 0 <= i < |signals| && RowOf(analyses, signals[i]) == Some(r)
    ensures Sorting.SortedDesc(Query(signals, analyses), Composite)
  {
    var joined := Seqs.FilterMap(signals, RowFn(analyses));
    Sorting.SortDescSorted(joined, Composite);
    assert r in Query(signals, analyses) <==> r in multiset(joined);
    Seqs.FilterMapExact(signals, RowFn(analyses), r);
  }

  // ---------------------------------------------------------------- keys of a signal

  /** The caption of a signal type: dashes become spaces, then title case. */
  function TypeCaption(kind: string): string {
    TitleCase(ReplaceAll(kind, "-", " "))
  }

  /** `bu_names.get(bu_id, bu_id)` */
  function BuName(names: map<string, string>, bu: string): string {
    if bu in names then names[bu] else bu
  }

  /** One contribution of a signal to a trend key. */
  datatype Emission = Emission(key: string, kind: string, caption: string, score: real, signalId: nat)

  /** The business units a signal is linked to in `signal_bus`, in order. */
  function BusOf(links: map<nat, seq<BuMatch>>, id: nat): seq<string> {
    if id in links then seq(|links[id]|, i requires 0 <= i < |links[id]| => links[id][i].buId) else []
  }

  function BuTypeEmissions(r: Row, bus: seq<string>, names: map<string, string>): seq<Emission> {
    seq(|bus|, i requires 0 <= i < |bus| =>
      Emission(bus[i] + ":" + r.kind, "bu_signal_type", BuName(names, bus[i]) + " - " + TypeCaption(r.kind), r.composite, r.id))
  }

  function BuEmissions(r: Row, bus: seq<string>, names: map<string, string>): seq<Emission> {
    seq(|bus|, i requires 0 <= i < |bus| =>
      Emission("bu:" + bus[i], "business_unit", BuName(names, bus[i]), r.composite, r.id))
  }

  function CompetitorFn(r: Row, text: string): string -> Option<Emission> {
    (c: string) => if Contains(text, c) then Some(Emission("competitor:" + c, "competitor", TitleCase(c), r.composite, r.id)) else None
  }

  /** The text competitors are looked for in: title and summary, lower-cased. */
  function SignalText(r: Row): string {
    Lower(r.title + " " + r.summary)
  }

  /** The part of `EmissionsOf` before the competitors: two per business unit and
      one for the type. */
  function FixedEmissions(r: Row, bus: seq<string>, names: map<string, string>): (es: seq<Emission>)
    ensures |es| == 2 * |bus| + 1
  {
    BuTypeEmissions(r, bus, names)
      + [Emission("type:" + r.kind, "signal_type", TypeCaption(r.kind), r.composite, r.id)]
      + BuEmissions(r, bus, names)
  }

  /** The contributions of one signal, in the order the aggregation sees them: one
      per business unit with its type, one for its type, one per business unit,
      one per competitor its text names. */
  function EmissionsOf(r: Row, bus: seq<string>, names: map<string, string>, competitors: seq<string>): seq<Emission> {
    FixedEmissions(r, bus, names) + Seqs.FilterMap(competitors, CompetitorFn(r, SignalText(r)))
  }

  /** The keys of a signal: `<bu>:<type>` for each business unit, then `type:<type>`,
      then `bu:<bu>` for each business unit. */
  lemma FixedKeys(r: Row, bus: seq<string>, names: map<string, string>)
    ensures var es := FixedEmissions(r, bus, names);
      && es[|bus|].key == "type:" + r.kind
      && (forall i :: 0 <= i < |bus| ==> es[i].key == bus[i] + ":" + r.kind && es[|bus| + 1 + i].key == "bu:" + bus[i])
  {
  }

  /** A signal names a competitor key exactly for each listed competitor its
      lower-cased text contains. */
  lemma CompetitorKeys(r: Row, competitors: seq<string>, c: string)
    ensures (exists e :: e in Seqs.FilterMap(competitors, CompetitorFn(r, SignalText(r))) && e.key == "competitor:" + c)
      <==> c in competitors && Contains(SignalText(r), c)
  {
    var f := CompetitorFn(r, SignalText(r));
    var comp := Seqs.FilterMap(competitors, f);
    if exists e :: e in comp && e.key == "competitor:" + c {
      var e :| e in comp && e.key == "competitor:" + c;
      Seqs.FilterMapExact(competitors, f, e);
      var j :| 0 <= j < |competitors| && f(competitors[j]) == Some(e);
      assert competitors[j] == e.key[11..] == c;
    }
    if c in competitors && Contains(SignalText(r), c) {
      var j :| 0 <= j < |competitors| && competitors[j] == c;
      Seqs.FilterMapExact(competitors, f, f(c).value);
    }
  }

  /** Every contribution of a signal carries its score and id. */
  lemma EmissionsCarry(r: Row, bus: seq<string>, names: map<string, string>, competitors: seq<string>)
    ensures var es := EmissionsOf(r, bus, names, competitors);
      forall i :: 0 <= i < |es| ==> es[i].score == r.composite && es[i].signalId == r.id
  {
    var f := CompetitorFn(r, SignalText(r));
    var head := FixedEmissions(r, bus, names);
    var comp := Seqs.FilterMap(competitors, f);
    var es := head + comp;
    forall i | 0 <= i < |es|
      ensures es[i].score == r.composite && es[i].signalId == r.id
    {
      if i >= |head| {
        assert es[i] == comp[i - |head|];
        Seqs.FilterMapExact(competitors, f, comp[i - |head|]);
      }
    }
  }

  /** The contributions of all rows, row by row. */
  function AllEmissions(rows: seq<Row>, links: map<nat, seq<BuMatch>>, names: map<string, string>,
                        competitors: seq<string>): seq<Emission>
  {
    if rows == [] then []
    else
      var last := rows[|rows| - 1];
      AllEmissions(rows[..|rows| - 1], links, names, competitors) + EmissionsOf(last, BusOf(links, last.id), names, competitors)
  }

  function Score(e: Emission): real {
    e.score
  }

  /** Appending contributions of one score, no higher than any before them, keeps
      the scores descending. */
  lemma AppendDesc(prev: seq<Emission>, mine: seq<Emission>, v: real)
    requires Sorting.SortedDesc(prev, Score)
    requires forall i :: 0 <= i < |prev| ==> prev[i].score >= v
    requires forall i :: 0 <= i < |mine| ==> mine[i].score == v
    ensures Sorting.SortedDesc(prev + mine, Score)
    ensures forall i :: 0 <= i < |prev + mine| ==> (prev + mine)[i].score >= v
  {
    var all := prev + mine;
    forall i, j | 0 <= i < j < |all|
      ensures all[i].score >= all[j].score
    {
      if j >= |prev| {
        assert all[j] == mine[j - |prev|];
        if i < |prev| {
          assert all[i] == prev[i];
        } else {
          assert all[i] == mine[i - |prev|];
        }
      } else {
        assert all[i] == prev[i] && all[j] == prev[j];
      }
    }
    forall i | 0 <= i < |all|
      ensures all[i].score >= v
    {
      if i < |prev| {
        assert all[i] == prev[i];
      } else {
        assert all[i] == mine[i - |prev|];
      }
    }
  }

  /** Rows in descending composite order give contributions in descending score
      order. */
  lemma {:induction false} AllEmissionsDesc(rows: seq<Row>, links: map<nat, seq<BuMatch>>, names: map<string, string>,
                                            competitors: seq<string>)
    requires Sorting.SortedDesc(rows, Composite)
    ensures Sorting.SortedDesc(AllEmissions(rows, links, names, competitors), Score)
    ensures rows != [] ==> forall i :: 0 <= i < |AllEmissions(rows, links, names, competitors)| ==>
      AllEmissions(rows, links, names, competitors)[i].score >= rows[|rows| - 1].composite
    decreases |rows|
  {
    if rows != [] {
      var init := rows[..|rows| - 1];
      var last := rows[|rows| - 1];
      var prev := AllEmissions(init, links, names, competitors);
      var mine := EmissionsOf(last, BusOf(links, last.id), names, competitors);
      assert AllEmissions(rows, links, names, competitors) == prev + mine;
      assert Sorting.SortedDesc(init, Composite);
      AllEmissionsDesc(init, links, names, competitors);
      EmissionsCarry(last, BusOf(links, last.id), names, competitors);
      if init != [] {
        assert init[|init| - 1].composite >= last.composite;
      }
      AppendDesc(prev, mine, last.composite);
    }
  }

  // ---------------------------------------------------------------- aggregation

  /** What `aggregations[key]` holds. */
  datatype Agg = Agg(kind: string, caption: string, count: nat, scores: seq<real>, signalIds: seq<nat>)

  /** The `aggregations` dict: its keys in insertion order, and the entries. */
  datatype Aggregation = Aggregation(keys: seq<string>, byKey: map<string, Agg>)

  /** One contribution added to the dict: a new key is appended; the type and
      caption are overwritten; count, scores and ids grow. */
  function Add(g: Aggregation, e: Emission): Aggregation {
    if e.key in g.byKey then
      var a := g.byKey[e.key];
      Aggregation(g.keys, g.byKey[e.key := Agg(e.kind, e.caption, a.count + 1, a.scores + [e.score], a.signalIds + [e.signalId])])
    else
      Aggregation(g.keys + [e.key], g.byKey[e.key := Agg(e.kind, e.caption, 1, [e.score], [e.signalId])])
  }

  function Aggregate(es: seq<Emission>): Aggregation {
    if es == [] then Aggregation([], map[]) else Add(Aggregate(es[..|es| - 1]), es[|es| - 1])
  }

  /** The keys are distinct and are exactly the keys of the dict. */
  ghost predicate Consistent(g: Aggregation) {
    Distinct(g.keys) && (forall k :: k in g.byKey <==> k in g.keys)
  }

  predicate Distinct(keys: seq<string>) {
    forall i, j :: 0 <= i < j < |keys| ==> keys[i] != keys[j]
  }

  predicate Covered(keys: seq<string>, byKey: map<string, Agg>) {
    forall i :: 0 <= i < |keys| ==> keys[i] in byKey
  }

  function KeyIs(k: string): Emission -> bool {
    (e: Emission) => e.key == k
  }

  /** The contributions to one key, in order. */
  function Contributions(es: seq<Emission>, k: string): seq<Emission> {
    Seqs.Filter(es, KeyIs(k))
  }

  /** An entry summarises its contributions: the count, scores and ids are those of
      each contribution in order, and the type and caption those of the last. */
  predicate Summarises(a: Agg, cs: seq<Emission>) {
    && a.count == |cs| && |a.scores| == |cs| && |a.signalIds| == |cs| && cs != []
    && (forall i :: 0 <= i < |cs| ==> a.scores[i] == cs[i].score && a.signalIds[i] == cs[i].signalId)
    && a.kind == cs[|cs| - 1].kind && a.caption == cs[|cs| - 1].caption
  }

  lemma AddConsistent(g: Aggregation, e: Emission)
    requires Consistent(g)
    ensures Consistent(Add(g, e))
  {
  }

  /** The dict holds one entry per key that received a contribution, and each entry
      summarises the contributions to its key. */
  lemma {:induction false} AggregateExact(es: seq<Emission>, k: string)
    ensures Consistent(Aggregate(es))
    ensures k in Aggregate(es).byKey <==> Contributions(es, k) != []
    ensures k in Aggregate(es).byKey ==> Summarises(Aggregate(es).byKey[k], Contributions(es, k))
    decreases |es|
  {
    if es != [] {
      var init := es[..|es| - 1];
      var e := es[|es| - 1];
      AggregateExact(init, k);
      AddConsistent(Aggregate(init), e);
      assert Contributions(es, k) == Contributions(init, k) + (if e.key == k then [e] else []);
    }
  }

  /** The keys of the dict are distinct and each has an entry. */
  lemma AggregateCovered(es: seq<Emission>)
    ensures Distinct(Aggregate(es).keys) && Covered(Aggregate(es).keys, Aggregate(es).byKey)
  {
    AggregateExact(es, "");
  }

  /** Aggregating one more contribution is adding it to the dict. */
  lemma AggregateSnoc(es: seq<Emission>, e: Emission)
    ensures Aggregate(es + [e]) == Add(Aggregate(es), e)
  {
    assert (es + [e])[..|es|] == es;
  }

  /** A sub-sequence of a descending sequence is descending. */
  lemma {:induction false} FilterDesc(es: seq<Emission>, p: Emission -> bool)
    requires Sorting.SortedDesc(es, Score)
    ensures Sorting.SortedDesc(Seqs.Filter(es, p), Score)
    decreases |es|
  {
    if es != [] {
      var init := es[..|es| - 1];
      var last := es[|es| - 1];
      assert Sorting.SortedDesc(init, Score);
      FilterDesc(init, p);
      var f := Seqs.Filter(init, p);
      forall i | 0 <= i < |f|
        ensures f[i].score >= last.score
      {
        Seqs.FilterExact(init, p, f[i]);
        var j :| 0 <= j < |init| && init[j] == f[i];
      }
    }
  }

  /** Over the query's rows, the first contribution to a key has the highest score
      of all contributions to it: `top_signal_id` is the highest-scored signal of
      the key. */
  lemma TopContributor(rows: seq<Row>, links: map<nat, seq<BuMatch>>, names: map<string, string>,
                       competitors: seq<string>, k: string)
    requires Sorting.SortedDesc(rows, Composite)
    ensures var g := Aggregate(AllEmissions(rows, links, names, competitors));
      k in g.byKey ==> g.byKey[k].scores != [] && forall i :: 0 <= i < |g.byKey[k].scores| ==> g.byKey[k].scores[0] >= g.byKey[k].scores[i]
  {
    var es := AllEmissions(rows, links, names, competitors);
    AllEmissionsDesc(rows, links, names, competitors);
    FilterDesc(es, KeyIs(k));
    AggregateExact(es, k);
  }

  // ---------------------------------------------------------------- momentum and scores

  /** The momentum of a key seen before, against its stored occurrence count. */
  function MomentumOf(count: nat, stored: nat): (m: Momentum)
    ensures m == Spike <==> count as real > stored as real * 1.5
    ensures m == Rising <==> count > stored && count as real <= stored as real * 1.5
    ensures m == Declining <==> count < stored
    ensures m == Stable <==> count == stored
    ensures m != Fresh
  {
    if count as real > stored as real * 1.5 then Spike
    else if count > stored then Rising
    else if count < stored then Declining
    else Stable
  }

  /** The week-over-week change in percent, against the stored count (at least 1):
      positive exactly when the count rose, negative exactly when it fell. */
  function Change(count: nat, stored: nat): (c: real)
    ensures c > 0.0 <==> count > stored
    ensures c < 0.0 <==> count < stored
  {
    (count as real - stored as real) / (if stored > 1 then stored else 1) as real * 100.0
  }

  function Sum(xs: seq<real>): real {
    if xs == [] then 0.0 else Sum(xs[..|xs| - 1]) + xs[|xs| - 1]
  }

  /** `max(scores)` */
  function MaxOf(xs: seq<real>): (m: real)
    requires xs != []
    ensures m in xs
    ensures forall i :: 0 <= i < |xs| ==> xs[i] <= m
  {
    if |xs| == 1 then xs[0]
    else
      var m := MaxOf(xs[..|xs| - 1]);
      assert forall i :: 0 <= i < |xs| - 1 ==> xs[i] == xs[..|xs| - 1][i];
      if xs[|xs| - 1] > m then xs[|xs| - 1] else m
  }

  /** `sum(scores) / len(scores) if scores else 0` */
  function Average(xs: seq<real>): real {
    if xs == [] then 0.0 else Sum(xs) / |xs| as real
  }

  /** The sum of values no larger than `m` is at most `m` times their number. */
  lemma {:induction false} SumAtMost(xs: seq<real>, m: real)
    requires forall i :: 0 <= i < |xs| ==> xs[i] <= m
    ensures Sum(xs) <= |xs| as real * m
    decreases |xs|
  {
    if xs != [] {
      var init := xs[..|xs| - 1];
      assert forall i :: 0 <= i < |init| ==> init[i] == xs[i];
      SumAtMost(init, m);
    }
  }

  /** The average of a key's scores is at most their maximum. */
  lemma AverageAtMostMax(xs: seq<real>)
    requires xs != []
    ensures Average(xs) <= MaxOf(xs)
  {
    var m := MaxOf(xs);
    SumAtMost(xs, m);
    QuotientAtMost(Sum(xs), |xs| as real, m);
  }

  lemma QuotientAtMost(s: real, n: real, m: real)
    requires n > 0.0 && s <= n * m
    ensures s / n <= m
  {
    var q := s / n;
    assert q * n == s;
    if q > m {
      assert q * n > m * n;
    }
  }

  /** `max(scores) if scores else 0` */
  function Top(a: Agg): real {
    if a.scores == [] then 0.0 else MaxOf(a.scores)
  }

  /** `signal_ids[0] if signal_ids else None` */
  function TopSignal(a: Agg): Option<nat> {
    if a.signalIds == [] then None else Some(a.signalIds[0])
  }

  function RealMax(x: real, y: real): real {
    if x >= y then x else y
  }

  // ---------------------------------------------------------------- the upsert

  /** The momentum a key gets: "new" when no trend has it yet. */
  function MomentumFor(existing: Option<Trend>, a: Agg): Momentum {
    match existing
    case None => Fresh
    case Some(t) => MomentumOf(a.count, t.count)
  }

  predicate IsNotable(m: Momentum) {
    m == Spike || m == Rising || m == Fresh
  }

  /** The trend row a key's aggregate leaves: a stored row updated, or a new row
      with momentum "new". */
  function Written(existing: Option<Trend>, id: nat, key: string, a: Agg, today: string): Trend {
    match existing
    case Some(t) =>
      t.(lastSeen := today, count := t.count + a.count, change := Change(a.count, t.count),
         avgScore := Average(a.scores), maxScore := RealMax(t.maxScore, Top(a)), momentum := MomentumOf(a.count, t.count))
    case None =>
      Trend(id, key, a.kind, a.caption, today, today, a.count, 0.0, Average(a.scores), Top(a), Fresh)
  }

  /** An entry of `notable`. */
  datatype Notable = Notable(caption: string, momentum: Momentum, count: nat, change: real)

  /** The entry a key adds to `notable`: exactly for new, spike and rising keys. */
  function NotableOf(existing: Option<Trend>, a: Agg): (n: Option<Notable>)
    ensures n.Some? <==> IsNotable(MomentumFor(existing, a))
    ensures n.Some? ==> n.value.momentum == MomentumFor(existing, a) && n.value.count == a.count && n.value.caption == a.caption
  {
    match existing
    case None => Some(Notable(a.caption, Fresh, a.count, 0.0))
    case Some(t) =>
      var m := MomentumOf(a.count, t.count);
      if m == Spike || m == Rising then Some(Notable(a.caption, m, a.count, Change(a.count, t.count))) else None
  }

  /** The stored trend with the key, if any. */
  function Lookup(rows: seq<Trend>, key: string): Option<Trend> {
    match TrendIndex(rows, key)
    case Some(i) => Some(rows[i])
    case None => None
  }

  /** In rows with distinct keys, a row is found by its key. */
  lemma TrendIndexAt(rows: seq<Trend>, i: nat)
    requires TrendRows(rows) && i < |rows|
    ensures TrendIndex(rows, rows[i].key) == Some(i)
  {
  }

  function SnapshotOf(trendId: nat, week: nat, year: int, a: Agg): Snapshot {
    Snapshot(trendId, week, year, a.count, Average(a.scores), TopSignal(a))
  }

  function OptSeq<T>(o: Option<T>): seq<T> {
    match o
    case Some(x) => [x]
    case None => []
  }

  /** The tables and the `notable` list while the keys are upserted. */
  datatype Upserted = Upserted(trends: seq<Trend>, snapshots: seq<Snapshot>, notable: seq<Notable>)

  /** `trends` after one key is written: the stored row updated in place, or a new
      row appended. */
  function WriteTrend(rows: seq<Trend>, key: string, a: Agg, today: string): seq<Trend> {
    var t := Written(Lookup(rows, key), |rows| + 1, key, a, today);
    match TrendIndex(rows, key)
    case Some(i) => rows[i := t]
    case None => rows + [t]
  }

  /** One key upserted: its trend written, its snapshot for the week replaced, its
      notable entry appended. */
  function UpsertKey(u: Upserted, key: string, a: Agg, week: nat, year: int, today: string): Upserted {
    var existing := Lookup(u.trends, key);
    var id := Written(existing, |u.trends| + 1, key, a, today).id;
    Upserted(WriteTrend(u.trends, key, a, today),
             ReplacedSnapshots(u.snapshots, SnapshotOf(id, week, year, a)),
             u.notable + OptSeq(NotableOf(existing, a)))
  }

  /** The keys upserted in order. */
  function UpsertAll(u: Upserted, keys: seq<string>, byKey: map<string, Agg>, week: nat, year: int, today: string): Upserted
    requires Covered(keys, byKey)
  {
    if keys == [] then u
    else
      var k := keys[|keys| - 1];
      UpsertKey(UpsertAll(u, keys[..|keys| - 1], byKey, week, year, today), k, byKey[k], week, year, today)
  }

  /** Writing a key keeps the keys distinct and finds the written row by the key. */
  lemma WriteTrendFound(rows: seq<Trend>, key: string, a: Agg, today: string)
    requires TrendRows(rows)
    ensures TrendRows(WriteTrend(rows, key, a, today))
    ensures Lookup(WriteTrend(rows, key, a, today), key) == Some(Written(Lookup(rows, key), |rows| + 1, key, a, today))
  {
    var r := WriteTrend(rows, key, a, today);
    match TrendIndex(rows, key)
    case Some(i) =>
      TrendIndexAt(r, i);
    case None =>
      TrendIndexAt(r, |rows|);
  }

  /** Writing a key leaves the row of every other key as it was. */
  lemma WriteTrendOthers(rows: seq<Trend>, key: string, a: Agg, today: string, k: string)
    requires TrendRows(rows) && k != key
    ensures Lookup(WriteTrend(rows, key, a, today), k) == Lookup(rows, k)
  {
    WriteTrendFound(rows, key, a, today);
    var r := WriteTrend(rows, key, a, today);
    match TrendIndex(rows, k)
    case Some(j) =>
      assert r[j] == rows[j];
      TrendIndexAt(r, j);
    case None =>
      assert forall i :: 0 <= i < |r| ==> r[i].key != k;
  }

  /** Upserting keys keeps the keys of `trends` distinct and leaves every key not
      upserted as it was. */
  lemma {:induction false} UpsertAllFrame(u: Upserted, keys: seq<string>, byKey: map<string, Agg>, week: nat, year: int, today: string)
    requires Covered(keys, byKey)
    requires TrendRows(u.trends)
    ensures TrendRows(UpsertAll(u, keys, byKey, week, year, today).trends)
    ensures forall k :: k !in keys ==> Lookup(UpsertAll(u, keys, byKey, week, year, today).trends, k) == Lookup(u.trends, k)
    decreases |keys|
  {
    if keys != [] {
      var init := keys[..|keys| - 1];
      var last := keys[|keys| - 1];
      UpsertAllFrame(u, init, byKey, week, year, today);
      var r0 := UpsertAll(u, init, byKey, week, year, today).trends;
      WriteTrendFound(r0, last, byKey[last], today);
      forall k | k !in keys
        ensures Lookup(WriteTrend(r0, last, byKey[last], today), k) == Lookup(u.trends, k)
      {
        WriteTrendOthers(r0, last, byKey[last], today, k);
      }
    }
  }

  /** Upserting distinct keys writes each key's row from the row stored before the
      run. */
  lemma {:induction false} UpsertAllTrends(u: Upserted, keys: seq<string>, byKey: map<string, Agg>, week: nat, year: int, today: string)
    requires Covered(keys, byKey)
    requires Distinct(keys)
    requires TrendRows(u.trends)
    ensures var r := UpsertAll(u, keys, byKey, week, year, today).trends;
      forall k :: k in keys ==>
        (Lookup(r, k).Some? && Lookup(r, k).value == Written(Lookup(u.trends, k), Lookup(r, k).value.id, k, byKey[k], today))
    decreases |keys|
  {
    if keys != [] {
      var init := keys[..|keys| - 1];
      var last := keys[|keys| - 1];
      UpsertAllTrends(u, init, byKey, week, year, today);
      UpsertAllFrame(u, init, byKey, week, year, today);
      var r0 := UpsertAll(u, init, byKey, week, year, today).trends;
      assert last !in init;
      WriteTrendFound(r0, last, byKey[last], today);
      forall k | k in keys
        ensures var r := WriteTrend(r0, last, byKey[last], today);
          Lookup(r, k).Some? && Lookup(r, k).value == Written(Lookup(u.trends, k), Lookup(r, k).value.id, k, byKey[k], today)
      {
        if k != last {
          assert k in init;
          WriteTrendOthers(r0, last, byKey[last], today, k);
        }
      }
    }
  }

  function NotableFn(trends: seq<Trend>, byKey: map<string, Agg>): string -> Option<Notable> {
    (k: string) => if k in byKey then NotableOf(Lookup(trends, k), byKey[k]) else None
  }

  /** One key not among the upserted ones keeps its row. */
  lemma UpsertAllKeeps(u: Upserted, keys: seq<string>, byKey: map<string, Agg>, week: nat, year: int, today: string, k: string)
    requires Covered(keys, byKey)
    requires TrendRows(u.trends) && k !in keys
    ensures Lookup(UpsertAll(u, keys, byKey, week, year, today).trends, k) == Lookup(u.trends, k)
  {
    UpsertAllFrame(u, keys, byKey, week, year, today);
  }

  lemma FilterMapSnoc<T, U>(xs: seq<T>, f: T -> Option<U>)
    requires xs != []
    ensures Seqs.FilterMap(xs, f) == Seqs.FilterMap(xs[..|xs| - 1], f) + OptSeq(f(xs[|xs| - 1]))
  {
  }

  lemma UpsertAllSnoc(u: Upserted, keys: seq<string>, byKey: map<string, Agg>, week: nat, year: int, today: string)
    requires Covered(keys, byKey)
    requires keys != []
    ensures UpsertAll(u, keys, byKey, week, year, today)
      == UpsertKey(UpsertAll(u, keys[..|keys| - 1], byKey, week, year, today), keys[|keys| - 1], byKey[keys[|keys| - 1]], week, year, today)
  {
  }

  lemma UpsertKeyNotable(u: Upserted, key: string, a: Agg, week: nat, year: int, today: string)
    ensures UpsertKey(u, key, a, week, year, today).notable == u.notable + OptSeq(NotableOf(Lookup(u.trends, key), a))
  {
  }

  /** The notable entries are those of the keys in order, each judged against the
      trend stored before the run. */
  lemma {:induction false} UpsertAllNotable(u: Upserted, keys: seq<string>, byKey: map<string, Agg>, week: nat, year: int, today: string)
    requires Covered(keys, byKey)
    requires Distinct(keys)
    requires TrendRows(u.trends) && u.notable == []
    ensures UpsertAll(u, keys, byKey, week, year, today).notable == Seqs.FilterMap(keys, NotableFn(u.trends, byKey))
    decreases |keys|
  {
    if keys != [] {
      var init := keys[..|keys| - 1];
      var last := keys[|keys| - 1];
      var f := NotableFn(u.trends, byKey);
      var r0 := UpsertAll(u, init, byKey, week, year, today);
      UpsertAllNotable(u, init, byKey, week, year, today);
      assert last !in init;
      UpsertAllKeeps(u, init, byKey, week, year, today, last);
      FilterMapSnoc(keys, f);
      UpsertAllSnoc(u, keys, byKey, week, year, today);
      UpsertKeyNotable(r0, last, byKey[last], week, year, today);
      assert f(last) == NotableOf(Lookup(u.trends, last), byKey[last]);
    }
  }

  /** In rows numbered from 1 the id of a row is one more than its position. */
  lemma LookupId(rows: seq<Trend>, k: string)
    requires TrendRows(rows) && Lookup(rows, k).Some?
    ensures TrendIndex(rows, k).Some? && Lookup(rows, k).value.id == TrendIndex(rows, k).value + 1
  {
  }

  /** After the upsert of distinct keys, each key has exactly one snapshot for the
      week, holding this run's count, average and top signal. */
  lemma {:induction false} UpsertAllSnapshots(u: Upserted, keys: seq<string>, byKey: map<string, Agg>, week: nat, year: int,
                                              today: string, k: string, x: Snapshot)
    requires Covered(keys, byKey)
    requires Distinct(keys)
    requires TrendRows(u.trends) && k in keys
    ensures var r := UpsertAll(u, keys, byKey, week, year, today);
      && Lookup(r.trends, k).Some?
      && SnapshotOf(Lookup(r.trends, k).value.id, week, year, byKey[k]) in r.snapshots
      && (x in r.snapshots && SnapshotKey(x) == (Lookup(r.trends, k).value.id, week, year) ==>
            x == SnapshotOf(Lookup(r.trends, k).value.id, week, year, byKey[k]))
    decreases |keys|
  {
    var init := keys[..|keys| - 1];
    var last := keys[|keys| - 1];
    var r0 := UpsertAll(u, init, byKey, week, year, today);
    var r := UpsertAll(u, keys, byKey, week, year, today);
    UpsertAllSnoc(u, keys, byKey, week, year, today);
    UpsertAllFrame(u, init, byKey, week, year, today);
    WriteTrendFound(r0.trends, last, byKey[last], today);
    var idLast := Written(Lookup(r0.trends, last), |r0.trends| + 1, last, byKey[last], today).id;
    var sLast := SnapshotOf(idLast, week, year, byKey[last]);
    assert r.snapshots == ReplacedSnapshots(r0.snapshots, sLast);
    assert r.trends == WriteTrend(r0.trends, last, byKey[last], today);
    if k == last {
      ReplacedSnapshotsExact(r0.snapshots, sLast, x);
    } else {
      assert k in init;
      UpsertAllSnapshots(u, init, byKey, week, year, today, k, x);
      UpsertOtherSnapshot(r0, last, byKey, week, year, today, k, x);
    }
  }

  /** Writing the row and snapshot of `last` leaves the snapshot of another key `k`
      in place, and its week still has no other snapshot. */
  lemma UpsertOtherSnapshot(r0: Upserted, last: string, byKey: map<string, Agg>, week: nat, year: int,
                            today: string, k: string, x: Snapshot)
    requires TrendRows(r0.trends) && k != last && last in byKey && k in byKey
    requires Lookup(r0.trends, k).Some?
    requires SnapshotOf(Lookup(r0.trends, k).value.id, week, year, byKey[k]) in r0.snapshots
    requires x in r0.snapshots && SnapshotKey(x) == (Lookup(r0.trends, k).value.id, week, year) ==>
      x == SnapshotOf(Lookup(r0.trends, k).value.id, week, year, byKey[k])
    ensures var trends := WriteTrend(r0.trends, last, byKey[last], today);
      var idLast := Written(Lookup(r0.trends, last), |r0.trends| + 1, last, byKey[last], today).id;
      var snapshots := ReplacedSnapshots(r0.snapshots, SnapshotOf(idLast, week, year, byKey[last]));
      && Lookup(trends, k).Some?
      && SnapshotOf(Lookup(trends, k).value.id, week, year, byKey[k]) in snapshots
      && (x in snapshots && SnapshotKey(x) == (Lookup(trends, k).value.id, week, year) ==>
            x == SnapshotOf(Lookup(trends, k).value.id, week, year, byKey[k]))
  {
    var trends := WriteTrend(r0.trends, last, byKey[last], today);
    WriteTrendFound(r0.trends, last, byKey[last], today);
    WriteTrendOthers(r0.trends, last, byKey[last], today, k);
    var idLast := Written(Lookup(r0.trends, last), |r0.trends| + 1, last, byKey[last], today).id;
    var sLast := SnapshotOf(idLast, week, year, byKey[last]);
    var t := Lookup(r0.trends, k).value;
    var sk := SnapshotOf(t.id, week, year, byKey[k]);
    LookupId(trends, k);
    LookupId(trends, last);
    assert t.id != idLast;
    ReplacedSnapshotsExact(r0.snapshots, sLast, sk);
    ReplacedSnapshotsExact(r0.snapshots, sLast, x);
  }

  /** Snapshots of other weeks are kept as they were. */
  lemma {:induction false} UpsertAllOtherWeeks(u: Upserted, keys: seq<string>, byKey: map<string, Agg>, week: nat, year: int,
                                               today: string, x: Snapshot)
    requires Covered(keys, byKey)
    requires x.week != week || x.year != year
    ensures x in UpsertAll(u, keys, byKey, week, year, today).snapshots <==> x in u.snapshots
    decreases |keys|
  {
    if keys != [] {
      var init := keys[..|keys| - 1];
      var last := keys[|keys| - 1];
      var r0 := UpsertAll(u, init, byKey, week, year, today);
      UpsertAllSnoc(u, keys, byKey, week, year, today);
      UpsertAllOtherWeeks(u, init, byKey, week, year, today, x);
      var idLast := Written(Lookup(r0.trends, last), |r0.trends| + 1, last, byKey[last], today).id;
      ReplacedSnapshotsExact(r0.snapshots, SnapshotOf(idLast, week, year, byKey[last]), x);
    }
  }

  /** What the run leaves in the row of each upserted key: the count grows by this
      run's count (a new key starts at it), the last date is today, the average is
      this run's, the maximum never falls; a stored key keeps its id and first date
      and gets its change and momentum against the stored count, a new key is dated
      today on both ends with momentum "new". */
  lemma TrendAfterRun(u: Upserted, keys: seq<string>, byKey: map<string, Agg>, week: nat, year: int, today: string, k: string)
    requires Covered(keys, byKey)
    requires Distinct(keys)
    requires TrendRows(u.trends) && k in keys
    ensures var r := UpsertAll(u, keys, byKey, week, year, today).trends;
      var before := Lookup(u.trends, k);
      var a := byKey[k];
      && Lookup(r, k).Some?
      && var t := Lookup(r, k).value;
      && t.key == k
      && t.count == (if before.Some? then before.value.count else 0) + a.count
      && t.lastSeen == today && t.avgScore == Average(a.scores) && t.maxScore >= Top(a)
      && t.momentum == MomentumFor(before, a)
      && (before.Some? ==> && t.id == before.value.id && t.firstSeen == before.value.firstSeen
                           && t.maxScore >= before.value.maxScore && t.change == Change(a.count, before.value.count))
      && (before.None? ==> t.firstSeen == today && t.maxScore == Top(a) && t.momentum == Fresh && t.change == 0.0)
  {
    UpsertAllTrends(u, keys, byKey, week, year, today);
    var r := UpsertAll(u, keys, byKey, week, year, today).trends;
    match TrendIndex(r, k)
    case Some(i) =>
    case None =>
  }

  /** Every notable entry is new, a spike or rising, and a key has one exactly when
      its trend ends the run new, a spike or rising. */
  lemma NotableExact(u: Upserted, keys: seq<string>, byKey: map<string, Agg>, week: nat, year: int, today: string, n: Notable)
    requires Covered(keys, byKey)
    requires Distinct(keys)
    requires TrendRows(u.trends) && u.notable == []
    ensures var r := UpsertAll(u, keys, byKey, week, year, today);
      n in r.notable <==> exists i :: 0 <= i < |keys| && IsNotable(MomentumFor(Lookup(u.trends, keys[i]), byKey[keys[i]]))
                                        && NotableOf(Lookup(u.trends, keys[i]), byKey[keys[i]]) == Some(n)
    ensures n in UpsertAll(u, keys, byKey, week, year, today).notable ==> IsNotable(n.momentum)
  {
    var f := NotableFn(u.trends, byKey);
    UpsertAllNotable(u, keys, byKey, week, year, today);
    Seqs.FilterMapExact(keys, f, n);
  }

  /** What `update_trends` returns. */
  datatype TrendReport = TrendReport(trendsUpdated: nat, notable: seq<Notable>, period: Option<(nat, int)>)

  /** Contributions added to a dict one after the other. */
  function AddAll(g: Aggregation, es: seq<Emission>): Aggregation {
    if es == [] then g else Add(AddAll(g, es[..|es| - 1]), es[|es| - 1])
  }

  /** Aggregating more contributions continues from the dict of the earlier ones. */
  lemma {:induction false} AggregateConcat(xs: seq<Emission>, ys: seq<Emission>)
    ensures Aggregate(xs + ys) == AddAll(Aggregate(xs), ys)
    decreases |ys|
  {
    if ys == [] {
      assert xs + ys == xs;
    } else {
      var init := ys[..|ys| - 1];
      AggregateConcat(xs, init);
      assert (xs + ys)[..|xs + ys| - 1] == xs + init;
    }
  }

  lemma AllEmissionsSnoc(rows: seq<Row>, j: nat, links: map<nat, seq<BuMatch>>, names: map<string, string>, competitors: seq<string>)
    requires j < |rows|
    ensures AllEmissions(rows[..j + 1], links, names, competitors)
      == AllEmissions(rows[..j], links, names, competitors) + EmissionsOf(rows[j], BusOf(links, rows[j].id), names, competitors)
  {
    assert rows[..j + 1][..j] == rows[..j];
  }

  /** The inner loops of the aggregation: one signal's contributions added to the
      dict in order. */
  method AddEmissions(g: Aggregation, es: seq<Emission>) returns (r: Aggregation)
    ensures r == AddAll(g, es)
  {
    var keys := g.keys;
    var byKey := g.byKey;
    var m := 0;
    while m < |es|
      invariant m <= |es|
      invariant Aggregation(keys, byKey) == AddAll(g, es[..m])
    {
      var e := es[m];
      assert es[..m + 1][..m] == es[..m];
      if e.key in byKey {
        var a := byKey[e.key];
        byKey := byKey[e.key := Agg(e.kind, e.caption, a.count + 1, a.scores + [e.score], a.signalIds + [e.signalId])];
      } else {
        keys := keys + [e.key];
        byKey := byKey[e.key := Agg(e.kind, e.caption, 1, [e.score], [e.signalId])];
      }
      m := m + 1;
    }
    assert es[..m] == es;
    r := Aggregation(keys, byKey);
  }

  /** The aggregation loop of `update_trends`: every contribution of every row, in
      order, added to the dict. */
  method AggregateRows(rows: seq<Row>, links: map<nat, seq<BuMatch>>, names: map<string, string>,
                       competitors: seq<string>) returns (g: Aggregation)
    ensures g == Aggregate(AllEmissions(rows, links, names, competitors))
  {
    g := Aggregation([], map[]);
    var j := 0;
    while j < |rows|
      invariant j <= |rows|
      invariant g == Aggregate(AllEmissions(rows[..j], links, names, competitors))
    {
      var es := EmissionsOf(rows[j], BusOf(links, rows[j].id), names, competitors);
      AllEmissionsSnoc(rows, j, links, names, competitors);
      AggregateConcat(AllEmissions(rows[..j], links, names, competitors), es);
      g := AddEmissions(g, es);
      j := j + 1;
    }
    assert rows[..j] == rows;
  }

  /** The body of the upsert loop for one key: the trend row updated or inserted,
      the snapshot replaced, the notable entry returned. */
  method UpsertOne(trends: TrendTable, snapshots: SnapshotTable, key: string, a: Agg, week: nat, year: int, today: string)
    returns (entry: Option<Notable>)
    requires trends.Valid()
    modifies trends, snapshots
    ensures trends.Valid()
    ensures var u := UpsertKey(Upserted(old(trends.rows), old(snapshots.rows), []), key, a, week, year, today);
      trends.rows == u.trends && snapshots.rows == u.snapshots && OptSeq(entry) == u.notable
  {
    var trendId: nat;
    match TrendIndex(trends.rows, key) {
      case Some(x) =>
        var t := trends.rows[x];
        var momentum := MomentumOf(a.count, t.count);
        var change := Change(a.count, t.count);
        trends.Update(x, t.(lastSeen := today, count := t.count + a.count, change := change, avgScore := Average(a.scores),
                            maxScore := RealMax(t.maxScore, Top(a)), momentum := momentum));
        trendId := t.id;
        entry := if momentum == Spike || momentum == Rising then Some(Notable(a.caption, momentum, a.count, change)) else None;
      case None =>
        trendId := trends.Insert(Trend(0, key, a.kind, a.caption, today, today, a.count, 0.0, Average(a.scores), Top(a), Fresh));
        entry := Some(Notable(a.caption, Fresh, a.count, 0.0));
    }
    snapshots.Replace(Snapshot(trendId, week, year, a.count, Average(a.scores), TopSignal(a)));
  }

  lemma UpsertKeyNotableFrom(u: Upserted, key: string, a: Agg, week: nat, year: int, today: string)
    ensures UpsertKey(u, key, a, week, year, today)
      == var v := UpsertKey(u.(notable := []), key, a, week, year, today); v.(notable := u.notable + v.notable)
  {
  }

  /** The upsert loop's state after `i` keys: the tables and the notable list are
      those of upserting the first `i` keys from `start`. */
  ghost predicate Upserting(trends: TrendTable, snapshots: SnapshotTable, start: Upserted, keys: seq<string>,
                            byKey: map<string, Agg>, week: nat, year: int, today: string, i: int, notable: seq<Notable>)
    reads trends, snapshots
  {
    && 0 <= i <= |keys| && trends.Valid() && Covered(keys, byKey)
    && Upserted(trends.rows, snapshots.rows, notable) == UpsertAll(start, keys[..i], byKey, week, year, today)
  }

  /** One round of the upsert loop: the next key upserted. */
  method UpsertNext(trends: TrendTable, snapshots: SnapshotTable, ghost start: Upserted, keys: seq<string>,
                    byKey: map<string, Agg>, week: nat, year: int, today: string, i: nat, notable: seq<Notable>)
    returns (notable': seq<Notable>)
    requires i < |keys| && Upserting(trends, snapshots, start, keys, byKey, week, year, today, i, notable)
    modifies trends, snapshots
    ensures Upserting(trends, snapshots, start, keys, byKey, week, year, today, i + 1, notable')
  {
    ghost var before := Upserted(trends.rows, snapshots.rows, notable);
    assert keys[..i + 1][..i] == keys[..i];
    UpsertAllSnoc(start, keys[..i + 1], byKey, week, year, today);
    UpsertKeyNotableFrom(before, keys[i], byKey[keys[i]], week, year, today);
    var entry := UpsertOne(trends, snapshots, keys[i], byKey[keys[i]], week, year, today);
    notable' := notable + OptSeq(entry);
  }

  /** The upsert loop of `update_trends`. */
  method UpsertKeys(trends: TrendTable, snapshots: SnapshotTable, keys: seq<string>, byKey: map<string, Agg>,
                    week: nat, year: int, today: string) returns (updated: nat, notable: seq<Notable>)
    requires trends.Valid()
    requires Covered(keys, byKey)
    modifies trends, snapshots
    ensures trends.Valid()
    ensures updated == |keys|
    ensures Upserted(trends.rows, snapshots.rows, notable)
      == UpsertAll(Upserted(old(trends.rows), old(snapshots.rows), []), keys, byKey, week, year, today)
  {
    ghost var start := Upserted(trends.rows, snapshots.rows, []);
    notable := [];
    updated := 0;
    var i := 0;
    assert keys[..0] == [];
    while i < |keys|
      invariant updated == i
      invariant Upserting(trends, snapshots, start, keys, byKey, week, year, today, i, notable)
    {
      notable := UpsertNext(trends, snapshots, start, keys, byKey, week, year, today, i, notable);
      updated := updated + 1;
      i := i + 1;
    }
    assert keys[..i] == keys;
  }

  /** What `update_trends` leaves behind: with no scored signal to aggregate, an
      empty report and both tables as they were; otherwise every aggregated key, each
      covered and none twice, upserted in order into the trends and the snapshots
      for the week, and the report counting the keys and listing the notable ones. */
  ghost predicate Updated(signals: seq<Signal>, byId: map<nat, Analysis>, links: map<nat, seq<BuMatch>>, names: map<string, string>,
                          week: nat, year: int, today: string, trends0: seq<Trend>, snapshots0: seq<Snapshot>,
                          report: TrendReport, trends: seq<Trend>, snapshots: seq<Snapshot>)
  {
    var rows := Query(signals, byId);
    if rows == [] then report == TrendReport(0, [], None) && trends == trends0 && snapshots == snapshots0
    else
      var g := Aggregate(AllEmissions(rows, links, names, Competitors));
      && Distinct(g.keys) && Covered(g.keys, g.byKey)
      && var u := UpsertAll(Upserted(trends0, snapshots0, []), g.keys, g.byKey, week, year, today);
      && report == TrendReport(|g.keys|, u.notable, Some((week, year)))
      && trends == u.trends && snapshots == u.snapshots
  }

  /** `update_trends`: aggregates the query's rows by key, then upserts each key and
      its weekly snapshot. The week, year and date are the clock's. */
  method UpdateTrends(store: Store, week: nat, year: int, today: string, names: map<string, string>) returns (report: TrendReport)
    requires store.Valid()
    modifies store.trends, store.snapshots
    ensures store.Valid()
    ensures Updated(store.signals.rows, store.analyses.byId, store.buLinks.links, names, week, year, today,
                    old(store.trends.rows), old(store.snapshots.rows), report, store.trends.rows, store.snapshots.rows)
  {
    var rows := Query(store.signals.rows, store.analyses.byId);
    if rows == [] {
      return TrendReport(0, [], None);
    }
    var g := AggregateRows(rows, store.buLinks.links, names, Competitors);
    AggregateCovered(AllEmissions(rows, store.buLinks.links, names, Competitors));
    var updated, notable := UpsertKeys(store.trends, store.snapshots, g.keys, g.byKey, week, year, today);
    report := TrendReport(updated, notable, Some((week, year)));
  }

  // ---------------------------------------------------------------- get_trend_summary

  /** The `CASE momentum` rank of the summary's order. */
  function Rank(m: Momentum): nat {
    match m
    case Spike => 1
    case Rising => 2
    case Fresh => 3
    case Stable => 4
    case Declining => 5
  }

  /** `n / (n + 1)`: below one, and growing with `n`. */
  function Fraction(n: nat): real {
    n as real / (n as real + 1.0)
  }

  lemma SignOfFactor(d: real, c: real)
    requires c > 0.0
    ensures d * c > 0.0 ==> d > 0.0
    ensures d * c >= 0.0 ==> d >= 0.0
  {
  }

  lemma FractionOrder(a: nat, b: nat)
    ensures 0.0 <= Fraction(a) < 1.0
    ensures a < b <==> Fraction(a) < Fraction(b)
  {
    var x := a as real;
    var y := b as real;
    var fa := Fraction(a);
    var fb := Fraction(b);
    assert fa * (x + 1.0) == x;
    assert fb * (y + 1.0) == y;
    var c := (x + 1.0) * (y + 1.0);
    assert (fb - fa) * c == fb * (y + 1.0) * (x + 1.0) - fa * (x + 1.0) * (y + 1.0);
    assert (fb - fa) * c == y - x;
    SignOfFactor(fb - fa, c);
    SignOfFactor(fa - fb, c);
    SignOfFactor(fa, x + 1.0);
    SignOfFactor(1.0 - fa, x + 1.0);
  }

  /** A single descending key for `ORDER BY rank, occurrence_count DESC`: the rank
      decides, and within a rank the count, through a fraction below one. */
  function SummaryKey(t: Trend): real {
    (6 - Rank(t.momentum)) as real + Fraction(t.count)
  }

  /** The key orders as the `ORDER BY` does: by rank, then by count descending. */
  lemma SummaryKeyOrder(t: Trend, v: Trend)
    requires SummaryKey(t) >= SummaryKey(v)
    ensures Rank(t.momentum) < Rank(v.momentum) || (Rank(t.momentum) == Rank(v.momentum) && t.count >= v.count)
  {
    FractionOrder(t.count, v.count);
    FractionOrder(v.count, t.count);
  }

  /** SQLite's `LIMIT`: a negative limit keeps every row. */
  function Limit<T>(s: seq<T>, limit: int): (r: seq<T>)
    ensures limit < 0 ==> r == s
    ensures limit >= 0 ==> |r| == (if limit < |s| then limit else |s|)
    ensures r == s[..|r|]
  {
    if limit < 0 then s else Prefix(s, limit)
  }

  /** What `get_trend_summary` returns. */
  datatype TrendSummary = TrendSummary(trends: seq<Trend>, rising: seq<Trend>, newTrends: seq<Trend>, declining: seq<Trend>)

  function RisingOrSpike(t: Trend): bool {
    t.momentum == Rising || t.momentum == Spike
  }

  function IsFresh(t: Trend): bool {
    t.momentum == Fresh
  }

  function IsDeclining(t: Trend): bool {
    t.momentum == Declining
  }

  /** The trends in summary order. */
  function Ranked(rows: seq<Trend>): seq<Trend> {
    Sorting.SortDesc(rows, SummaryKey)
  }

  /** `get_trend_summary` */
  function Summary(rows: seq<Trend>, limit: int): TrendSummary {
    var trends := Limit(Ranked(rows), limit);
    TrendSummary(trends, Seqs.Filter(trends, RisingOrSpike), Seqs.Filter(trends, IsFresh), Seqs.Filter(trends, IsDeclining))
  }

  /** The summary lists stored trends by rank and then by falling count, at most
      `limit` of them (all for a negative limit), and no trend left out ranks ahead
      of one listed. */
  lemma SummaryOrder(rows: seq<Trend>, limit: int)
    ensures var r := Summary(rows, limit).trends;
      && (forall i, j :: 0 <= i < j < |r| ==>
            Rank(r[i].momentum) < Rank(r[j].momentum) || (Rank(r[i].momentum) == Rank(r[j].momentum) && r[i].count >= r[j].count))
      && (forall t :: t in r ==> t in rows)
      && (limit >= 0 ==> |r| == if limit < |rows| then limit else |rows|)
      && (limit < 0 ==> |r| == |rows|)
      && (forall i, j :: 0 <= i < |r| <= j < |rows| ==>
            Rank(r[i].momentum) < Rank(Ranked(rows)[j].momentum)
            || (Rank(r[i].momentum) == Rank(Ranked(rows)[j].momentum) && r[i].count >= Ranked(rows)[j].count))
  {
    var sorted := Ranked(rows);
    var r := Summary(rows, limit).trends;
    Sorting.SortDescSorted(rows, SummaryKey);
    assert r == sorted[..|r|];
    forall i, j | 0 <= i < j < |r|
      ensures Rank(r[i].momentum) < Rank(r[j].momentum) || (Rank(r[i].momentum) == Rank(r[j].momentum) && r[i].count >= r[j].count)
    {
      SummaryKeyOrder(r[i], r[j]);
    }
    forall t | t in r
      ensures t in rows
    {
      assert t in multiset(sorted);
    }
    forall i, j | 0 <= i < |r| <= j < |rows|
      ensures Rank(r[i].momentum) < Rank(sorted[j].momentum)
              || (Rank(r[i].momentum) == Rank(sorted[j].momentum) && r[i].count >= sorted[j].count)
    {
      SummaryKeyOrder(sorted[i], sorted[j]);
    }
  }

  /** "rising" holds exactly the listed rising and spike trends, "new" the new ones
      and "declining" the declining ones. */
  lemma SummaryPartitions(rows: seq<Trend>, limit: int, t: Trend)
    ensures var s := Summary(rows, limit);
      && (t in s.rising <==> t in s.trends && (t.momentum == Rising || t.momentum == Spike))
      && (t in s.newTrends <==> t in s.trends && t.momentum == Fresh)
      && (t in s.declining <==> t in s.trends && t.momentum == Declining)
  {
    var trends := Summary(rows, limit).trends;
    Seqs.FilterExact(trends, RisingOrSpike, t);
    Seqs.FilterExact(trends, IsFresh, t);
    Seqs.FilterExact(trends, IsDeclining, t);
  }

  // ---------------------------------------------------------------- get_trend_history

  /** A single descending key for `ORDER BY year DESC, week_number DESC`. */
  function WeekKey(s: Snapshot): real {
    s.year as real + Fraction(s.week)
  }

  /** A snapshot is earlier than or in the same week as another. */
  predicate NotLater(s: Snapshot, t: Snapshot) {
    s.year < t.year || (s.year == t.year && s.week <= t.week)
  }

  lemma WeekKeyOrder(s: Snapshot, t: Snapshot)
    requires WeekKey(s) <= WeekKey(t)
    ensures NotLater(s, t)
  {
    FractionOrder(s.week, t.week);
    FractionOrder(t.week, s.week);
  }

  function Reversed<T>(s: seq<T>): (r: seq<T>)
    ensures |r| == |s|
  {
    seq(|s|, i requires 0 <= i < |s| => s[|s| - 1 - i])
  }

  function OfTrend(id: nat): Snapshot -> bool {
    (s: Snapshot) => s.trendId == id
  }

  /** The snapshots of the trend with the key, latest first. */
  function Latest(trends: seq<Trend>, snapshots: seq<Snapshot>, key: string): seq<Snapshot> {
    match TrendIndex(trends, key)
    case None => []
    case Some(i) => Sorting.SortDesc(Seqs.Filter(snapshots, OfTrend(trends[i].id)), WeekKey)
  }

  /** `get_trend_history`: the latest `weeks` snapshots of the key, oldest first. */
  function History(trends: seq<Trend>, snapshots: seq<Snapshot>, key: string, weeks: int): seq<Snapshot> {
    Reversed(Limit(Latest(trends, snapshots, key), weeks))
  }

  /** Reversing a limited prefix of a latest-first list gives it oldest first, and
      what the limit drops is no later than what it keeps. */
  lemma ReversedPrefixChronological(all: seq<Snapshot>, weeks: int)
    requires Sorting.SortedDesc(all, WeekKey)
    ensures var h := Reversed(Limit(all, weeks));
      && (forall i, j :: 0 <= i < j < |h| ==> NotLater(h[i], h[j]))
      && (forall i, j :: 0 <= i < |h| && |h| <= j < |all| ==> NotLater(all[j], h[i]))
  {
    var kept := Limit(all, weeks);
    var h := Reversed(kept);
    forall i, j | 0 <= i < j < |h|
      ensures NotLater(h[i], h[j])
    {
      assert h[i] == all[|kept| - 1 - i] && h[j] == all[|kept| - 1 - j];
      WeekKeyOrder(h[i], h[j]);
    }
    forall i, j | 0 <= i < |h| && |h| <= j < |all|
      ensures NotLater(all[j], h[i])
    {
      assert h[i] == all[|kept| - 1 - i];
      WeekKeyOrder(all[j], h[i]);
    }
  }

  /** Everything in the reversed prefix comes from the list. */
  lemma ReversedPrefixMembers<T>(all: seq<T>, weeks: int, x: T)
    requires x in Reversed(Limit(all, weeks))
    ensures x in all
  {
    var kept := Limit(all, weeks);
    var i :| 0 <= i < |kept| && Reversed(kept)[i] == x;
    assert x == all[|kept| - 1 - i];
  }

  /** The history holds snapshots of the key's trend only, in chronological order,
      as many as `weeks` allows, and every snapshot of the trend it leaves out is no
      later than every one it holds. */
  lemma HistoryOrder(trends: seq<Trend>, snapshots: seq<Snapshot>, key: string, weeks: int)
    ensures var h := History(trends, snapshots, key, weeks);
      var all := Latest(trends, snapshots, key);
      && (forall i, j :: 0 <= i < j < |h| ==> NotLater(h[i], h[j]))
      && (forall s :: s in h ==> s in snapshots && TrendIndex(trends, key).Some? && s.trendId == trends[TrendIndex(trends, key).value].id)
      && (weeks >= 0 ==> |h| == if weeks < |all| then weeks else |all|)
      && (forall i, j :: 0 <= i < |h| && |h| <= j < |all| ==> NotLater(all[j], h[i]))
  {
    var all := Latest(trends, snapshots, key);
    var h := History(trends, snapshots, key, weeks);
    match TrendIndex(trends, key)
    case None =>
    case Some(x) =>
      var mine := Seqs.Filter(snapshots, OfTrend(trends[x].id));
      Sorting.SortDescSorted(mine, WeekKey);
      ReversedPrefixChronological(all, weeks);
      forall s | s in h
        ensures s in snapshots && s.trendId == trends[x].id
      {
        ReversedPrefixMembers(all, weeks, s);
        assert s in multiset(all);
        Seqs.FilterExact(snapshots, OfTrend(trends[x].id), s);
      }
  }
}
