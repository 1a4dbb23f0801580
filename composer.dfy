/** The digest composer: groups the scored signals by business unit, ranks them,
    picks the top of the week and builds the subject line and the default file
    name of the rendered digest. The template rendering itself is not modelled;
    the ISO week, the year and the formatted date are parameters. */
module Composer {
  import opened Model
  import opened Text
  import Sorting
  import Seqs

  /** The score signals are ranked by. */
  function Composite(s: ScoredSignal): real {
    s.analysis.composite
  }

  // ---------------------------------------------------------------- grouping

  /** One (business unit, signal) pair per BU match of the signal, in match order. */
  function MatchPairs(s: ScoredSignal): (r: seq<(string, ScoredSignal)>)
    ensures |r| == |s.analysis.buMatches|
  {
    seq(|s.analysis.buMatches|, i requires 0 <= i < |s.analysis.buMatches| => (s.analysis.buMatches[i].buId, s))
  }

  /** The pairs in the order the grouping loop visits them. */
  function Pairs(signals: seq<ScoredSignal>): seq<(string, ScoredSignal)>
    decreases |signals|
  {
    if signals == [] then [] else Pairs(signals[..|signals| - 1]) + MatchPairs(signals[|signals| - 1])
  }

  predicate MatchesBu(s: ScoredSignal, bu: string) {
    exists m :: m in s.analysis.buMatches && m.buId == bu
  }

  lemma MatchPairsExact(s: ScoredSignal, bu: string, x: ScoredSignal)
    ensures (bu, x) in MatchPairs(s) <==> x == s && MatchesBu(s, bu)
  {
    var ps := MatchPairs(s);
    var ms := s.analysis.buMatches;
    if (bu, x) in ps {
      var i :| 0 <= i < |ps| && ps[i] == (bu, x);
      assert ms[i] in ms;
    }
    if x == s && MatchesBu(s, bu) {
      var m :| m in ms && m.buId == bu;
      var i :| 0 <= i < |ms| && ms[i] == m;
      assert ps[i] == (bu, x);
    }
  }

  /** A pair is visited exactly when its signal is listed and matched to the unit. */
  lemma {:induction false} PairsExact(signals: seq<ScoredSignal>, bu: string, x: ScoredSignal)
    ensures (bu, x) in Pairs(signals) <==> x in signals && MatchesBu(x, bu)
    decreases |signals|
  {
    if signals != [] {
      var init := signals[..|signals| - 1];
      var last := signals[|signals| - 1];
      PairsExact(init, bu, x);
      MatchPairsExact(last, bu, x);
      assert signals == init + [last];
    }
  }

  /** The units seen so far, in first-appearance order, and the signals of each. */
  datatype Groups = Groups(ids: seq<string>, members: map<string, seq<ScoredSignal>>)

  /** `bu_signals[bu_id].append(signal)`, opening the list on first sight. */
  function Place(g: Groups, p: (string, ScoredSignal)): Groups {
    if p.0 in g.members then Groups(g.ids, g.members[p.0 := g.members[p.0] + [p.1]])
    else Groups(g.ids + [p.0], g.members[p.0 := [p.1]])
  }

  function Group(ps: seq<(string, ScoredSignal)>): Groups
    decreases |ps|
  {
    if ps == [] then Groups([], map[]) else Place(Group(ps[..|ps| - 1]), ps[|ps| - 1])
  }

  predicate Distinct(ids: seq<string>) {
    forall i, j :: 0 <= i < j < |ids| ==> ids[i] != ids[j]
  }

  /** Every listed unit has a list, and nothing else has one. */
  ghost predicate Covered(ids: seq<string>, members: map<string, seq<ScoredSignal>>) {
    forall b :: b in members <==> b in ids
  }

  /** The signals paired with `bu`, in visiting order: the reference definition of
      a unit's list. */
  function Members(ps: seq<(string, ScoredSignal)>, bu: string): seq<ScoredSignal> {
    Seqs.FilterMap(ps, (p: (string, ScoredSignal)) => if p.0 == bu then Some(p.1) else None)
  }

  /** Index of the first pair of `bu`, or |ps|. */
  function FirstIndex(ps: seq<(string, ScoredSignal)>, bu: string): (k: nat)
    ensures k <= |ps|
    ensures k < |ps| ==> ps[k].0 == bu
    ensures forall i :: 0 <= i < k ==> ps[i].0 != bu
  {
    if ps == [] then 0 else if ps[0].0 == bu then 0 else 1 + FirstIndex(ps[1..], bu)
  }

  lemma FirstIndexPrefix(ps: seq<(string, ScoredSignal)>, n: nat, bu: string)
    requires n <= |ps| && FirstIndex(ps[..n], bu) < n
    ensures FirstIndex(ps, bu) == FirstIndex(ps[..n], bu)
  {
    var k := FirstIndex(ps[..n], bu);
    var m := FirstIndex(ps, bu);
    assert ps[..n][k] == ps[k];
    assert m <= k;
    assert ps[..n][m] == ps[m];
  }

  /** The ids are distinct, listed exactly when some pair names them, and each has
      a list. */
  lemma {:induction false} GroupKeys(ps: seq<(string, ScoredSignal)>)
    ensures Distinct(Group(ps).ids)
    ensures Covered(Group(ps).ids, Group(ps).members)
    ensures forall b :: b in Group(ps).ids <==> FirstIndex(ps, b) < |ps|
    decreases |ps|
  {
    if ps != [] {
      var init := ps[..|ps| - 1];
      GroupKeys(init);
      forall b
        ensures b in Group(ps).ids <==> FirstIndex(ps, b) < |ps|
      {
        if FirstIndex(init, b) < |init| {
          FirstIndexPrefix(ps, |init|, b);
        } else {
          forall i | 0 <= i < |init|
            ensures ps[i].0 != b
          {
            assert init[i] == ps[i];
          }
        }
      }
    }
  }

  /** Every unit's list is its reference list. */
  lemma {:induction false} GroupMembers(ps: seq<(string, ScoredSignal)>, bu: string)
    requires bu in Group(ps).members
    ensures Group(ps).members[bu] == Members(ps, bu)
    decreases |ps|
  {
    var init := ps[..|ps| - 1];
    var f := (p: (string, ScoredSignal)) => if p.0 == bu then Some(p.1) else None;
    assert Members(ps, bu) == Members(init, bu) + (if ps[|ps| - 1].0 == bu then [ps[|ps| - 1].1] else []);
    GroupKeys(init);
    if bu in Group(init).members {
      GroupMembers(init, bu);
    } else {
      assert FirstIndex(init, bu) == |init|;
      NoneMembers(init, bu);
    }
  }

  lemma {:induction false} NoneMembers(ps: seq<(string, ScoredSignal)>, bu: string)
    requires forall i :: 0 <= i < |ps| ==> ps[i].0 != bu
    ensures Members(ps, bu) == []
    decreases |ps|
  {
    if ps != [] {
      NoneMembers(ps[..|ps| - 1], bu);
    }
  }

  /** The ids come in the order of their first pair. */
  lemma {:induction false} GroupOrder(ps: seq<(string, ScoredSignal)>)
    ensures forall i, j :: 0 <= i < j < |Group(ps).ids| ==>
      FirstIndex(ps, Group(ps).ids[i]) < FirstIndex(ps, Group(ps).ids[j])
    decreases |ps|
  {
    if ps != [] {
      var init := ps[..|ps| - 1];
      GroupOrder(init);
      GroupKeys(init);
      var ids := Group(ps).ids;
      var before := Group(init).ids;
      forall i, j | 0 <= i < j < |ids|
        ensures FirstIndex(ps, ids[i]) < FirstIndex(ps, ids[j])
      {
        assert ids[i] == before[i];
        FirstIndexPrefix(ps, |init|, ids[i]);
        if j < |before| {
          assert ids[j] == before[j];
          FirstIndexPrefix(ps, |init|, ids[j]);
        } else {
          assert ids[j] == ps[|ps| - 1].0 && ids[j] !in before;
          assert FirstIndex(init, ids[j]) == |init|;
          forall t | 0 <= t < |init|
            ensures ps[t].0 != ids[j]
          {
            assert init[t] == ps[t];
          }
        }
      }
    }
  }

  /** `bu_signals` after the grouping loop: the units are the matched ones, each
      once, and each has its list. */
  lemma GroupingUnits(signals: seq<ScoredSignal>, bu: string)
    ensures var g := Group(Pairs(signals));
      && Distinct(g.ids)
      && Covered(g.ids, g.members)
      && (bu in g.ids <==> exists s :: s in signals && MatchesBu(s, bu))
  {
    var ps := Pairs(signals);
    GroupKeys(ps);
    if bu in Group(ps).ids {
      var k := FirstIndex(ps, bu);
      PairsExact(signals, bu, ps[k].1);
      assert ps[k] in ps;
    }
    if exists s :: s in signals && MatchesBu(s, bu) {
      var s :| s in signals && MatchesBu(s, bu);
      PairsExact(signals, bu, s);
      var i :| 0 <= i < |ps| && ps[i] == (bu, s);
      assert FirstIndex(ps, bu) <= i;
    }
  }

  /** A unit's list holds a signal exactly when the signal is listed and matched to
      the unit, once per such match, in input order. */
  lemma GroupingMembers(signals: seq<ScoredSignal>, bu: string, x: ScoredSignal)
    requires bu in Group(Pairs(signals)).ids
    ensures var g := Group(Pairs(signals));
      && bu in g.members
      && g.members[bu] == Members(Pairs(signals), bu)
      && (x in g.members[bu] <==> x in signals && MatchesBu(x, bu))
  {
    var ps := Pairs(signals);
    var g := Group(ps);
    GroupKeys(ps);
    GroupMembers(ps, bu);
    var f := (p: (string, ScoredSignal)) => if p.0 == bu then Some(p.1) else None;
    Seqs.FilterMapExact(ps, f, x);
    PairsExact(signals, bu, x);
    if (bu, x) in ps {
      var i :| 0 <= i < |ps| && ps[i] == (bu, x);
      assert f(ps[i]) == Some(x);
    }
    if x in g.members[bu] {
      var i :| 0 <= i < |ps| && f(ps[i]) == Some(x);
      assert ps[i] == (bu, x);
    }
  }

  // ---------------------------------------------------------------- sections

  const DefaultColor := "#2E75B6"

  /** The catalogue entry for an id; the dict built from the catalogue keeps the
      last entry of each id. */
  function Lookup(units: seq<BusinessUnit>, id: string): (r: Option<BusinessUnit>)
    ensures r.Some? ==> r.value in units && r.value.id == id
    ensures r.None? <==> forall u :: u in units ==> u.id != id
    decreases |units|
  {
    if units == [] then None
    else if units[|units| - 1].id == id then Some(units[|units| - 1])
    else
      assert forall u :: u in units ==> u in units[..|units| - 1] || u == units[|units| - 1];
      Lookup(units[..|units| - 1], id)
  }

  /** A business-unit section of the digest. */
  datatype Section = Section(buId: string, buName: string, buColor: string, signals: seq<ScoredSignal>)

  /** The section of a unit: its catalogue name and colour, or the id and the
      default colour, and its signals ranked by composite score. */
  function SectionOf(units: seq<BusinessUnit>, id: string, members: seq<ScoredSignal>): (s: Section)
    ensures s.buId == id
    ensures Lookup(units, id).None? ==> s.buName == id && s.buColor == DefaultColor
    ensures Lookup(units, id).Some? ==> s.buName == Lookup(units, id).value.name
    ensures Sorting.SortedDesc(s.signals, Composite)
    ensures multiset(s.signals) == multiset(members)
  {
    Sorting.SortDescSorted(members, Composite);
    var ranked := Sorting.SortDesc(members, Composite);
    match Lookup(units, id)
    case None => Section(id, id, DefaultColor, ranked)
    case Some(u) => Section(id, u.name, if u.color.Some? then u.color.value else DefaultColor, ranked)
  }

  function Sections(units: seq<BusinessUnit>, g: Groups): (r: seq<Section>)
    requires Covered(g.ids, g.members)
    ensures |r| == |g.ids|
  {
    seq(|g.ids|, i requires 0 <= i < |g.ids| => SectionOf(units, g.ids[i], g.members[g.ids[i]]))
  }

  // ---------------------------------------------------------------- context

  /** The template context the composer builds. */
  datatype DigestContext = DigestContext(
    subject: string,
    week: nat,
    year: int,
    dateRange: string,
    totalSignals: nat,
    topSignals: seq<ScoredSignal>,
    signalOfWeek: Option<ScoredSignal>,
    sections: seq<Section>)

  function Ranked(signals: seq<ScoredSignal>): seq<ScoredSignal> {
    Sorting.SortDesc(signals, Composite)
  }

  function SubjectPrefix(week: nat): string {
    "VPG Intel [Week " + NatToString(week) + "]: "
  }

  function Subject(week: nat, top: seq<ScoredSignal>, total: nat): string {
    var headline := if top != [] then top[0].analysis.headline else "Industry Update";
    var remaining := if total >= 1 then total - 1 else 0;
    SubjectPrefix(week) + headline + (if remaining > 0 then " + " + NatToString(remaining) + " more signals" else "")
  }

  function Context(signals: seq<ScoredSignal>, units: seq<BusinessUnit>, week: nat, year: int, dateRange: string): DigestContext {
    var ranked := Ranked(signals);
    var top := Prefix(ranked, 5);
    var g := Group(Pairs(signals));
    GroupKeys(Pairs(signals));
    DigestContext(Subject(week, top, |signals|), week, year, dateRange, |signals|, top,
                  if ranked != [] then Some(ranked[0]) else None, Sections(units, g))
  }

  /** The top signals are the first five of the overall ranking: descending, taken
      from the signals, and no signal left out outranks one kept. */
  lemma TopSignals(signals: seq<ScoredSignal>, units: seq<BusinessUnit>, week: nat, year: int, dateRange: string)
    ensures var c := Context(signals, units, week, year, dateRange);
      && c.totalSignals == |signals|
      && |c.topSignals| == (if |signals| < 5 then |signals| else 5)
      && Sorting.SortedDesc(c.topSignals, Composite)
      && (forall s :: s in c.topSignals ==> s in signals)
      && (forall i, j :: 0 <= i < |c.topSignals| <= j < |signals| ==>
            Composite(c.topSignals[i]) >= Composite(Ranked(signals)[j]))
  {
    var ranked := Ranked(signals);
    var top := Prefix(ranked, 5);
    Sorting.SortDescSorted(signals, Composite);
    Sorting.PrefixSorted(ranked, |top|, Composite);
    Sorting.PrefixDominates(ranked, |top|, Composite);
    forall s | s in top
      ensures s in signals
    {
      assert s in multiset(ranked);
    }
  }

  /** The signal of the week is absent exactly when there are no signals; otherwise
      it heads the top signals and no signal has a higher composite score. */
  lemma SignalOfWeek(signals: seq<ScoredSignal>, units: seq<BusinessUnit>, week: nat, year: int, dateRange: string)
    ensures var c := Context(signals, units, week, year, dateRange);
      && (c.signalOfWeek.None? <==> signals == [])
      && (c.signalOfWeek.Some? ==>
            && c.topSignals != [] && c.signalOfWeek.value == c.topSignals[0]
            && c.signalOfWeek.value in signals
            && forall s :: s in signals ==> Composite(s) <= Composite(c.signalOfWeek.value))
  {
    var ranked := Ranked(signals);
    Sorting.SortDescSorted(signals, Composite);
    if ranked != [] {
      assert ranked[0] in multiset(ranked);
      forall s | s in signals
        ensures Composite(s) <= Composite(ranked[0])
      {
        assert s in multiset(ranked);
        var j :| 0 <= j < |ranked| && ranked[j] == s;
        if j > 0 {
          assert Composite(ranked[0]) >= Composite(ranked[j]);
        }
      }
    }
  }

  /** The subject is the prefix with the week, the headline of the signal of the
      week (or "Industry Update" without one), and the count of the other signals
      exactly when there are any. */
  lemma SubjectLine(signals: seq<ScoredSignal>, units: seq<BusinessUnit>, week: nat, year: int, dateRange: string)
    ensures var c := Context(signals, units, week, year, dateRange);
      && StartsWith(c.subject, SubjectPrefix(week))
      && c.subject == SubjectPrefix(week)
                      + (if c.signalOfWeek.Some? then c.signalOfWeek.value.analysis.headline else "Industry Update")
                      + (if |signals| > 1 then " + " + NatToString(|signals| - 1) + " more signals" else "")
  {
    var ranked := Ranked(signals);
    var top := Prefix(ranked, 5);
    assert top != [] ==> top[0] == ranked[0];
    var headline := if top != [] then top[0].analysis.headline else "Industry Update";
    var tail := if |signals| > 1 then " + " + NatToString(|signals| - 1) + " more signals" else "";
    AppendAssoc(SubjectPrefix(week), headline, tail);
    StartsWithConcat(SubjectPrefix(week), headline + tail);
  }

  /** The sections are those of the matched units, each once, in first-appearance
      order; a section holds every listed signal matched to its unit, ranked by
      composite score, named and coloured from the catalogue or by default. */
  lemma SectionsExact(signals: seq<ScoredSignal>, units: seq<BusinessUnit>, week: nat, year: int, dateRange: string,
                      bu: string, x: ScoredSignal)
    ensures var c := Context(signals, units, week, year, dateRange);
      && (forall i, j :: 0 <= i < j < |c.sections| ==> c.sections[i].buId != c.sections[j].buId)
      && ((exists i :: 0 <= i < |c.sections| && c.sections[i].buId == bu) <==> exists s :: s in signals && MatchesBu(s, bu))
      && (forall i :: 0 <= i < |c.sections| && c.sections[i].buId == bu ==>
            && (x in c.sections[i].signals <==> x in signals && MatchesBu(x, bu))
            && Sorting.SortedDesc(c.sections[i].signals, Composite)
            && multiset(c.sections[i].signals) == multiset(Members(Pairs(signals), bu)))
  {
    var c := Context(signals, units, week, year, dateRange);
    var g := Group(Pairs(signals));
    GroupingUnits(signals, bu);
    if bu in g.ids {
      GroupingMembers(signals, bu, x);
    }
    forall i, j | 0 <= i < j < |c.sections|
      ensures c.sections[i].buId != c.sections[j].buId
    {
      assert c.sections[i].buId == g.ids[i] && c.sections[j].buId == g.ids[j];
    }
    if bu in g.ids {
      var k :| 0 <= k < |g.ids| && g.ids[k] == bu;
      assert c.sections[k].buId == bu;
    }
    forall i | 0 <= i < |c.sections| && c.sections[i].buId == bu
      ensures x in c.sections[i].signals <==> x in g.members[bu]
    {
      assert g.ids[i] == bu;
      assert multiset(c.sections[i].signals) == multiset(g.members[bu]);
      assert x in c.sections[i].signals <==> x in multiset(c.sections[i].signals);
    }
  }

  /** The sections appear in the order their units are first matched. */
  lemma SectionsOrder(signals: seq<ScoredSignal>, units: seq<BusinessUnit>, week: nat, year: int, dateRange: string)
    ensures var c := Context(signals, units, week, year, dateRange);
      forall i, j :: 0 <= i < j < |c.sections| ==>
        FirstIndex(Pairs(signals), c.sections[i].buId) < FirstIndex(Pairs(signals), c.sections[j].buId)
  {
    var c := Context(signals, units, week, year, dateRange);
    var g := Group(Pairs(signals));
    GroupOrder(Pairs(signals));
    forall i, j | 0 <= i < j < |c.sections|
      ensures FirstIndex(Pairs(signals), c.sections[i].buId) < FirstIndex(Pairs(signals), c.sections[j].buId)
    {
      assert c.sections[i].buId == g.ids[i] && c.sections[j].buId == g.ids[j];
    }
  }

  // ---------------------------------------------------------------- the loops

  /** The inner loop: appends the signal to the list of each unit it matches. */
  method PlaceSignal(g0: Groups, s: ScoredSignal) returns (g: Groups)
    ensures g == GroupFrom(g0, MatchPairs(s))
  {
    g := g0;
    var ms := s.analysis.buMatches;
    var k := 0;
    while k < |ms|
      invariant k <= |ms|
      invariant g == GroupFrom(g0, MatchPairs(s)[..k])
    {
      assert MatchPairs(s)[..k + 1] == MatchPairs(s)[..k] + [(ms[k].buId, s)];
      GroupFromSnoc(g0, MatchPairs(s)[..k], (ms[k].buId, s));
      var bu := ms[k].buId;
      if bu in g.members {
        g := Groups(g.ids, g.members[bu := g.members[bu] + [s]]);
      } else {
        g := Groups(g.ids + [bu], g.members[bu := [s]]);
      }
      k := k + 1;
    }
    assert MatchPairs(s)[..k] == MatchPairs(s);
  }

  /** Grouping continued from `g` over more pairs. */
  function GroupFrom(g: Groups, ps: seq<(string, ScoredSignal)>): Groups
    decreases |ps|
  {
    if ps == [] then g else Place(GroupFrom(g, ps[..|ps| - 1]), ps[|ps| - 1])
  }

  lemma GroupFromSnoc(g: Groups, ps: seq<(string, ScoredSignal)>, p: (string, ScoredSignal))
    ensures GroupFrom(g, ps + [p]) == Place(GroupFrom(g, ps), p)
  {
    assert (ps + [p])[..|ps|] == ps;
  }

  lemma {:induction false} GroupFromConcat(ps: seq<(string, ScoredSignal)>, qs: seq<(string, ScoredSignal)>)
    ensures GroupFrom(Group(ps), qs) == Group(ps + qs)
    decreases |qs|
  {
    if qs == [] {
      assert ps + qs == ps;
    } else {
      var init := qs[..|qs| - 1];
      GroupFromConcat(ps, init);
      assert ps + qs == (ps + init) + [qs[|qs| - 1]];
      assert (ps + qs)[..|ps + qs| - 1] == ps + init;
    }
  }

  /** The loop over the grouped units that builds their sections. */
  method BuildSections(units: seq<BusinessUnit>, g: Groups) returns (sections: seq<Section>)
    requires Covered(g.ids, g.members)
    ensures sections == Sections(units, g)
  {
    sections := [];
    var i := 0;
    while i < |g.ids|
      invariant i <= |g.ids|
      invariant sections == Sections(units, g)[..i]
    {
      var members := Sorting.SortDesc(g.members[g.ids[i]], Composite);
      var name, color;
      match Lookup(units, g.ids[i]) {
        case None =>
          name, color := g.ids[i], DefaultColor;
        case Some(u) =>
          name := u.name;
          color := if u.color.Some? then u.color.value else DefaultColor;
      }
      sections := sections + [Section(g.ids[i], name, color, members)];
      i := i + 1;
    }
  }

  /** `build_digest_context`: the grouping loop, the ranking of each unit's list,
      the top five, the sections and the subject. */
  method BuildDigestContext(signals: seq<ScoredSignal>, units: seq<BusinessUnit>, week: nat, year: int, dateRange: string)
    returns (ctx: DigestContext)
    ensures ctx == Context(signals, units, week, year, dateRange)
  {
    var g := Groups([], map[]);
    var k := 0;
    while k < |signals|
      invariant k <= |signals|
      invariant g == Group(Pairs(signals[..k]))
    {
      assert signals[..k + 1][..k] == signals[..k];
      GroupFromConcat(Pairs(signals[..k]), MatchPairs(signals[k]));
      g := PlaceSignal(g, signals[k]);
      k := k + 1;
    }
    assert signals[..k] == signals;
    GroupKeys(Pairs(signals));
    var sections := BuildSections(units, g);
    var ranked := Sorting.SortDesc(signals, Composite);
    var top := Prefix(ranked, 5);
    var signalOfWeek := if ranked != [] then Some(ranked[0]) else None;
    ctx := DigestContext(Subject(week, top, |signals|), week, year, dateRange, |signals|, top, signalOfWeek, sections);
  }

  // ---------------------------------------------------------------- file name

  /** `save_digest_html`'s file name: the given one, or digest-YYYY-Www.html for an
      absent or empty one. */
  function DigestFileName(filename: Option<string>, week: nat, year: int): string {
    if filename.Some? && filename.value != "" then filename.value
    else "digest-" + IntToString(year) + "-W" + TwoDigits(week) + ".html"
  }

  /** The default name is the stem, then ".html"; the stem's last "-" part is "W"
      and the zero-padded week. */
  lemma DefaultFileName(filename: Option<string>, week: nat, year: int)
    requires filename.None? || filename == Some("")
    ensures DigestFileName(filename, week, year) == DigestStem(week, year) + ".html"
    ensures StartsWith(DigestFileName(filename, week, year), "digest-")
    ensures EndsWith(DigestFileName(filename, week, year), ".html")
  {
    var stem := DigestStem(week, year);
    assert DigestFileName(filename, week, year) == stem + ".html";
    assert (stem + ".html")[..7] == "digest-";
    assert (stem + ".html")[|stem + ".html"| - 5..] == ".html";
  }

  /** The stem of the default digest name. */
  function DigestStem(week: nat, year: int): string {
    "digest-" + IntToString(year) + "-W" + TwoDigits(week)
  }
}
