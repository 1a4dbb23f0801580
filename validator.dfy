/** Validation of stored signals: corroborating reports from other publishers are
    recorded, and the number of sources decides the validation level. The search
    for corroborating reports and the parsing of a url into its network location
    are parameters. */
module Validator {
  import opened Model
  import opened Text
  import opened Db
  import Seqs

  /** `get_source_domain` given the network location of the url: lower-cased, with
      one leading "www." removed. */
  function SourceDomain(netloc: string): string {
    var host := Lower(netloc);
    if StartsWith(host, "www.") then host[4..] else host
  }

  /** The domain has no upper-case letter. */
  lemma SourceDomainLower(netloc: string)
    ensures forall i :: 0 <= i < |SourceDomain(netloc)| ==> !('A' <= SourceDomain(netloc)[i] <= 'Z')
  {
    var host := Lower(netloc);
    forall i | 0 <= i < |host|
      ensures !('A' <= host[i] <= 'Z')
    {
      LowerAt(netloc, i);
    }
  }

  /** A leading "www.", written in any case, is removed once: the domain of
      "www." + x is x lower-cased, even when x starts with "www." itself. */
  lemma SourceDomainStripsOnce(prefix: string, x: string)
    requires Lower(prefix) == "www."
    ensures SourceDomain(prefix + x) == Lower(x)
  {
    LowerConcat(prefix, x);
    assert ("www." + Lower(x))[..4] == "www.";
    assert ("www." + Lower(x))[4..] == Lower(x);
  }

  /** Both spellings of the prefix the examples use lower-case to "www.". */
  lemma WwwSpellings()
    ensures Lower("www.") == "www." && Lower("WWW.") == "www."
  {
    LowerAt("www.", 0);
    LowerAt("www.", 1);
    LowerAt("www.", 2);
    LowerAt("www.", 3);
    LowerAt("WWW.", 0);
    LowerAt("WWW.", 1);
    LowerAt("WWW.", 2);
    LowerAt("WWW.", 3);
  }

  /** The validation levels. */
  datatype Level = Verified | Likely | Unverified {
    function Name(): string {
      match this
      case Verified => "verified"
      case Likely => "likely"
      case Unverified => "unverified"
    }
  }

  /** The level for a number of sources: verified from three, likely from two. */
  function LevelOf(total: nat): (l: Level)
    ensures l == Verified <==> total >= 3
    ensures l == Likely <==> total == 2
    ensures l == Unverified <==> total <= 1
  {
    if total >= 3 then Verified else if total >= 2 then Likely else Unverified
  }

  /** What `validate_signal` returns. */
  datatype ValidationResult = ValidationResult(level: Level, sourceCount: nat, corroborations: seq<Corroboration>)

  /** What `validate_batch` returns for one signal: the result tagged with the signal id. */
  datatype Tagged = Tagged(signalId: nat, result: ValidationResult)

  /** `find_corroborating_sources`: the search is not implemented and finds nothing. */
  function FindCorroboratingSources(s: Signal): (found: seq<Corroboration>)
    ensures found == []
  {
    []
  }

  /** The reports whose domain is not the signal's own, in order. */
  function Independent(found: seq<Corroboration>, origin: string, netloc: string -> string): seq<Corroboration> {
    Seqs.Filter(found, (c: Corroboration) => SourceDomain(netloc(c.url)) != origin)
  }

  /** A report is independent exactly when it was found and its domain differs. */
  lemma IndependentExact(found: seq<Corroboration>, origin: string, netloc: string -> string, c: Corroboration)
    ensures c in Independent(found, origin, netloc) <==> c in found && SourceDomain(netloc(c.url)) != origin
  {
    Seqs.FilterExact(found, (c: Corroboration) => SourceDomain(netloc(c.url)) != origin, c);
  }

  /** The validation rows the reports add for a signal, in order. */
  function RowsFor(signalId: nat, cs: seq<Corroboration>): (r: seq<ValidationRow>)
    ensures |r| == |cs|
  {
    seq(|cs|, i requires 0 <= i < |cs| => ValidationRow(signalId, cs[i]))
  }

  /** Every added row counts once for its signal. */
  lemma {:induction false} CountAfterRows(rows: seq<ValidationRow>, signalId: nat, cs: seq<Corroboration>)
    ensures ValidationCount(rows + RowsFor(signalId, cs), signalId) == ValidationCount(rows, signalId) + |cs|
    decreases |cs|
  {
    if cs != [] {
      var init := cs[..|cs| - 1];
      CountAfterRows(rows, signalId, init);
      assert RowsFor(signalId, cs) == RowsFor(signalId, init) + [ValidationRow(signalId, cs[|cs| - 1])];
      assert rows + RowsFor(signalId, cs) == (rows + RowsFor(signalId, init)) + [ValidationRow(signalId, cs[|cs| - 1])];
      CountAfterInsert(rows + RowsFor(signalId, init), signalId, ValidationRow(signalId, cs[|cs| - 1]));
    } else {
      assert rows + RowsFor(signalId, cs) == rows;
    }
  }

  /** Rows of another signal leave the count of a signal unchanged. */
  lemma {:induction false} CountOtherRows(rows: seq<ValidationRow>, signalId: nat, other: nat, cs: seq<Corroboration>)
    requires other != signalId
    ensures ValidationCount(rows + RowsFor(other, cs), signalId) == ValidationCount(rows, signalId)
    decreases |cs|
  {
    if cs != [] {
      var init := cs[..|cs| - 1];
      CountOtherRows(rows, signalId, other, init);
      assert RowsFor(other, cs) == RowsFor(other, init) + [ValidationRow(other, cs[|cs| - 1])];
      assert rows + RowsFor(other, cs) == (rows + RowsFor(other, init)) + [ValidationRow(other, cs[|cs| - 1])];
      CountAfterInsert(rows + RowsFor(other, init), signalId, ValidationRow(other, cs[|cs| - 1]));
    } else {
      assert rows + RowsFor(other, cs) == rows;
    }
  }

  /** The number of sources: the signal itself and each independent report, or the
      signal and its stored reports when there are more of those. */
  function TotalSources(independent: nat, existing: nat): (n: nat)
    ensures n >= 1
  {
    if 1 + independent >= 1 + existing then 1 + independent else 1 + existing
  }

  /** `validate_signal`: records the independent reports and counts the sources. The
      count is read after the reports are stored, so it is one more than every
      report stored for the signal, those of earlier runs included. */
  method ValidateSignal(table: ValidationTable, s: Signal, netloc: string -> string,
                        search: Signal -> seq<Corroboration>) returns (r: ValidationResult)
    modifies table
    ensures table.rows == old(table.rows) + RowsFor(s.id, Independent(search(s), SourceDomain(netloc(s.url)), netloc))
    ensures r.corroborations == Independent(search(s), SourceDomain(netloc(s.url)), netloc)
    ensures r.sourceCount == 1 + ValidationCount(old(table.rows), s.id) + |r.corroborations|
    ensures r.level == LevelOf(r.sourceCount)
  {
    var origin := SourceDomain(netloc(s.url));
    var found := search(s);
    ghost var p := (c: Corroboration) => SourceDomain(netloc(c.url)) != origin;
    var independent: seq<Corroboration> := [];
    var k := 0;
    while k < |found|
      invariant k <= |found|
      invariant independent == Seqs.Filter(found[..k], p)
    {
      assert found[..k + 1][..k] == found[..k];
      if SourceDomain(netloc(found[k].url)) != origin {
        independent := independent + [found[k]];
      }
      k := k + 1;
    }
    assert found[..k] == found;
    k := 0;
    while k < |independent|
      invariant k <= |independent|
      invariant table.rows == old(table.rows) + RowsFor(s.id, independent[..k])
    {
      table.Insert(s.id, independent[k]);
      assert RowsFor(s.id, independent[..k + 1]) == RowsFor(s.id, independent[..k]) + [ValidationRow(s.id, independent[k])];
      k := k + 1;
    }
    assert independent[..k] == independent;
    var existing := table.CountFor(s.id);
    CountAfterRows(old(table.rows), s.id, independent);
    var total := TotalSources(|independent|, existing);
    r := ValidationResult(LevelOf(total), total, independent);
  }

  /** Without an earlier report the placeholder search leaves every signal
      unverified, with the signal as its only source. */
  lemma PlaceholderUnverified(rows: seq<ValidationRow>, s: Signal, netloc: string -> string)
    requires ValidationCount(rows, s.id) == 0
    ensures 1 + ValidationCount(rows, s.id) + |Independent(FindCorroboratingSources(s), SourceDomain(netloc(s.url)), netloc)| == 1
    ensures LevelOf(1) == Unverified
  {
  }


  /** The independent reports of each signal, as `validate_signal` finds them. */
  function IndependentOf(netloc: string -> string, search: Signal -> seq<Corroboration>): Signal -> seq<Corroboration> {
    s => Independent(search(s), SourceDomain(netloc(s.url)), netloc)
  }

  /** The corroborating reports `validate_signal` stores for a signal. */
  function Reports(s: Signal, netloc: string -> string, search: Signal -> seq<Corroboration>): seq<ValidationRow> {
    RowsFor(s.id, IndependentOf(netloc, search)(s))
  }

  /** The reports stored for the first `n` of the signals, in order, given each signal's
      independent reports. */
  function ReportsOfFirst(ss: seq<Signal>, n: nat, independent: Signal -> seq<Corroboration>): seq<ValidationRow>
    requires n <= |ss|
    decreases n
  {
    if n == 0 then [] else ReportsOfFirst(ss, n - 1, independent) + RowsFor(ss[n - 1].id, independent(ss[n - 1]))
  }

  /** The reports stored for each of the signals, in order. */
  function AllReports(ss: seq<Signal>, independent: Signal -> seq<Corroboration>): seq<ValidationRow> {
    ReportsOfFirst(ss, |ss|, independent)
  }

  /** The reports stored after one more signal, following the ones stored before. */
  lemma AllReportsLast(before: seq<ValidationRow>, ss: seq<Signal>, k: nat, independent: Signal -> seq<Corroboration>)
    requires k < |ss|
    ensures before + ReportsOfFirst(ss, k + 1, independent)
         == (before + ReportsOfFirst(ss, k, independent)) + RowsFor(ss[k].id, independent(ss[k]))
  {
  }

  /** The number of reports the first `n` of the signals store for the signal `signalId`,
      given each signal's independent reports. */
  function EarlierReports(ss: seq<Signal>, n: nat, signalId: nat, independent: Signal -> seq<Corroboration>): nat
    requires n <= |ss|
    decreases n
  {
    if n == 0 then 0
    else EarlierReports(ss, n - 1, signalId, independent) + (if ss[n - 1].id == signalId then |independent(ss[n - 1])| else 0)
  }

  /** The reports of the first `n` signals add their earlier reports to each signal's count. */
  lemma {:induction false} CountFirstReports(rows: seq<ValidationRow>, ss: seq<Signal>, n: nat, signalId: nat,
                                             independent: Signal -> seq<Corroboration>)
    requires n <= |ss|
    ensures ValidationCount(rows + ReportsOfFirst(ss, n, independent), signalId)
         == ValidationCount(rows, signalId) + EarlierReports(ss, n, signalId, independent)
    decreases n
  {
    if n == 0 {
      assert rows + ReportsOfFirst(ss, n, independent) == rows;
    } else {
      var before := rows + ReportsOfFirst(ss, n - 1, independent);
      CountFirstReports(rows, ss, n - 1, signalId, independent);
      AllReportsLast(rows, ss, n - 1, independent);
      if ss[n - 1].id == signalId {
        CountAfterRows(before, signalId, independent(ss[n - 1]));
      } else {
        CountOtherRows(before, signalId, ss[n - 1].id, independent(ss[n - 1]));
      }
    }
  }

  /** Signals with other ids store nothing for a signal, so in a batch whose earlier
      signals have other ids each count is that of the reports stored before the batch. */
  lemma {:induction false} EarlierReportsNone(ss: seq<Signal>, n: nat, signalId: nat, independent: Signal -> seq<Corroboration>)
    requires n <= |ss| && forall j :: 0 <= j < n ==> ss[j].id != signalId
    ensures EarlierReports(ss, n, signalId, independent) == 0
    decreases n
  {
    if n > 0 {
      EarlierReportsNone(ss, n - 1, signalId, independent);
    }
  }

  /** A signal's tagged result when `stored` reports were already stored for it. */
  predicate Counted(t: Tagged, s: Signal, stored: nat, independent: Signal -> seq<Corroboration>) {
    && t.signalId == s.id
    && t.result.corroborations == independent(s)
    && t.result.level == LevelOf(t.result.sourceCount)
    && t.result.sourceCount == 1 + stored + |t.result.corroborations|
  }

  /** The tagged result `validate_batch` gives the signal at index `k`, when `stored(id)`
      reports were stored for each signal id before the batch: those and the reports of the
      signals before it count towards its sources. */
  function BatchResult(stored: nat -> nat, ss: seq<Signal>, k: nat, independent: Signal -> seq<Corroboration>): Tagged
    requires k < |ss|
  {
    var total := 1 + stored(ss[k].id) + EarlierReports(ss, k, ss[k].id, independent) + |independent(ss[k])|;
    Tagged(ss[k].id, ValidationResult(LevelOf(total), total, independent(ss[k])))
  }

  /** The tagged results of the first `n` signals of a batch, in order. */
  function BatchResults(stored: nat -> nat, ss: seq<Signal>, n: nat, independent: Signal -> seq<Corroboration>): seq<Tagged>
    requires n <= |ss|
    decreases n
  {
    if n == 0 then [] else BatchResults(stored, ss, n - 1, independent) + [BatchResult(stored, ss, n - 1, independent)]
  }

  /** What `validate_signal` returns for the next signal of a batch is that signal's result. */
  lemma BatchResultsNext(stored: nat -> nat, ss: seq<Signal>, k: nat, r: ValidationResult,
                         independent: Signal -> seq<Corroboration>)
    requires k < |ss|
    requires r.corroborations == independent(ss[k])
    requires r.sourceCount == 1 + stored(ss[k].id) + EarlierReports(ss, k, ss[k].id, independent) + |r.corroborations|
    requires r.level == LevelOf(r.sourceCount)
    ensures BatchResults(stored, ss, k + 1, independent) == BatchResults(stored, ss, k, independent) + [Tagged(ss[k].id, r)]
  {
  }

  /** There is one result per signal, and the one at index `i` is that signal's. */
  lemma {:induction false} BatchResultsAt(stored: nat -> nat, ss: seq<Signal>, n: nat, i: nat,
                                          independent: Signal -> seq<Corroboration>)
    requires i < n <= |ss|
    ensures |BatchResults(stored, ss, n, independent)| == n
    ensures BatchResults(stored, ss, n, independent)[i] == BatchResult(stored, ss, i, independent)
    decreases n
  {
    if i < n - 1 {
      BatchResultsAt(stored, ss, n - 1, i, independent);
    } else {
      BatchResultsLength(stored, ss, n - 1, independent);
    }
  }

  /** The result for the signal at index `i` of a batch is tagged with its id, holds its
      independent reports, and counts the signal, those reports and the ones stored for it
      before: before the batch, or by the signals before it in the batch. */
  lemma BatchCounted(stored: nat -> nat, ss: seq<Signal>, i: nat, independent: Signal -> seq<Corroboration>)
    requires i < |ss|
    ensures |BatchResults(stored, ss, |ss|, independent)| == |ss|
    ensures Counted(BatchResults(stored, ss, |ss|, independent)[i], ss[i],
                    stored(ss[i].id) + EarlierReports(ss, i, ss[i].id, independent), independent)
  {
    BatchResultsAt(stored, ss, |ss|, i, independent);
  }

  /** One result per signal. */
  lemma {:induction false} BatchResultsLength(stored: nat -> nat, ss: seq<Signal>, n: nat,
                                              independent: Signal -> seq<Corroboration>)
    requires n <= |ss|
    ensures |BatchResults(stored, ss, n, independent)| == n
    decreases n
  {
    if n > 0 {
      BatchResultsLength(stored, ss, n - 1, independent);
    }
  }

  /** `validate_batch`: one tagged result per signal, in order. Each signal's count
      includes the reports stored for it by the signals before it in the batch. */
  method ValidateBatch(table: ValidationTable, signals: seq<Signal>, netloc: string -> string,
                       search: Signal -> seq<Corroboration>) returns (results: seq<Tagged>)
    modifies table
    ensures results == BatchResults((id: nat) => ValidationCount(old(table.rows), id), signals, |signals|, IndependentOf(netloc, search))
    ensures |results| == |signals|
    ensures table.rows == old(table.rows) + AllReports(signals, IndependentOf(netloc, search))
  {
    ghost var rows0 := table.rows;
    ghost var stored := (id: nat) => ValidationCount(rows0, id);
    ghost var independent := IndependentOf(netloc, search);
    results := [];
    var k := 0;
    while k < |signals|
      invariant k <= |signals|
      invariant results == BatchResults(stored, signals, k, independent)
      invariant table.rows == rows0 + ReportsOfFirst(signals, k, independent)
    {
      AllReportsLast(rows0, signals, k, independent);
      CountFirstReports(rows0, signals, k, signals[k].id, independent);
      var r := ValidateSignal(table, signals[k], netloc, search);
      assert independent(signals[k]) == r.corroborations;
      BatchResultsNext(stored, signals, k, r, independent);
      results := results + [Tagged(signals[k].id, r)];
      k := k + 1;
    }
    BatchResultsLength(stored, signals, |signals|, independent);
  }
}
