/** The dry run: the seed signals stored instead of live collection, then the
    pipeline's validation, scoring, trend analysis, composition and delivery, with no
    pause or cancel checkpoint and no current stage. A failure is recorded on the run
    row and raised again. The seed list and the hash behind its external ids are
    parameters. */
module DryRun {
  import opened Model
  import opened Db
  import Seqs
  import Sorting
  import Scorer
  import Tracker
  import Composer
  import Gmail
  import Pdf
  import Pipeline
  import Validator

  // ---------------------------------------------------------------- seeding

  /** `_make_external_id`: the hash (the first 32 hex digits of SHA-256 in the
      source) of the URL and the title joined by a colon. */
  function SeedKey(c: Collected, hash: string -> string): string {
    hash(c.url + ":" + c.title)
  }

  /** The seed list with each external id set from its URL and title. */
  function Keyed(seeds: seq<Collected>, hash: string -> string): (cs: seq<Collected>)
    ensures |cs| == |seeds|
  {
    seq(|seeds|, k requires 0 <= k < |seeds| => seeds[k].(externalId := SeedKey(seeds[k], hash)))
  }

  /** `seed_signals`: each seed goes through the same insert-or-re-queue loop as
      the collection stage; the count goes up on both branches. */
  method SeedSignals(store: Store, seeds: seq<Collected>, hash: string -> string) returns (inserted: nat)
    requires store.Valid()
    modifies store.signals, store`lastRowId
    ensures store.Valid() && inserted == |seeds|
    ensures Pipeline.Conn(store.signals.rows, store.lastRowId)
      == Pipeline.Collect(Pipeline.Conn(old(store.signals.rows), old(store.lastRowId)), Keyed(seeds, hash))
  {
    ghost var cs := Keyed(seeds, hash);
    ghost var start := Pipeline.Conn(store.signals.rows, store.lastRowId);
    inserted := 0;
    var k := 0;
    while k < |seeds|
      invariant k <= |seeds| && inserted == k && store.Valid()
      invariant Pipeline.Conn(store.signals.rows, store.lastRowId) == Pipeline.Collect(start, cs[..k])
    {
      assert cs[..k + 1][..k] == cs[..k];
      var c := seeds[k].(externalId := SeedKey(seeds[k], hash));
      assert c == cs[k];
      var rowId := store.InsertSignal(c);
      if rowId == 0 {
        store.signals.Requeue(c.externalId);
      }
      inserted := inserted + 1;
      k := k + 1;
    }
    assert cs[..k] == cs;
  }

  /** Seeding as written, after the run row: every seed is stored under its key, a
      seed stored by an earlier dry run keeps the status that run left, and only
      the seeds new to the table are queued as 'new'. */
  lemma SeedsStored(rows: seq<Signal>, runId: nat, seeds: seq<Collected>, hash: string -> string)
    requires SignalRows(rows) && runId >= 1
    ensures var after := Pipeline.Collect(Pipeline.Conn(rows, runId), Keyed(seeds, hash)).rows;
      && after == Pipeline.InsertedAll(rows, Keyed(seeds, hash))
      && (forall k :: 0 <= k < |seeds| ==> Known(after, SeedKey(seeds[k], hash)))
      && |rows| <= |after|
      && (forall i :: 0 <= i < |rows| ==> after[i] == rows[i])
      && (forall i :: |rows| <= i < |after| ==> after[i].status == New)
  {
    var cs := Keyed(seeds, hash);
    Pipeline.CollectAfterRun(Pipeline.Conn(rows, runId), cs);
    Pipeline.InsertedAllKeeps(rows, cs);
    forall k | 0 <= k < |seeds|
      ensures Known(Pipeline.InsertedAll(rows, cs), SeedKey(seeds[k], hash))
    {
      assert cs[k].externalId == SeedKey(seeds[k], hash);
    }
  }

  /** Seeding as its docstring intends (re-queueing what is stored): every seed is
      stored under its key, and every row holding a seed's key is queued as new. */
  lemma SeedsQueued(rows: seq<Signal>, seeds: seq<Collected>, hash: string -> string)
    requires SignalRows(rows)
    ensures var after := Pipeline.StoredAll(rows, Keyed(seeds, hash));
      && (forall k :: 0 <= k < |seeds| ==> Known(after, SeedKey(seeds[k], hash)))
      && (forall i, k :: 0 <= i < |after| && 0 <= k < |seeds| && after[i].externalId == SeedKey(seeds[k], hash) ==>
            after[i].status == New)
  {
    var cs := Keyed(seeds, hash);
    var after := Pipeline.StoredAll(rows, cs);
    Pipeline.StoredAllKnown(rows, cs);
    Pipeline.StoredAllNew(rows, cs);
    forall k | 0 <= k < |seeds|
      ensures Known(after, SeedKey(seeds[k], hash))
    {
      assert cs[k].externalId == SeedKey(seeds[k], hash);
    }
    forall i, k | 0 <= i < |after| && 0 <= k < |seeds| && after[i].externalId == SeedKey(seeds[k], hash)
      ensures after[i].status == New
    {
      assert cs[k].externalId == after[i].externalId;
      assert Pipeline.Mentioned(cs, after[i].externalId);
    }
  }

  // ---------------------------------------------------------------- the stages without checkpoints

  /** The validation loop: each new signal validated and marked validated. */
  method ValidateEach(store: Store, found: seq<Signal>, netloc: string -> string, search: Signal -> seq<Corroboration>)
    requires store.Valid()
    modifies store.signals, store.validations
    ensures store.Valid()
    ensures store.signals.rows == Pipeline.Marked(old(store.signals.rows), found, Validated)
    ensures store.validations.rows == old(store.validations.rows) + Validator.AllReports(found, Validator.IndependentOf(netloc, search))
  {
    ghost var rows0, reports0 := store.signals.rows, store.validations.rows;
    var k := 0;
    while k < |found|
      invariant k <= |found| && store.Valid()
      invariant store.signals.rows == Pipeline.Marked(rows0, found[..k], Validated)
      invariant store.validations.rows == reports0 + Validator.ReportsOfFirst(found, k, Validator.IndependentOf(netloc, search))
    {
      Pipeline.MarkedLast(rows0, found, k, Validated);
      Validator.AllReportsLast(reports0, found, k, Validator.IndependentOf(netloc, search));
      Pipeline.ValidateOne(store, found[k], netloc, search);
      k := k + 1;
    }
    assert found[..k] == found;
  }

  /** The scoring loop: the batches in turn, each recorded before the next; the
      first batch that raises ends it. */
  method ScoreEvery(store: Store, score: seq<Signal> -> Scorer.Outcome<seq<Analysis>>, found: seq<Signal>, minScore: real)
    returns (r: Scorer.Outcome<seq<ScoredSignal>>, ghost done: Pipeline.Progress)
    requires store.signals.Valid() && Pipeline.Aligns(score)
    modifies store.signals, store.analyses, store.buLinks
    ensures store.signals.Valid()
    ensures var start := Pipeline.Progress([], [], old(store.analyses.byId), old(store.buLinks.links), old(store.signals.rows), 0);
      && (r.Thrown? ==> Pipeline.Loop(score, found, start, minScore).Thrown?)
      && (r.Returned? ==>
            Pipeline.Loop(score, found, start, minScore) == Scorer.Returned(done)
            && r.value == done.passing && Pipeline.Mirrors(store, done))
  {
    ghost var start := Pipeline.Progress([], [], store.analyses.byId, store.buLinks.links, store.signals.rows, 0);
    ghost var p := start;
    ghost var whole := Pipeline.Loop(score, found, start, minScore);
    var passing: seq<ScoredSignal> := [];
    var i := 0;
    assert found[0..] == found;
    while i < |found|
      invariant Pipeline.Looping(store, score, found, whole, minScore, i, passing, p)
      decreases |found| - i
    {
      var thrown;
      thrown, i, passing, p := Pipeline.ScoreBatch(store, score, found, whole, i, passing, p, minScore);
      if thrown {
        return Scorer.Thrown, start;
      }
    }
    assert found[i..] == [];
    done := p;
    r := Scorer.Returned(passing);
  }

  /** The scoring of `main`: nothing to do without validated signals; otherwise
      every validated signal is scored batch by batch and stored, and the signals
      that reach the threshold are kept highest composite first, capped. */
  method ScoreValidated(store: Store, score: seq<Signal> -> Scorer.Outcome<seq<Analysis>>, thresholds: Thresholds)
    returns (r: Scorer.Outcome<seq<ScoredSignal>>, ghost analyses: seq<Analysis>)
    requires store.Valid() && Pipeline.Aligns(score)
    modifies store.signals, store.analyses, store.buLinks
    ensures store.Valid()
    ensures r.Thrown? ==> Pipeline.Scoring(score, WithStatus(old(store.signals.rows), Validated)).Thrown?
    ensures r.Returned? ==>
      var found := WithStatus(old(store.signals.rows), Validated);
      && Pipeline.Scoring(score, found) == Scorer.Returned(analyses)
      && r.value == Pipeline.Selected(found, analyses, thresholds)
      && store.analyses.byId == Seqs.Fold(old(store.analyses.byId), Pipeline.Zip(found, analyses), Pipeline.PutAnalysis)
      && store.buLinks.links == Seqs.Fold(old(store.buLinks.links), Pipeline.Zip(found, analyses), Pipeline.PutLinks)
      && store.signals.rows == Pipeline.Marked(old(store.signals.rows), found, Scored)
  {
    var found := store.signals.ByStatus(Validated);
    if found == [] {
      return Scorer.Returned([]), [];
    }
    var minScore := Pipeline.MinScore(thresholds);
    ghost var start := Pipeline.Progress([], [], store.analyses.byId, store.buLinks.links, store.signals.rows, 0);
    var passing;
    ghost var done;
    passing, done := ScoreEvery(store, score, found, minScore);
    Pipeline.LoopSummary(score, found, start, minScore);
    analyses := if Pipeline.Scoring(score, found).Returned? then Pipeline.Scoring(score, found).value else [];
    if passing.Thrown? {
      return Scorer.Thrown, analyses;
    }
    var ranked := Sorting.SortDesc(passing.value, Composer.Composite);
    var maxSignals := Pipeline.MaxSignals(thresholds);
    if |ranked| > maxSignals {
      ranked := Pipeline.Cap(ranked, maxSignals);
    }
    r := Scorer.Returned(ranked);
  }

  /** The delivery loop: `send_email` to every active recipient, in order. */
  method SendAll(recipients: seq<Recipient>, mail: Pipeline.Mailer, pdfPath: Option<string>)
    returns (results: seq<Gmail.SendResult>)
    ensures results == Pipeline.Sends(Seqs.Filter(recipients, IsActive), mail, pdfPath)
  {
    results := [];
    var i := 0;
    while i < |recipients|
      invariant i <= |recipients|
      invariant results == Pipeline.Sends(Seqs.Filter(recipients[..i], IsActive), mail, pdfPath)
      invariant |results| == |Seqs.Filter(recipients[..i], IsActive)|
    {
      Seqs.FilterLast(recipients, i, IsActive);
      ghost var before := Seqs.Filter(recipients[..i], IsActive);
      var recipient := recipients[i];
      if IsActive(recipient) {
        Pipeline.SendsLast(before, recipient, mail, pdfPath);
        var result, _ := Gmail.SendEmail(mail.setup, recipient.email, Pipeline.MaxRetries, pdfPath, mail.transport(|results|));
        results := results + [result];
        assert Seqs.Filter(recipients[..i + 1], IsActive) == before + [recipient];
        assert results == Pipeline.Sends(before + [recipient], mail, pdfPath);
      } else {
        assert Seqs.Filter(recipients[..i + 1], IsActive) == before;
      }
      i := i + 1;
    }
    assert recipients[..i] == recipients;
  }

  // ---------------------------------------------------------------- main

  /** Everything the dry run reads from outside: the seed list and the hash behind
      its external ids, the validator's domain parser and search, the AI client, the
      scoring configuration, the clock's week, year and date, the business-unit
      names, composing (`pdf_mode` among it), the recipient list, the mailer, and the
      text of the exception scoring raises, if it does. */
  datatype DryInputs = DryInputs(
    seeds: seq<Collected>,
    hash: string -> string,
    netloc: string -> string,
    search: Signal -> seq<Corroboration>,
    remote: Scorer.Remote,
    setup: Scorer.Setup,
    week: nat,
    year: int,
    today: string,
    names: map<string, string>,
    comp: Pipeline.Composing,
    recipients: seq<Recipient>,
    mail: Pipeline.Mailer,
    raised: string)

  /** How the body of the `try` in `main` ends: with nothing for the digest (no
      validated signal, or none above the threshold), delivered, or raised by
      scoring. */
  datatype DryEnd =
    | Empty(seeded: nat, validated: nat)
    | Digested(seeded: nat, validated: nat, scored: seq<ScoredSignal>, digest: Pipeline.Digest,
               deliveries: seq<Gmail.SendResult>)
    | Raised

  /** The rows after seeding once the run row is inserted, and the rows validation
      then leaves, from the rows before the run. */
  function SeededRows(rows: seq<Signal>, inputs: DryInputs): seq<Signal> {
    Pipeline.InsertedAll(rows, Keyed(inputs.seeds, inputs.hash))
  }

  function ValidatedRows(rows: seq<Signal>, inputs: DryInputs): seq<Signal> {
    var seeded := SeededRows(rows, inputs);
    Pipeline.Marked(seeded, WithStatus(seeded, New), Validated)
  }

  /** Seeding, validation and scoring. `found` is the validated signals scoring
      reads and `analyses` what scoring gave them. */
  method SeedAndScore(store: Store, inputs: DryInputs, score: seq<Signal> -> Scorer.Outcome<seq<Analysis>>)
    returns (r: Scorer.Outcome<Pipeline.Tally>, ghost found: seq<Signal>, ghost analyses: seq<Analysis>)
    requires store.Valid() && Pipeline.Aligns(score) && store.lastRowId >= 1
    modifies store.signals, store.validations, store.analyses, store.buLinks, store`lastRowId
    ensures store.Valid()
    ensures found == WithStatus(ValidatedRows(old(store.signals.rows), inputs), Validated)
    ensures r.Thrown? ==> Pipeline.Scoring(score, found).Thrown?
    ensures r.Returned? ==>
      && r.value.collected == |inputs.seeds|
      && r.value.validated == |WithStatus(SeededRows(old(store.signals.rows), inputs), New)|
      && Pipeline.Scoring(score, found) == Scorer.Returned(analyses)
      && r.value.scored == Pipeline.Selected(found, analyses, inputs.setup.scoring.thresholds)
  {
    ghost var rows0 := store.signals.rows;
    Pipeline.CollectAfterRun(Pipeline.Conn(rows0, store.lastRowId), Keyed(inputs.seeds, inputs.hash));
    var inserted := SeedSignals(store, inputs.seeds, inputs.hash);
    var queued := store.signals.ByStatus(New);
    ValidateEach(store, queued, inputs.netloc, inputs.search);
    found := WithStatus(store.signals.rows, Validated);
    var scored;
    scored, analyses := ScoreValidated(store, score, inputs.setup.scoring.thresholds);
    if scored.Thrown? {
      return Scorer.Thrown, found, analyses;
    }
    r := Scorer.Returned(Pipeline.Tally(inserted, |queued|, scored.value));
  }

  /** Trend analysis, composition and delivery, with no checkpoint and no current
      stage. */
  method Deliver(store: Store, inputs: DryInputs, scored: seq<ScoredSignal>)
    returns (trends: Tracker.TrendReport, digest: Pipeline.Digest, deliveries: seq<Gmail.SendResult>)
    requires store.Valid()
    modifies store.trends, store.snapshots
    ensures store.Valid()
    ensures Tracker.Updated(store.signals.rows, store.analyses.byId, store.buLinks.links, inputs.names, inputs.week,
                            inputs.year, inputs.today, old(store.trends.rows), old(store.snapshots.rows),
                            trends, store.trends.rows, store.snapshots.rows)
    ensures digest.context == Composer.Context(scored, inputs.comp.units, inputs.comp.week, inputs.comp.year, inputs.comp.dateRange)
    ensures digest.pdfPath.Some? <==> inputs.comp.pdfMode && (inputs.comp.weasyprint == Pdf.Works || inputs.comp.reportlab == Pdf.Works)
    ensures deliveries == Pipeline.Sends(Seqs.Filter(inputs.recipients, IsActive), inputs.mail, digest.pdfPath)
  {
    trends := Tracker.UpdateTrends(store, inputs.week, inputs.year, inputs.today, inputs.names);
    digest := Pipeline.Compose(scored, inputs.comp);
    deliveries := SendAll(inputs.recipients, inputs.mail, digest.pdfPath);
  }

  /** The body of the `try` in `main`. */
  method DryStages(store: Store, inputs: DryInputs, score: seq<Signal> -> Scorer.Outcome<seq<Analysis>>)
    returns (f: DryEnd, ghost found: seq<Signal>, ghost analyses: seq<Analysis>)
    requires store.Valid() && Pipeline.Aligns(score) && store.lastRowId >= 1
    modifies store.signals, store.validations, store.analyses, store.buLinks, store.trends, store.snapshots
    modifies store`lastRowId
    ensures store.Valid()
    ensures found == WithStatus(ValidatedRows(old(store.signals.rows), inputs), Validated)
    ensures f.Raised? <==> Pipeline.Scoring(score, found).Thrown?
    ensures !f.Raised? ==>
      && f.seeded == |inputs.seeds|
      && f.validated == |WithStatus(SeededRows(old(store.signals.rows), inputs), New)|
      && Pipeline.Scoring(score, found) == Scorer.Returned(analyses)
    ensures f.Empty? ==> Pipeline.Selected(found, analyses, inputs.setup.scoring.thresholds) == []
    ensures f.Digested? ==>
      && f.scored == Pipeline.Selected(found, analyses, inputs.setup.scoring.thresholds) && f.scored != []
      && f.digest.context == Composer.Context(f.scored, inputs.comp.units, inputs.comp.week, inputs.comp.year, inputs.comp.dateRange)
      && f.deliveries == Pipeline.Sends(Seqs.Filter(inputs.recipients, IsActive), inputs.mail, f.digest.pdfPath)
  {
    var early;
    early, found, analyses := SeedAndScore(store, inputs, score);
    if early.Thrown? {
      return Raised, found, analyses;
    }
    var t := early.value;
    if t.scored == [] {
      return Empty(t.collected, t.validated), found, analyses;
    }
    var _, digest, deliveries := Deliver(store, inputs, t.scored);
    f := Digested(t.collected, t.validated, t.scored, digest, deliveries);
  }

  /** The row `complete_pipeline_run` leaves for the dry run just started. */
  function DryCompletion(id: nat, f: DryEnd, raised: string, now: string): (run: Run)
    ensures run.id == id && run.runType == "dry-run" && run.completedAt == Some(now)
    ensures run.status == Failed <==> f.Raised?
    ensures run.status == Completed <==> !f.Raised?
    ensures f.Raised? ==> run.columns == map["error_message" := TextValue(raised)]
    ensures f.Empty? ==> "signals_scored" in run.columns && run.columns["signals_scored"] == IntValue(0)
  {
    match f
    case Raised => Run(id, "dry-run", Failed, Some(now), map["error_message" := TextValue(raised)])
    case Empty(seeded, validated) => Run(id, "dry-run", Completed, Some(now), Pipeline.Counts(seeded, validated, 0))
    case Digested(seeded, validated, scored, _, _) =>
      Run(id, "dry-run", Completed, Some(now), Pipeline.Counts(seeded, validated, |scored|))
  }

  /** The `except` and the `finally` of `main`: the run row completed and the
      connection closed; what scoring raised is raised again. */
  method Close(store: Store, runId: nat, f: DryEnd, raised: string, now: string) returns (error: Option<string>)
    requires store.Valid()
    requires 1 <= runId == |store.runs.rows| && store.runs.rows[runId - 1] == Run(runId, "dry-run", Running, None, map[])
    modifies store.runs, store`isOpen
    ensures store.Valid() && !store.isOpen
    ensures store.runs.rows == old(store.runs.rows[..runId - 1]) + [DryCompletion(runId, f, raised, now)]
    ensures error.Some? <==> f.Raised?
    ensures f.Raised? ==> error == Some(raised)
  {
    ghost var row := store.runs.rows[runId - 1];
    ghost var rows0 := store.runs.rows[..runId - 1];
    assert store.runs.rows == rows0 + [row];
    var status: RunStatus, kwargs: map<string, Value>;
    match f {
      case Raised =>
        status, kwargs := Failed, map["error_message" := TextValue(raised)];
        error := Some(raised);
      case Empty(seeded, validated) =>
        status, kwargs := Completed, Pipeline.Counts(seeded, validated, 0);
        error := None;
      case Digested(seeded, validated, scored, _, _) =>
        status, kwargs := Completed, Pipeline.Counts(seeded, validated, |scored|);
        error := None;
    }
    CompletedLast(rows0, row, status, kwargs, now);
    BoundListed(kwargs);
    store.runs.Complete(runId, status, kwargs, now);
    store.Close();
  }

  /** What the dry run leaves behind: its row completed as `DryCompletion` says and
      the connection closed, the exception scoring raised raised again, and, past
      scoring, the seed count, and a sent digest with the context of the chosen
      signals and one delivery per active recipient. */
  ghost predicate DryConcluded(runs0: seq<Run>, runs: seq<Run>, isOpen: bool, error: Option<string>, f: DryEnd,
                               inputs: DryInputs, now: string)
  {
    && !isOpen && runs == runs0 + [DryCompletion(|runs0| + 1, f, inputs.raised, now)]
    && (error.Some? <==> f.Raised?)
    && (f.Raised? ==> error == Some(inputs.raised))
    && (!f.Raised? ==> f.seeded == |inputs.seeds|)
    && (f.Digested? ==>
          && f.scored != []
          && f.digest.context == Composer.Context(f.scored, inputs.comp.units, inputs.comp.week, inputs.comp.year, inputs.comp.dateRange)
          && f.deliveries == Pipeline.Sends(Seqs.Filter(inputs.recipients, IsActive), inputs.mail, f.digest.pdfPath))
  }

  /** `main` with the batch scorer given: a "dry-run" row inserted, the stages run,
      and the row completed with the outcome. */
  method DryRunWith(store: Store, inputs: DryInputs, now: string, score: seq<Signal> -> Scorer.Outcome<seq<Analysis>>)
    returns (f: DryEnd, error: Option<string>)
    requires store.Valid() && Pipeline.Aligns(score)
    modifies store.signals, store.validations, store.analyses, store.buLinks, store.trends, store.snapshots
    modifies store.runs, store`isOpen, store`lastRowId
    ensures store.Valid()
    ensures DryConcluded(old(store.runs.rows), store.runs.rows, store.isOpen, error, f, inputs, now)
  {
    var runId := store.StartRun("dry-run");
    ghost var found, analyses;
    f, found, analyses := DryStages(store, inputs, score);
    error := Close(store, runId, f, inputs.raised, now);
  }

  /** `main`: scoring with the AI client's batches. */
  method RunDryRun(store: Store, inputs: DryInputs, now: string) returns (f: DryEnd, error: Option<string>)
    requires store.Valid()
    modifies store.signals, store.validations, store.analyses, store.buLinks, store.trends, store.snapshots
    modifies store.runs, store`isOpen, store`lastRowId
    ensures store.Valid()
    ensures DryConcluded(old(store.runs.rows), store.runs.rows, store.isOpen, error, f, inputs, now)
  {
    Pipeline.BatchScorerAligns(inputs.remote, inputs.setup);
    f, error := DryRunWith(store, inputs, now, Pipeline.BatchScorer(inputs.remote, inputs.setup));
  }
}
