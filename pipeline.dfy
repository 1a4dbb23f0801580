/** The pipeline: the pause/resume/cancel control shared with the API, the stages
    a run goes through and the run itself with its terminal status. The tables are
    those of `Db`; the collectors, the scorer, the trend tracker, the composer and
    the mailer are the models of their own modules, and everything they read from
    the outside world is a parameter. */
module Pipeline {
  import opened Model
  import opened Db
  import Seqs
  import Sorting
  import Scorer
  import Validator
  import WebScraper
  import RssCollector
  import Tracker
  import Composer
  import Gmail
  import Pdf

  // ---------------------------------------------------------------- control

  /** A call the API thread makes on the control while a run is going on. */
  datatype Command = Pause | Resume | Cancel

  /** What `check_point` does: return, wait (for ever, if nothing more arrives), or
      raise `PipelineCancelled`. */
  datatype Gate = Proceed | Blocked | CancelledByUser

  /** The control's flags: paused, cancelled, and whether the pause event is set. */
  datatype Flags = Flags(paused: bool, cancelled: bool, gateOpen: bool)

  /** A fresh or reset control: not paused, not cancelled, the gate open. */
  const Clear := Flags(false, false, true)

  /** The effect of one command on the flags. */
  function Sent(f: Flags, c: Command): (g: Flags)
    ensures c == Pause ==> g.paused && !g.gateOpen && g.cancelled == f.cancelled
    ensures c == Resume ==> !g.paused && g.gateOpen && g.cancelled == f.cancelled
    ensures c == Cancel ==> g.cancelled && g.gateOpen && g.paused == f.paused
  {
    match c
    case Pause => f.(paused := true, gateOpen := false)
    case Resume => f.(paused := false, gateOpen := true)
    case Cancel => f.(cancelled := true, gateOpen := true)
  }

  /** The effect of several commands, in order. */
  function SentAll(f: Flags, cs: seq<Command>): Flags
    decreases |cs|
  {
    if cs == [] then f else Sent(SentAll(f, cs[..|cs| - 1]), cs[|cs| - 1])
  }

  /** `check_point`: wait on the gate, then raise when cancelled. */
  function GateOf(f: Flags): (g: Gate)
    ensures g == Blocked <==> !f.gateOpen
    ensures g == CancelledByUser <==> f.gateOpen && f.cancelled
    ensures g == Proceed <==> f.gateOpen && !f.cancelled
  {
    if !f.gateOpen then Blocked else if f.cancelled then CancelledByUser else Proceed
  }

  /** The flags every sequence of calls keeps: an open gate unless paused, and a
      paused control has an open gate only once cancelled. */
  predicate Coherent(f: Flags) {
    (!f.paused ==> f.gateOpen) && (f.paused && f.gateOpen ==> f.cancelled)
  }

  class PipelineControl {
    var paused: bool
    var cancelled: bool
    var gateOpen: bool
    var currentStage: string

    function State(): Flags
      reads this
    {
      Flags(paused, cancelled, gateOpen)
    }

    predicate Valid()
      reads this
    {
      Coherent(State())
    }

    constructor()
      ensures Valid() && State() == Clear && currentStage == ""
    {
      paused := false;
      cancelled := false;
      gateOpen := true;
      currentStage := "";
    }

    /** `pause` */
    method Pause()
      requires Valid()
      modifies this`paused, this`gateOpen
      ensures Valid() && State() == Sent(old(State()), Command.Pause)
    {
      paused := true;
      gateOpen := false;
    }

    /** `resume` */
    method Resume()
      requires Valid()
      modifies this`paused, this`gateOpen
      ensures Valid() && State() == Sent(old(State()), Command.Resume)
    {
      paused := false;
      gateOpen := true;
    }

    /** `cancel`: the gate is opened so that a paused run wakes up and raises. */
    method Cancel()
      requires Valid()
      modifies this`cancelled, this`gateOpen
      ensures Valid() && State() == Sent(old(State()), Command.Cancel)
    {
      cancelled := true;
      gateOpen := true;
    }

    /** `reset`, at the start of a run; the stage name is left alone. */
    method Reset()
      modifies this`paused, this`cancelled, this`gateOpen
      ensures Valid() && State() == Clear
    {
      paused := false;
      cancelled := false;
      gateOpen := true;
    }

    /** `check_point`, with waiting returned as `Blocked`. */
    method CheckPoint() returns (g: Gate)
      ensures g == GateOf(State())
    {
      if !gateOpen {
        return Blocked;
      }
      if cancelled {
        return CancelledByUser;
      }
      return Proceed;
    }
  }

  /** The API thread: the commands it sends before each checkpoint of the run, in
      order, and how many checkpoints the run has reached. */
  class Operator {
    const commands: nat -> seq<Command>
    var reached: nat

    constructor(commands: nat -> seq<Command>)
      ensures this.commands == commands && reached == 0
    {
      this.commands := commands;
      reached := 0;
    }
  }

  /** The commands that arrive while the control is shared, applied one by one. */
  method Deliver(control: PipelineControl, cs: seq<Command>)
    requires control.Valid()
    modifies control`paused, control`cancelled, control`gateOpen
    ensures control.Valid() && control.State() == SentAll(old(control.State()), cs)
  {
    var k := 0;
    while k < |cs|
      invariant k <= |cs|
      invariant control.Valid() && control.State() == SentAll(old(control.State()), cs[..k])
    {
      assert cs[..k + 1][..k] == cs[..k];
      match cs[k] {
        case Pause => control.Pause();
        case Resume => control.Resume();
        case Cancel => control.Cancel();
      }
      k := k + 1;
    }
    assert cs[..k] == cs;
  }

  /** A checkpoint of the run: the commands sent before it arrive, then
      `check_point` runs. */
  method Check(control: PipelineControl, op: Operator) returns (g: Gate)
    requires control.Valid()
    modifies control`paused, control`cancelled, control`gateOpen, op`reached
    ensures control.Valid()
    ensures control.State() == SentAll(old(control.State()), op.commands(old(op.reached)))
    ensures g == GateOf(control.State())
    ensures op.reached == old(op.reached) + 1
  {
    Deliver(control, op.commands(op.reached));
    g := control.CheckPoint();
    op.reached := op.reached + 1;
  }

  // ---------------------------------------------------------------- control lemmas

  /** Every call keeps the flags coherent. */
  lemma {:induction false} SentAllCoherent(f: Flags, cs: seq<Command>)
    requires Coherent(f)
    ensures Coherent(SentAll(f, cs))
    decreases |cs|
  {
    if cs != [] {
      SentAllCoherent(f, cs[..|cs| - 1]);
    }
  }

  /** On coherent flags a checkpoint waits only while paused, and always waits while
      paused and not cancelled. */
  lemma BlocksWhenPaused(f: Flags)
    requires Coherent(f)
    ensures GateOf(f) == Blocked ==> f.paused
    ensures f.paused && !f.cancelled ==> GateOf(f) == Blocked
    ensures GateOf(Clear) == Proceed
  {
  }

  /** `pause` closes the gate and `resume` opens it again and clears the pause,
      whatever came before. */
  lemma PauseResume(f: Flags)
    ensures GateOf(Sent(f, Pause)) == Blocked
    ensures Sent(Sent(f, Pause), Resume) == f.(paused := false, gateOpen := true)
    ensures Coherent(f) ==> GateOf(SentAll(f, [Pause, Resume])) == GateOf(f.(paused := false, gateOpen := true))
  {
    assert [Pause, Resume][..1] == [Pause];
    assert [Pause][..0] == [];
  }

  /** No command except `pause` closes the gate. */
  predicate NoPause(cs: seq<Command>) {
    forall i :: 0 <= i < |cs| ==> cs[i] != Pause
  }

  /** After `cancel`, commands other than `pause` leave the run cancelled with an
      open gate, so every checkpoint raises and none waits. */
  lemma {:induction false} CancelSticks(f: Flags, cs: seq<Command>)
    requires NoPause(cs)
    ensures SentAll(Sent(f, Cancel), cs).cancelled
    ensures GateOf(SentAll(Sent(f, Cancel), cs)) == CancelledByUser
    decreases |cs|
  {
    if cs != [] {
      CancelSticks(f, cs[..|cs| - 1]);
    }
  }

  /** Cancellation does not change the paused flag, and a `pause` sent after a
      `cancel` closes the gate again: a cancelled run then waits at its next
      checkpoint until a `resume` or another `cancel` arrives. */
  lemma PauseAfterCancel(f: Flags)
    ensures Sent(f, Cancel).paused == f.paused
    ensures GateOf(Sent(Sent(f, Cancel), Pause)) == Blocked
    ensures GateOf(Sent(Sent(Sent(f, Cancel), Pause), Resume)) == CancelledByUser
    ensures GateOf(Sent(Sent(Sent(f, Cancel), Pause), Cancel)) == CancelledByUser
  {
  }

  /** `reset` clears every flag, whatever they were. */
  lemma ResetClears(f: Flags, cs: seq<Command>)
    ensures Coherent(Clear) && GateOf(Clear) == Proceed
    ensures NoPause(cs) && !SentAll(Clear, cs).cancelled ==> GateOf(SentAll(Clear, cs)) == Proceed
  {
    if NoPause(cs) && !SentAll(Clear, cs).cancelled {
      NoPauseOpen(Clear, cs);
    }
  }

  lemma {:induction false} NoPauseOpen(f: Flags, cs: seq<Command>)
    requires f.gateOpen && NoPause(cs)
    ensures SentAll(f, cs).gateOpen
    decreases |cs|
  {
    if cs != [] {
      NoPauseOpen(f, cs[..|cs| - 1]);
    }
  }

  // ---------------------------------------------------------------- stage outcomes

  /** Why a stage or a run stopped early: a checkpoint waiting with nothing left
      to wake it, `PipelineCancelled`, or an exception raised while scoring. */
  datatype Stop = WaitsForever | CancelledRun | ScoringRaised

  datatype Staged<T> = Done(value: T) | Stopped(why: Stop)

  function StopOf(g: Gate): Stop {
    if g == Blocked then WaitsForever else CancelledRun
  }

  // ---------------------------------------------------------------- collection

  /** The rows and the connection's last rowid while the collection loop runs. */
  datatype Conn = Conn(rows: seq<Signal>, lastRowId: nat)

  /** One turn of `stage_collect`'s loop as written: `insert_signal`, then the
      re-queueing update when the `lastrowid` it returned is 0. */
  function CollectStep(s: Conn, c: Collected): Conn {
    var id := LastRowId(s.rows, c, s.lastRowId);
    var rows := InsertIgnore(s.rows, c);
    if id != 0 then Conn(rows, id) else Conn(Requeued(rows, c.externalId), id)
  }

  /** The loop as written over the collected signals. */
  function Collect(s: Conn, cs: seq<Collected>): Conn {
    Seqs.Fold(s, cs, CollectStep)
  }

  /** The rows after `INSERT OR IGNORE` of each signal in turn, and nothing else. */
  function InsertedAll(rows: seq<Signal>, cs: seq<Collected>): seq<Signal> {
    Seqs.Fold(rows, cs, InsertIgnore)
  }

  /** Once a row was inserted on the connection (the run row, by `insert_pipeline_run`),
      every `lastrowid` the loop reads is non-zero, so the re-queueing branch is never
      taken and the loop only inserts. */
  lemma {:induction false} CollectAfterRun(s: Conn, cs: seq<Collected>)
    requires s.lastRowId >= 1
    ensures Collect(s, cs).rows == InsertedAll(s.rows, cs) && Collect(s, cs).lastRowId >= 1
    decreases |cs|
  {
    if cs != [] {
      CollectAfterRun(s, cs[..|cs| - 1]);
    }
  }

  /** Inserting only: one row per external id, every stored row left exactly as it
      was (status included), every signal stored, and the added rows 'new'. */
  lemma {:induction false} InsertedAllKeeps(rows: seq<Signal>, cs: seq<Collected>)
    requires SignalRows(rows)
    ensures SignalRows(InsertedAll(rows, cs)) && |rows| <= |InsertedAll(rows, cs)| <= |rows| + |cs|
    ensures forall i :: 0 <= i < |rows| ==> InsertedAll(rows, cs)[i] == rows[i]
    ensures forall i :: |rows| <= i < |InsertedAll(rows, cs)| ==> InsertedAll(rows, cs)[i].status == New
    ensures forall j :: 0 <= j < |cs| ==> Known(InsertedAll(rows, cs), cs[j].externalId)
    decreases |cs|
  {
    if cs != [] {
      var init := cs[..|cs| - 1];
      var last := cs[|cs| - 1];
      InsertedAllKeeps(rows, init);
      var before := InsertedAll(rows, init);
      InsertIgnoreRows(before, last);
      assert InsertedAll(rows, cs) == InsertIgnore(before, last);
      if !Known(before, last.externalId) {
        assert InsertIgnore(before, last) == before + [NewRow(|before| + 1, last)];
      }
      forall j | 0 <= j < |init|
        ensures Known(InsertedAll(rows, cs), cs[j].externalId)
      {
        assert init[j] == cs[j];
        var m :| 0 <= m < |before| && before[m].externalId == cs[j].externalId;
        assert InsertedAll(rows, cs)[m] == before[m];
      }
    }
  }

  /** The collection stage as written, after the run row: no stored row changes, so a
      signal collected again keeps the status an earlier run left (scored, say) and is
      not scored again; only the signals new to the table are queued as 'new'. */
  lemma CollectedAsWritten(rows: seq<Signal>, runId: nat, cs: seq<Collected>)
    requires SignalRows(rows) && runId >= 1
    ensures var after := Collect(Conn(rows, runId), cs).rows;
      && SignalRows(after) && |rows| <= |after|
      && (forall i :: 0 <= i < |rows| ==> after[i] == rows[i])
      && (forall i :: |rows| <= i < |after| ==> after[i].status == New)
      && (forall j :: 0 <= j < |cs| ==> Known(after, cs[j].externalId))
  {
    CollectAfterRun(Conn(rows, runId), cs);
    InsertedAllKeeps(rows, cs);
  }

  /** A signal stored by an earlier run as scored and collected again: the loop as
      written leaves it scored, the re-queue its comments describe makes it new. */
  lemma RequeueSkipped(stored: Signal, c: Collected, runId: nat)
    requires stored.id == 1 && stored.status == Scored && c.externalId == stored.externalId && runId >= 1
    ensures Collect(Conn([stored], runId), [c]).rows == [stored]
    ensures StoredAll([stored], [c]) == [stored.(status := New)]
  {
    assert [stored][0].externalId == c.externalId;
    assert Known([stored], c.externalId);
    assert [c][..1] == [c];
    Seqs.FoldLast(Conn([stored], runId), [c], 0, CollectStep);
    Seqs.FoldLast([stored], [c], 0, StoreStep);
  }

  /** What storing one collected signal is meant to do, as `stage_collect`'s
      comments say: a new external id adds a row with status 'new', a known one has
      its row set back to 'new'. The loop does this when `insert_signal` reports an
      ignored insert as 0. */
  function StoreStep(rows: seq<Signal>, c: Collected): seq<Signal> {
    if Known(rows, c.externalId) then Requeued(rows, c.externalId) else InsertIgnore(rows, c)
  }

  /** The intended step is exactly what the loop does on a connection whose last
      inserted rowid is still 0, where an ignored insert does read as 0. */
  lemma StoreStepOnFreshConnection(rows: seq<Signal>, c: Collected)
    ensures CollectStep(Conn(rows, 0), c).rows == StoreStep(rows, c)
    ensures Known(rows, c.externalId) <==> CollectStep(Conn(rows, 0), c).lastRowId == 0
  {
  }

  /** The signal rows after storing each collected signal in turn, as intended. */
  function StoredAll(rows: seq<Signal>, cs: seq<Collected>): seq<Signal> {
    Seqs.Fold(rows, cs, StoreStep)
  }

  /** The insert-or-re-queue loop as written: every signal counts once, as new or as
      re-queued, and after the run row every one counts as new. */
  method StoreCollected(store: Store, cs: seq<Collected>) returns (newCount: nat, reprocessed: nat)
    requires store.Valid()
    modifies store.signals, store`lastRowId
    ensures store.Valid()
    ensures Conn(store.signals.rows, store.lastRowId) == Collect(Conn(old(store.signals.rows), old(store.lastRowId)), cs)
    ensures newCount + reprocessed == |cs|
    ensures old(store.lastRowId) >= 1 ==> newCount == |cs|
  {
    newCount, reprocessed := 0, 0;
    var k := 0;
    while k < |cs|
      invariant k <= |cs|
      invariant store.Valid()
      invariant Conn(store.signals.rows, store.lastRowId) == Collect(Conn(old(store.signals.rows), old(store.lastRowId)), cs[..k])
      invariant newCount + reprocessed == k
      invariant old(store.lastRowId) >= 1 ==> newCount == k && store.lastRowId >= 1
    {
      assert cs[..k + 1][..k] == cs[..k];
      var rowId := store.InsertSignal(cs[k]);
      if rowId != 0 {
        newCount := newCount + 1;
      } else {
        store.signals.Requeue(cs[k].externalId);
        reprocessed := reprocessed + 1;
      }
      k := k + 1;
    }
    assert cs[..k] == cs;
  }

  /** Some collected signal has the external id. */
  predicate Mentioned(cs: seq<Collected>, externalId: string) {
    exists j :: 0 <= j < |cs| && cs[j].externalId == externalId
  }

  lemma MentionedLast(cs: seq<Collected>, externalId: string)
    requires cs != []
    ensures Mentioned(cs, externalId) <==> Mentioned(cs[..|cs| - 1], externalId) || cs[|cs| - 1].externalId == externalId
  {
    var init := cs[..|cs| - 1];
    if Mentioned(cs, externalId) && cs[|cs| - 1].externalId != externalId {
      var j :| 0 <= j < |cs| && cs[j].externalId == externalId;
      assert init[j] == cs[j];
    }
    if Mentioned(init, externalId) {
      var j :| 0 <= j < |init| && init[j].externalId == externalId;
      assert cs[j] == init[j];
    }
  }

  /** One store step: it keeps one row per external id and the external id of every
      row, appends at most the new row, leaves every row of another external id as it
      was, and afterwards the signal's row has status 'new'. */
  lemma StoreStepRows(rows: seq<Signal>, c: Collected)
    requires SignalRows(rows)
    ensures SignalRows(StoreStep(rows, c)) && Known(StoreStep(rows, c), c.externalId)
    ensures |rows| <= |StoreStep(rows, c)| <= |rows| + 1
    ensures forall i :: 0 <= i < |rows| ==> StoreStep(rows, c)[i].externalId == rows[i].externalId
    ensures forall i :: 0 <= i < |StoreStep(rows, c)| && StoreStep(rows, c)[i].externalId == c.externalId ==>
      StoreStep(rows, c)[i].status == New
    ensures forall i :: 0 <= i < |StoreStep(rows, c)| && StoreStep(rows, c)[i].externalId != c.externalId ==>
      i < |rows| && StoreStep(rows, c)[i] == rows[i]
  {
    InsertIgnoreRows(rows, c);
    RequeuedRows(rows, c.externalId);
  }

  /** Storing keeps one row per external id, the external id of every row, and adds
      at most one row per signal. */
  lemma {:induction false} StoredAllShape(rows: seq<Signal>, cs: seq<Collected>)
    requires SignalRows(rows)
    ensures SignalRows(StoredAll(rows, cs))
    ensures |rows| <= |StoredAll(rows, cs)| <= |rows| + |cs|
    ensures forall i :: 0 <= i < |rows| ==> StoredAll(rows, cs)[i].externalId == rows[i].externalId
    decreases |cs|
  {
    if cs != [] {
      var init := cs[..|cs| - 1];
      StoredAllShape(rows, init);
      StoreStepRows(StoredAll(rows, init), cs[|cs| - 1]);
    }
  }

  /** After the collection stage the row of every collected signal has status 'new',
      whether it was inserted or re-queued. */
  lemma {:induction false} StoredAllNew(rows: seq<Signal>, cs: seq<Collected>)
    requires SignalRows(rows)
    ensures forall i :: 0 <= i < |StoredAll(rows, cs)| && Mentioned(cs, StoredAll(rows, cs)[i].externalId) ==>
      StoredAll(rows, cs)[i].status == New
    decreases |cs|
  {
    if cs != [] {
      var init := cs[..|cs| - 1];
      var last := cs[|cs| - 1];
      StoredAllNew(rows, init);
      StoredAllShape(rows, init);
      var before := StoredAll(rows, init);
      var after := StoredAll(rows, cs);
      StoreStepRows(before, last);
      forall i | 0 <= i < |after| && Mentioned(cs, after[i].externalId)
        ensures after[i].status == New
      {
        MentionedLast(cs, after[i].externalId);
      }
    }
  }

  /** The rows of the external ids nobody collected are left as they were. */
  lemma {:induction false} StoredAllKeeps(rows: seq<Signal>, cs: seq<Collected>)
    requires SignalRows(rows)
    ensures |rows| <= |StoredAll(rows, cs)|
    ensures forall i :: 0 <= i < |rows| && !Mentioned(cs, rows[i].externalId) ==> StoredAll(rows, cs)[i] == rows[i]
    decreases |cs|
  {
    StoredAllShape(rows, cs);
    if cs != [] {
      var init := cs[..|cs| - 1];
      var last := cs[|cs| - 1];
      StoredAllKeeps(rows, init);
      StoredAllShape(rows, init);
      var before := StoredAll(rows, init);
      StoreStepRows(before, last);
      forall i | 0 <= i < |rows| && !Mentioned(cs, rows[i].externalId)
        ensures StoredAll(rows, cs)[i] == rows[i]
      {
        MentionedLast(cs, rows[i].externalId);
      }
    }
  }

  /** Every collected signal is stored afterwards. */
  lemma {:induction false} StoredAllKnown(rows: seq<Signal>, cs: seq<Collected>)
    requires SignalRows(rows)
    ensures forall j :: 0 <= j < |cs| ==> Known(StoredAll(rows, cs), cs[j].externalId)
    decreases |cs|
  {
    if cs != [] {
      var init := cs[..|cs| - 1];
      StoredAllKnown(rows, init);
      StoredAllShape(rows, init);
      var before := StoredAll(rows, init);
      var after := StoreStep(before, cs[|cs| - 1]);
      assert StoredAll(rows, cs) == after;
      StoreStepKnows(before, cs[|cs| - 1], cs[|cs| - 1].externalId);
      forall j | 0 <= j < |init|
        ensures Known(after, cs[j].externalId)
      {
        assert init[j] == cs[j];
        StoreStepKnows(before, cs[|cs| - 1], cs[j].externalId);
      }
    }
  }

  /** One step keeps every id already stored and stores the collected one. */
  lemma StoreStepKnows(rows: seq<Signal>, c: Collected, id: string)
    requires SignalRows(rows)
    requires Known(rows, id) || id == c.externalId
    ensures Known(StoreStep(rows, c), id)
  {
    StoreStepRows(rows, c);
    if id != c.externalId {
      var m :| 0 <= m < |rows| && rows[m].externalId == id;
      assert StoreStep(rows, c)[m].externalId == id;
    }
  }

  /** What the collectors gather: the RSS signals, then the scraped ones. */
  datatype Collectors = Collectors(
    sources: seq<SourceConfig>,
    parse: string -> RssCollector.Feed,
    fetch: string -> Option<WebScraper.Page>,
    signalId: (string, string) -> string,
    iso: seq<int> -> Option<string>,
    requestDelayMs: Option<real>)

  function CollectedSignals(c: Collectors): seq<Collected> {
    RssCollector.CollectRss(c.sources, c.parse, c.signalId, c.iso) + WebScraper.CollectScraped(c.sources, c.fetch, c.signalId)
  }

  /** `stage_collect`: the RSS feeds are read, a checkpoint runs, the pages are
      scraped, and every signal goes through the insert-or-re-queue loop; the count
      is new plus re-queued, which is every signal collected. */
  method StageCollect(store: Store, control: PipelineControl, op: Operator, c: Collectors) returns (r: Staged<nat>)
    requires store.Valid() && control.Valid()
    modifies store.signals, store`lastRowId
    modifies control`paused, control`cancelled, control`gateOpen, control`currentStage, op`reached
    ensures store.Valid() && control.Valid() && control.currentStage == "collection"
    ensures op.reached == old(op.reached) + 1
    ensures r.Done? <==> GateOf(control.State()) == Proceed
    ensures r.Done? ==> r.value == |CollectedSignals(c)|
    ensures r.Done? ==>
      Conn(store.signals.rows, store.lastRowId) == Collect(Conn(old(store.signals.rows), old(store.lastRowId)), CollectedSignals(c))
    ensures r.Stopped? ==> store.signals.rows == old(store.signals.rows) && store.lastRowId == old(store.lastRowId)
    ensures r.Stopped? ==> r.why == StopOf(GateOf(control.State()))
  {
    control.currentStage := "collection";
    var rss := RssCollector.CollectAllRss(c.sources, c.parse, c.signalId, c.iso);
    var g := Check(control, op);
    if g != Proceed {
      return Stopped(StopOf(g));
    }
    var scraped, pauses := WebScraper.CollectAllScraped(c.sources, c.fetch, c.signalId, c.requestDelayMs);
    var newCount, reprocessed := StoreCollected(store, rss + scraped);
    r := Done(newCount + reprocessed);
  }

  // ---------------------------------------------------------------- validation

  /** `update_signal_status(..., st)` as a step over the rows. */
  function Marker(st: Status): (seq<Signal>, Signal) -> seq<Signal> {
    (rows: seq<Signal>, s: Signal) => StatusSet(rows, s.id, st)
  }

  /** The rows after setting the status of each of `ss` in turn. */
  function Marked(rows: seq<Signal>, ss: seq<Signal>, st: Status): seq<Signal> {
    Seqs.Fold(rows, ss, Marker(st))
  }

  lemma MarkedLast(rows: seq<Signal>, ss: seq<Signal>, k: nat, st: Status)
    requires k < |ss|
    ensures Marked(rows, ss[..k + 1], st) == StatusSet(Marked(rows, ss[..k], st), ss[k].id, st)
  {
    Seqs.FoldLast(rows, ss, k, Marker(st));
  }

  predicate HasId(ss: seq<Signal>, id: nat) {
    exists j :: 0 <= j < |ss| && ss[j].id == id
  }

  /** Setting the statuses changes the status of exactly the rows whose id is among
      the signals, and nothing else. */
  lemma {:induction false} MarkedRows(rows: seq<Signal>, ss: seq<Signal>, st: Status)
    requires SignalRows(rows)
    ensures SignalRows(Marked(rows, ss, st)) && |Marked(rows, ss, st)| == |rows|
    ensures forall i :: 0 <= i < |rows| ==>
      Marked(rows, ss, st)[i] == if HasId(ss, i + 1) then rows[i].(status := st) else rows[i]
    decreases |ss|
  {
    if ss != [] {
      var init := ss[..|ss| - 1];
      var last := ss[|ss| - 1];
      MarkedRows(rows, init, st);
      var before := Marked(rows, init, st);
      assert Marked(rows, ss, st) == StatusSet(before, last.id, st);
      StatusSetOnly(before, last.id, st);
      forall i | 0 <= i < |rows|
        ensures Marked(rows, ss, st)[i] == if HasId(ss, i + 1) then rows[i].(status := st) else rows[i]
      {
        if i + 1 == last.id {
          assert ss[|ss| - 1].id == i + 1;
        } else {
          if HasId(ss, i + 1) {
            var j :| 0 <= j < |ss| && ss[j].id == i + 1;
            assert init[j] == ss[j];
          }
          if HasId(init, i + 1) {
            var j :| 0 <= j < |init| && init[j].id == i + 1;
            assert ss[j] == init[j];
          }
        }
      }
    }
  }

  /** Setting the status of every row with status `from` to `to` moves exactly those
      rows, so that afterwards no row has `from` (when the two differ). */
  lemma MarkedWithStatus(rows: seq<Signal>, from: Status, to: Status)
    requires SignalRows(rows)
    ensures SignalRows(Marked(rows, WithStatus(rows, from), to))
    ensures |Marked(rows, WithStatus(rows, from), to)| == |rows|
    ensures forall i :: 0 <= i < |rows| ==>
      Marked(rows, WithStatus(rows, from), to)[i] == if rows[i].status == from then rows[i].(status := to) else rows[i]
  {
    var found := WithStatus(rows, from);
    MarkedRows(rows, found, to);
    forall i | 0 <= i < |rows|
      ensures HasId(found, i + 1) <==> rows[i].status == from
    {
      HasIdWithStatus(rows, from, i);
    }
  }

  /** A row's id is among the rows with a status exactly when the row has it. */
  lemma HasIdWithStatus(rows: seq<Signal>, st: Status, i: nat)
    requires SignalRows(rows) && i < |rows|
    ensures HasId(WithStatus(rows, st), i + 1) <==> rows[i].status == st
  {
    var found := WithStatus(rows, st);
    if rows[i].status == st {
      WithStatusExact(rows, st, rows[i]);
      var j :| 0 <= j < |found| && found[j] == rows[i];
      assert found[j].id == i + 1;
    }
    if HasId(found, i + 1) {
      var j :| 0 <= j < |found| && found[j].id == i + 1;
      WithStatusExact(rows, st, found[j]);
      var m :| 0 <= m < |rows| && rows[m] == found[j];
      assert m == i;
    }
  }

  /** The body of the validation loop: validate the signal, then mark it validated. */
  method ValidateOne(store: Store, s: Signal, netloc: string -> string, search: Signal -> seq<Corroboration>)
    requires store.Valid()
    modifies store.signals, store.validations
    ensures store.Valid()
    ensures store.signals.rows == StatusSet(old(store.signals.rows), s.id, Validated)
    ensures store.validations.rows == old(store.validations.rows) + Validator.Reports(s, netloc, search)
  {
    var result := Validator.ValidateSignal(store.validations, s, netloc, search);
    StatusSetOnly(store.signals.rows, s.id, Validated);
    store.signals.SetStatus(s.id, Validated);
  }

  /** The validation loop over the signals found: a checkpoint before each. */
  method ValidateAll(store: Store, control: PipelineControl, op: Operator, found: seq<Signal>,
                     netloc: string -> string, search: Signal -> seq<Corroboration>) returns (r: Staged<nat>)
    requires store.Valid() && control.Valid()
    modifies store.signals, store.validations, control`paused, control`cancelled, control`gateOpen, op`reached
    ensures store.Valid() && control.Valid()
    ensures r.Stopped? ==> r.why != ScoringRaised
    ensures r.Done? ==>
      && r.value == |found|
      && op.reached == old(op.reached) + |found|
      && store.signals.rows == Marked(old(store.signals.rows), found, Validated)
      && store.validations.rows == old(store.validations.rows) + Validator.AllReports(found, Validator.IndependentOf(netloc, search))
  {
    ghost var rows0, reports0 := store.signals.rows, store.validations.rows;
    var validated := 0;
    while validated < |found|
      invariant validated <= |found|
      invariant store.Valid() && control.Valid()
      invariant op.reached == old(op.reached) + validated
      invariant store.signals.rows == Marked(rows0, found[..validated], Validated)
      invariant store.validations.rows == reports0 + Validator.ReportsOfFirst(found, validated, Validator.IndependentOf(netloc, search))
    {
      MarkedLast(rows0, found, validated, Validated);
      Validator.AllReportsLast(reports0, found, validated, Validator.IndependentOf(netloc, search));
      var g := Check(control, op);
      if g != Proceed {
        return Stopped(StopOf(g));
      }
      ValidateOne(store, found[validated], netloc, search);
      validated := validated + 1;
    }
    assert found[..validated] == found;
    r := Done(validated);
  }

  /** `stage_validate`: a checkpoint before each new signal, which is validated and
      marked validated; the count is the number of new signals. */
  method StageValidate(store: Store, control: PipelineControl, op: Operator, netloc: string -> string,
                       search: Signal -> seq<Corroboration>) returns (r: Staged<nat>)
    requires store.Valid() && control.Valid()
    modifies store.signals, store.validations
    modifies control`paused, control`cancelled, control`gateOpen, control`currentStage, op`reached
    ensures store.Valid() && control.Valid() && control.currentStage == "validation"
    ensures r.Stopped? ==> r.why != ScoringRaised
    ensures r.Done? ==>
      var found := WithStatus(old(store.signals.rows), New);
      && r.value == |found|
      && op.reached == old(op.reached) + r.value
      && store.signals.rows == Marked(old(store.signals.rows), found, Validated)
      && store.validations.rows == old(store.validations.rows) + Validator.AllReports(found, Validator.IndependentOf(netloc, search))
  {
    control.currentStage := "validation";
    var found := store.signals.ByStatus(New);
    r := ValidateAll(store, control, op, found, netloc, search);
  }

  // ---------------------------------------------------------------- scoring

  /** `AI_BATCH_SIZE` */
  const BatchSize: nat := 10

  /** `thresholds.get("include_in_digest", 4.0)` */
  function MinScore(t: Thresholds): real {
    if t.includeInDigest.Some? then t.includeInDigest.value else 4.0
  }

  /** `thresholds.get("max_signals_per_digest", 25)` */
  function MaxSignals(t: Thresholds): int {
    if t.maxSignalsPerDigest.Some? then t.maxSignalsPerDigest.value else 25
  }

  /** One batch: the batch scorer when the client is available and the batch has
      more than one signal, otherwise `score_signal` of each signal. */
  function BatchScored(remote: Scorer.Remote, cx: Scorer.Setup, batch: seq<Signal>): Scorer.Outcome<seq<Analysis>> {
    if remote.available && |batch| > 1 then Scorer.ScoreBatch(remote, cx, batch)
    else Scorer.Collect(Scorer.EachScored(remote, cx, batch))
  }

  /** The scorer of a run, as the function the scoring stage applies to each batch. */
  function BatchScorer(remote: Scorer.Remote, cx: Scorer.Setup): seq<Signal> -> Scorer.Outcome<seq<Analysis>> {
    (batch: seq<Signal>) => BatchScored(remote, cx, batch)
  }

  /** A batch scorer that returns gives one analysis per signal. */
  ghost predicate Aligns(score: seq<Signal> -> Scorer.Outcome<seq<Analysis>>) {
    forall batch :: score(batch).Returned? ==> |score(batch).value| == |batch|
  }

  lemma BatchScorerAligns(remote: Scorer.Remote, cx: Scorer.Setup)
    ensures Aligns(BatchScorer(remote, cx))
  {
    forall batch | BatchScored(remote, cx, batch).Returned?
      ensures |BatchScored(remote, cx, batch).value| == |batch|
    {
      if remote.available && |batch| > 1 {
        if Scorer.Aligned(Scorer.BatchReply(remote, cx, batch), |batch|) {
          Scorer.ScoreBatchAligned(remote, cx, batch);
        } else {
          Scorer.ScoreBatchUnaligned(remote, cx, batch);
        }
      }
    }
  }

  /** The first result followed by the second, or the exception of either. */
  function Then(a: Scorer.Outcome<seq<Analysis>>, b: Scorer.Outcome<seq<Analysis>>): Scorer.Outcome<seq<Analysis>> {
    if a.Thrown? || b.Thrown? then Scorer.Thrown else Scorer.Returned(a.value + b.value)
  }

  /** The analyses of the signals, scored in consecutive batches of `BatchSize`
      from the front, or the exception of the first batch that raises. */
  function Scoring(score: seq<Signal> -> Scorer.Outcome<seq<Analysis>>, signals: seq<Signal>): (r: Scorer.Outcome<seq<Analysis>>)
    requires Aligns(score)
    ensures r.Returned? ==> |r.value| == |signals|
    decreases |signals|
  {
    if signals == [] then Scorer.Returned([])
    else
      var n := if |signals| < BatchSize then |signals| else BatchSize;
      Then(score(signals[..n]), Scoring(score, signals[n..]))
  }

  /** The number of batches, one checkpoint each. */
  function Batches(n: nat): nat
    decreases n
  {
    if n == 0 then 0 else 1 + Batches(if n < BatchSize then 0 else n - BatchSize)
  }

  lemma {:induction false} BatchesCount(n: nat)
    ensures Batches(n) == (n + BatchSize - 1) / BatchSize
    decreases n
  {
    if n >= BatchSize {
      BatchesCount(n - BatchSize);
    }
  }

  /** A signal paired with its analysis, as `zip(batch, results)`. */
  function Zip(signals: seq<Signal>, analyses: seq<Analysis>): (ps: seq<ScoredSignal>)
    requires |signals| == |analyses|
    ensures |ps| == |signals|
  {
    seq(|signals|, i requires 0 <= i < |signals| => ScoredSignal(signals[i], analyses[i]))
  }

  lemma ZipConcat(a: seq<Signal>, b: seq<Signal>, x: seq<Analysis>, y: seq<Analysis>)
    requires |a| == |x| && |b| == |y|
    ensures Zip(a + b, x + y) == Zip(a, x) + Zip(b, y)
  {
  }

  /** `insert_analysis` as a step. */
  function PutAnalysis(m: map<nat, Analysis>, p: ScoredSignal): map<nat, Analysis> {
    m[p.signal.id := p.analysis]
  }

  /** `save_signal_bus` as a step. */
  function PutLinks(m: map<nat, seq<BuMatch>>, p: ScoredSignal): map<nat, seq<BuMatch>> {
    m[p.signal.id := p.analysis.buMatches]
  }

  /** `analysis["composite"] >= min_score` */
  function AtLeast(min: real): ScoredSignal -> bool {
    (p: ScoredSignal) => p.analysis.composite >= min
  }

  /** The body of the inner loop over one batch: each analysis stored, its units
      saved, the signal marked scored, and the signals that reach the threshold kept. */
  method RecordBatch(store: Store, batch: seq<Signal>, analyses: seq<Analysis>, minScore: real)
    returns (kept: seq<ScoredSignal>)
    requires |batch| == |analyses| && store.signals.Valid()
    modifies store.signals, store.analyses, store.buLinks
    ensures store.signals.Valid()
    ensures store.analyses.byId == Seqs.Fold(old(store.analyses.byId), Zip(batch, analyses), PutAnalysis)
    ensures store.buLinks.links == Seqs.Fold(old(store.buLinks.links), Zip(batch, analyses), PutLinks)
    ensures store.signals.rows == Marked(old(store.signals.rows), batch, Scored)
    ensures kept == Seqs.Filter(Zip(batch, analyses), AtLeast(minScore))
  {
    var ps := Zip(batch, analyses);
    ghost var byId0, links0, rows0 := store.analyses.byId, store.buLinks.links, store.signals.rows;
    kept := [];
    var j := 0;
    while j < |ps|
      invariant j <= |ps| && store.signals.Valid()
      invariant store.analyses.byId == Seqs.Fold(byId0, ps[..j], PutAnalysis)
      invariant store.buLinks.links == Seqs.Fold(links0, ps[..j], PutLinks)
      invariant store.signals.rows == Marked(rows0, batch[..j], Scored)
      invariant kept == Seqs.Filter(ps[..j], AtLeast(minScore))
    {
      var p := ps[j];
      Seqs.FoldLast(byId0, ps, j, PutAnalysis);
      Seqs.FoldLast(links0, ps, j, PutLinks);
      MarkedLast(rows0, batch, j, Scored);
      Seqs.FilterLast(ps, j, AtLeast(minScore));
      store.analyses.Put(p.signal.id, p.analysis);
      store.buLinks.Save(p.signal.id, p.analysis.buMatches);
      StatusSetOnly(store.signals.rows, p.signal.id, Scored);
      store.signals.SetStatus(p.signal.id, Scored);
      if p.analysis.composite >= minScore {
        kept := kept + [p];
      }
      j := j + 1;
    }
    assert ps[..j] == ps;
    assert batch[..j] == batch;
  }

  /** `if len(scored) > max_signals: scored = scored[:max_signals]`, with Python's
      slice of a negative bound. */
  function Cap(s: seq<ScoredSignal>, max: int): (r: seq<ScoredSignal>)
    ensures |r| <= |s| && r == s[..|r|]
    ensures max >= 0 ==> |r| == if |s| > max then max else |s|
  {
    if |s| <= max then s
    else if max >= 0 then s[..max]
    else if |s| + max > 0 then s[..|s| + max]
    else []
  }

  /** The pairs that reach the threshold, in scoring order. */
  function Passing(signals: seq<Signal>, analyses: seq<Analysis>, t: Thresholds): seq<ScoredSignal>
    requires |signals| == |analyses|
  {
    Seqs.Filter(Zip(signals, analyses), AtLeast(MinScore(t)))
  }

  /** What scoring hands on: the signals reaching the threshold, highest composite
      first (ties in scoring order), capped. */
  function Selected(signals: seq<Signal>, analyses: seq<Analysis>, t: Thresholds): seq<ScoredSignal>
    requires |signals| == |analyses|
  {
    Cap(Sorting.SortDesc(Passing(signals, analyses, t), Composer.Composite), MaxSignals(t))
  }

  /** The digest's choice is highest composite first, and takes each passing pair at
      most as often as it passed. */
  lemma SelectedSorted(signals: seq<Signal>, analyses: seq<Analysis>, t: Thresholds)
    requires |signals| == |analyses|
    ensures Sorting.SortedDesc(Selected(signals, analyses, t), Composer.Composite)
    ensures multiset(Selected(signals, analyses, t)) <= multiset(Passing(signals, analyses, t))
  {
    var ranked := Sorting.SortDesc(Passing(signals, analyses, t), Composer.Composite);
    var m := |Selected(signals, analyses, t)|;
    Sorting.SortDescSorted(Passing(signals, analyses, t), Composer.Composite);
    Sorting.PrefixSorted(ranked, m, Composer.Composite);
    assert ranked == ranked[..m] + ranked[m..];
  }

  /** Every chosen pair was scored and reaches the threshold. */
  lemma SelectedPassing(signals: seq<Signal>, analyses: seq<Analysis>, t: Thresholds)
    requires |signals| == |analyses|
    ensures forall k :: 0 <= k < |Selected(signals, analyses, t)| ==>
      Selected(signals, analyses, t)[k].analysis.composite >= MinScore(t)
      && Selected(signals, analyses, t)[k] in Zip(signals, analyses)
  {
    var sel := Selected(signals, analyses, t);
    SelectedSorted(signals, analyses, t);
    forall k | 0 <= k < |sel|
      ensures sel[k].analysis.composite >= MinScore(t) && sel[k] in Zip(signals, analyses)
    {
      assert sel[k] in multiset(Passing(signals, analyses, t));
      Seqs.FilterExact(Zip(signals, analyses), AtLeast(MinScore(t)), sel[k]);
    }
  }

  /** With a cap that is not negative the digest takes as many passing pairs as the
      cap allows, or all of them when there are fewer. */
  lemma SelectedSize(signals: seq<Signal>, analyses: seq<Analysis>, t: Thresholds)
    requires |signals| == |analyses| && MaxSignals(t) >= 0
    ensures var n := |Passing(signals, analyses, t)|;
      |Selected(signals, analyses, t)| == if n > MaxSignals(t) then MaxSignals(t) else n
  {
  }

  /** No passing pair left out scores above a pair that was chosen. */
  lemma SelectedDominates(signals: seq<Signal>, analyses: seq<Analysis>, t: Thresholds, x: ScoredSignal)
    requires |signals| == |analyses|
    requires Outranked(Selected(signals, analyses, t), Passing(signals, analyses, t), x)
    ensures forall k :: 0 <= k < |Selected(signals, analyses, t)| ==>
      Selected(signals, analyses, t)[k].analysis.composite >= x.analysis.composite
  {
    var ranked := Sorting.SortDesc(Passing(signals, analyses, t), Composer.Composite);
    var sel := Selected(signals, analyses, t);
    var m := |sel|;
    Sorting.SortDescSorted(Passing(signals, analyses, t), Composer.Composite);
    Sorting.PrefixDominates(ranked, m, Composer.Composite);
    var j := Seqs.LeftOut(ranked, m, x);
  }

  /** `x` reaches the threshold more often than it was chosen. */
  predicate Outranked(sel: seq<ScoredSignal>, passing: seq<ScoredSignal>, x: ScoredSignal) {
    multiset(sel)[x] < multiset(passing)[x]
  }

  /** What the scoring loop has accumulated: the analyses so far, the signals kept,
      the `signal_analysis`, `signal_bus` and `signals` tables, and the batches done. */
  datatype Progress = Progress(
    analyses: seq<Analysis>,
    passing: seq<ScoredSignal>,
    byId: map<nat, Analysis>,
    links: map<nat, seq<BuMatch>>,
    rows: seq<Signal>,
    batches: nat)

  /** One batch recorded. */
  function Advance(p: Progress, batch: seq<Signal>, more: seq<Analysis>, min: real): Progress
    requires |batch| == |more|
  {
    var ps := Zip(batch, more);
    Progress(p.analyses + more, p.passing + Seqs.Filter(ps, AtLeast(min)), Seqs.Fold(p.byId, ps, PutAnalysis),
      Seqs.Fold(p.links, ps, PutLinks), Marked(p.rows, batch, Scored), p.batches + 1)
  }

  /** The scoring loop from a given point: the batches from the front, each scored and
      recorded, or the exception of the first batch that raises. */
  function Loop(score: seq<Signal> -> Scorer.Outcome<seq<Analysis>>, signals: seq<Signal>, p: Progress, min: real)
    : Scorer.Outcome<Progress>
    requires Aligns(score)
    decreases |signals|
  {
    if signals == [] then Scorer.Returned(p)
    else
      var n := if |signals| < BatchSize then |signals| else BatchSize;
      var b := score(signals[..n]);
      if b.Thrown? then Scorer.Thrown else Loop(score, signals[n..], Advance(p, signals[..n], b.value, min), min)
  }

  /** The loop raises exactly when the scoring of the signals raises. */
  lemma {:induction false} LoopRaises(score: seq<Signal> -> Scorer.Outcome<seq<Analysis>>, signals: seq<Signal>, p: Progress, min: real)
    requires Aligns(score)
    ensures Loop(score, signals, p, min).Thrown? <==> Scoring(score, signals).Thrown?
    decreases |signals|
  {
    if signals != [] {
      var n := if |signals| < BatchSize then |signals| else BatchSize;
      var b := score(signals[..n]);
      if b.Returned? {
        LoopRaises(score, signals[n..], Advance(p, signals[..n], b.value, min), min);
      }
    }
  }

  /** When the loop completes, its analyses are those of `Scoring` after the ones it
      started with. */
  lemma {:induction false} LoopAnalyses(score: seq<Signal> -> Scorer.Outcome<seq<Analysis>>, signals: seq<Signal>, p: Progress, min: real)
    requires Aligns(score)
    ensures Loop(score, signals, p, min).Returned? ==>
      && Scoring(score, signals).Returned?
      && Loop(score, signals, p, min).value.analyses == p.analyses + Scoring(score, signals).value
    decreases |signals|
  {
    if signals == [] {
      assert p.analyses + [] == p.analyses;
    } else {
      var n := if |signals| < BatchSize then |signals| else BatchSize;
      var b := score(signals[..n]);
      if b.Returned? {
        var q := Advance(p, signals[..n], b.value, min);
        assert q.analyses == p.analyses + b.value;
        assert Loop(score, signals, p, min) == Loop(score, signals[n..], q, min);
        LoopAnalyses(score, signals[n..], q, min);
        if Loop(score, signals, p, min).Returned? {
          var rest := Scoring(score, signals[n..]).value;
          assert Scoring(score, signals) == Scorer.Returned(b.value + rest);
          assert (p.analyses + b.value) + rest == p.analyses + (b.value + rest);
        }
      }
    }
  }

  /** When the loop completes, it has gone through one batch per ten signals. */
  lemma {:induction false} LoopBatches(score: seq<Signal> -> Scorer.Outcome<seq<Analysis>>, signals: seq<Signal>, p: Progress, min: real)
    requires Aligns(score)
    ensures Loop(score, signals, p, min).Returned? ==>
      Loop(score, signals, p, min).value.batches == p.batches + Batches(|signals|)
    decreases |signals|
  {
    if signals != [] {
      var n := if |signals| < BatchSize then |signals| else BatchSize;
      var b := score(signals[..n]);
      if b.Returned? {
        LoopBatches(score, signals[n..], Advance(p, signals[..n], b.value, min), min);
      }
    }
  }

  /** When the loop completes, the signals it kept are those of the pairs that reach
      the threshold, in scoring order, after the ones it started with. */
  lemma {:induction false} LoopPassing(score: seq<Signal> -> Scorer.Outcome<seq<Analysis>>, signals: seq<Signal>, p: Progress, min: real)
    requires Aligns(score)
    ensures Loop(score, signals, p, min).Returned? ==>
      && Scoring(score, signals).Returned?
      && Loop(score, signals, p, min).value.passing
         == p.passing + Seqs.Filter(Zip(signals, Scoring(score, signals).value), AtLeast(min))
    decreases |signals|
  {
    if signals == [] {
      assert p.passing + [] == p.passing;
    } else {
      var n := if |signals| < BatchSize then |signals| else BatchSize;
      var b := score(signals[..n]);
      if b.Returned? {
        var q := Advance(p, signals[..n], b.value, min);
        LoopPassing(score, signals[n..], q, min);
        if Loop(score, signals, p, min).Returned? {
          assert signals == signals[..n] + signals[n..];
          PassingConcat(p.passing, signals[..n], signals[n..], b.value, Scoring(score, signals[n..]).value, min);
        }
      }
    }
  }

  /** The kept signals of two runs of pairs, one after the other, are those of the
      joined pairs. */
  lemma PassingConcat(passing: seq<ScoredSignal>, a: seq<Signal>, b: seq<Signal>, x: seq<Analysis>, y: seq<Analysis>, min: real)
    requires |a| == |x| && |b| == |y|
    ensures (passing + Seqs.Filter(Zip(a, x), AtLeast(min))) + Seqs.Filter(Zip(b, y), AtLeast(min))
      == passing + Seqs.Filter(Zip(a + b, x + y), AtLeast(min))
  {
    ZipConcat(a, b, x, y);
    Seqs.FilterConcat(Zip(a, x), Zip(b, y), AtLeast(min));
  }

  /** When the loop completes, each table holds what storing every pair, in order,
      makes of what it held before. */
  lemma {:induction false} LoopTables(score: seq<Signal> -> Scorer.Outcome<seq<Analysis>>, signals: seq<Signal>, p: Progress, min: real)
    requires Aligns(score)
    ensures Loop(score, signals, p, min).Returned? ==>
      && Scoring(score, signals).Returned?
      && Loop(score, signals, p, min).value.byId == Seqs.Fold(p.byId, Zip(signals, Scoring(score, signals).value), PutAnalysis)
      && Loop(score, signals, p, min).value.links == Seqs.Fold(p.links, Zip(signals, Scoring(score, signals).value), PutLinks)
      && Loop(score, signals, p, min).value.rows == Marked(p.rows, signals, Scored)
    decreases |signals|
  {
    if signals != [] {
      var n := if |signals| < BatchSize then |signals| else BatchSize;
      var b := score(signals[..n]);
      if b.Returned? {
        var q := Advance(p, signals[..n], b.value, min);
        LoopTables(score, signals[n..], q, min);
        if Loop(score, signals, p, min).Returned? {
          var rest := Scoring(score, signals[n..]).value;
          assert signals == signals[..n] + signals[n..];
          ZipConcat(signals[..n], signals[n..], b.value, rest);
          Seqs.FoldConcat(p.byId, Zip(signals[..n], b.value), Zip(signals[n..], rest), PutAnalysis);
          Seqs.FoldConcat(p.links, Zip(signals[..n], b.value), Zip(signals[n..], rest), PutLinks);
          Seqs.FoldConcat(p.rows, signals[..n], signals[n..], Marker(Scored));
        }
      }
    }
  }

  /** The loop started with nothing kept and no batch done, summed up: it raises
      exactly when the scoring does, and otherwise ends with the kept pairs, one
      checkpoint per batch, and each table holding every pair stored in order. */
  lemma LoopSummary(score: seq<Signal> -> Scorer.Outcome<seq<Analysis>>, signals: seq<Signal>, start: Progress, min: real)
    requires Aligns(score) && start.passing == [] && start.analyses == [] && start.batches == 0
    ensures Loop(score, signals, start, min).Thrown? <==> Scoring(score, signals).Thrown?
    ensures Loop(score, signals, start, min).Returned? ==>
      var done, analyses := Loop(score, signals, start, min).value, Scoring(score, signals).value;
      && |analyses| == |signals|
      && done.passing == Seqs.Filter(Zip(signals, analyses), AtLeast(min))
      && done.batches == Batches(|signals|)
      && done.byId == Seqs.Fold(start.byId, Zip(signals, analyses), PutAnalysis)
      && done.links == Seqs.Fold(start.links, Zip(signals, analyses), PutLinks)
      && done.rows == Marked(start.rows, signals, Scored)
  {
    LoopRaises(score, signals, start, min);
    LoopAnalyses(score, signals, start, min);
    LoopBatches(score, signals, start, min);
    LoopPassing(score, signals, start, min);
    LoopTables(score, signals, start, min);
    if Loop(score, signals, start, min).Returned? {
      var analyses := Scoring(score, signals).value;
      assert [] + Seqs.Filter(Zip(signals, analyses), AtLeast(min)) == Seqs.Filter(Zip(signals, analyses), AtLeast(min));
    }
  }

  /** The store's tables are those the progress records. */
  predicate Mirrors(store: Store, p: Progress)
    reads store, store.signals, store.analyses, store.buLinks
  {
    store.analyses.byId == p.byId && store.buLinks.links == p.links && store.signals.rows == p.rows
  }

  /** What one batch of the loop from signal `i` does: it takes `n` signals and,
      unless scoring raises, goes on from the next point with those signals' pairs
      kept and one more batch counted. */
  ghost predicate Stepped(score: seq<Signal> -> Scorer.Outcome<seq<Analysis>>, found: seq<Signal>, i: nat, p: Progress,
                          minScore: real, thrown: bool, kept: seq<ScoredSignal>, n: nat, next: Progress)
    requires Aligns(score)
  {
    && 0 < n && i + n <= |found|
    && (thrown ==> Loop(score, found[i..], p, minScore).Thrown?)
    && (!thrown ==>
          && Loop(score, found[i..], p, minScore) == Loop(score, found[i + n..], next, minScore)
          && next.passing == p.passing + kept && next.batches == p.batches + 1)
  }

  /** One batch of the scoring loop: the next (at most) ten signals scored and,
      unless scoring raises, recorded. */
  method ScoreRound(store: Store, score: seq<Signal> -> Scorer.Outcome<seq<Analysis>>, found: seq<Signal>, i: nat,
                    ghost p: Progress, minScore: real)
    returns (thrown: bool, kept: seq<ScoredSignal>, n: nat, ghost next: Progress)
    requires i < |found| && store.signals.Valid() && Aligns(score) && Mirrors(store, p)
    modifies store.signals, store.analyses, store.buLinks
    ensures store.signals.Valid()
    ensures thrown ==> Stepped(score, found, i, p, minScore, true, kept, n, next)
    ensures !thrown ==> Stepped(score, found, i, p, minScore, false, kept, n, next) && Mirrors(store, next)
  {
    n := if |found| - i < BatchSize then |found| - i else BatchSize;
    var batch := found[i..i + n];
    assert found[i..][..n] == batch && found[i..][n..] == found[i + n..];
    var res := score(batch);
    if res.Thrown? {
      return true, [], n, p;
    }
    kept := RecordBatch(store, batch, res.value, minScore);
    next := Advance(p, batch, res.value, minScore);
    thrown := false;
  }

  /** The scoring loop's state at `i`: the loop over what is left from `i` on,
      carrying `p`, ends as `whole`; the store's tables are `p`'s, and `passing`
      is what `p` has kept. */
  ghost predicate Looping(store: Store, score: seq<Signal> -> Scorer.Outcome<seq<Analysis>>, found: seq<Signal>,
                          whole: Scorer.Outcome<Progress>, minScore: real, i: int, passing: seq<ScoredSignal>, p: Progress)
    reads store, store.signals, store.analyses, store.buLinks
    requires Aligns(score)
  {
    && 0 <= i <= |found| && whole == Loop(score, found[i..], p, minScore)
    && store.signals.Valid() && Mirrors(store, p) && passing == p.passing
  }

  /** One batch of the scoring loop, from one loop state to the next. */
  method ScoreBatch(store: Store, score: seq<Signal> -> Scorer.Outcome<seq<Analysis>>, found: seq<Signal>,
                    ghost whole: Scorer.Outcome<Progress>, i: nat, passing: seq<ScoredSignal>, ghost p: Progress,
                    minScore: real)
    returns (thrown: bool, i': nat, passing': seq<ScoredSignal>, ghost next: Progress)
    requires i < |found| && Aligns(score) && Looping(store, score, found, whole, minScore, i, passing, p)
    modifies store.signals, store.analyses, store.buLinks
    ensures store.signals.Valid()
    ensures thrown ==> whole.Thrown?
    ensures !thrown ==>
      && i < i' && next.batches == p.batches + 1 && Looping(store, score, found, whole, minScore, i', passing', next)
  {
    var kept, n;
    thrown, kept, n, next := ScoreRound(store, score, found, i, p, minScore);
    i', passing' := i + n, passing + kept;
  }

  /** One round of the loop of `stage_score`: a checkpoint, then a batch. */
  method ScoreNext(store: Store, control: PipelineControl, op: Operator, score: seq<Signal> -> Scorer.Outcome<seq<Analysis>>,
                   found: seq<Signal>, ghost whole: Scorer.Outcome<Progress>, i: nat, passing: seq<ScoredSignal>,
                   ghost p: Progress, minScore: real)
    returns (stop: Option<Stop>, i': nat, passing': seq<ScoredSignal>, ghost next: Progress)
    requires i < |found| && control.Valid() && Aligns(score) && Looping(store, score, found, whole, minScore, i, passing, p)
    modifies store.signals, store.analyses, store.buLinks, control`paused, control`cancelled, control`gateOpen, op`reached
    ensures control.Valid() && store.signals.Valid()
    ensures stop == Some(ScoringRaised) ==> whole.Thrown?
    ensures stop.None? ==>
      && i < i' && op.reached == old(op.reached) + 1 && next.batches == p.batches + 1
      && Looping(store, score, found, whole, minScore, i', passing', next)
  {
    var g := Check(control, op);
    if g != Proceed {
      return Some(StopOf(g)), i, passing, p;
    }
    var thrown;
    thrown, i', passing', next := ScoreBatch(store, score, found, whole, i, passing, p, minScore);
    stop := if thrown then Some(ScoringRaised) else None;
  }

  /** The scoring loop of `stage_score`: a checkpoint before each batch, the batch
      scored, and every analysis stored before the next batch. */
  method ScoreAll(store: Store, control: PipelineControl, op: Operator, score: seq<Signal> -> Scorer.Outcome<seq<Analysis>>,
                  found: seq<Signal>, minScore: real)
    returns (r: Staged<seq<ScoredSignal>>, ghost done: Progress)
    requires control.Valid() && store.signals.Valid() && Aligns(score)
    modifies store.signals, store.analyses, store.buLinks, control`paused, control`cancelled, control`gateOpen, op`reached
    ensures control.Valid() && store.signals.Valid()
    ensures r.Stopped? && r.why == ScoringRaised ==>
      Loop(score, found, Progress([], [], old(store.analyses.byId), old(store.buLinks.links), old(store.signals.rows), 0), minScore).Thrown?
    ensures r.Done? ==>
      && Loop(score, found, Progress([], [], old(store.analyses.byId), old(store.buLinks.links), old(store.signals.rows), 0), minScore)
         == Scorer.Returned(done)
      && r.value == done.passing && op.reached == old(op.reached) + done.batches && Mirrors(store, done)
  {
    ghost var start := Progress([], [], store.analyses.byId, store.buLinks.links, store.signals.rows, 0);
    ghost var reached0 := op.reached;
    ghost var p := start;
    ghost var whole := Loop(score, found, start, minScore);
    var passing: seq<ScoredSignal> := [];
    var i := 0;
    assert found[0..] == found;
    while i < |found|
      invariant control.Valid() && op.reached == reached0 + p.batches
      invariant Looping(store, score, found, whole, minScore, i, passing, p)
      decreases |found| - i
    {
      var stop;
      stop, i, passing, p := ScoreNext(store, control, op, score, found, whole, i, passing, p, minScore);
      if stop.Some? {
        return Stopped(stop.value), start;
      }
    }
    assert found[i..] == [];
    done := p;
    r := Done(passing);
  }

  /** `stage_score`: nothing to do without validated signals; otherwise every
      validated signal is scored batch by batch and stored, and the signals that
      reach the threshold are returned highest composite first, capped. */
  method StageScore(store: Store, control: PipelineControl, op: Operator, score: seq<Signal> -> Scorer.Outcome<seq<Analysis>>,
                    thresholds: Thresholds)
    returns (r: Staged<seq<ScoredSignal>>, ghost analyses: seq<Analysis>)
    requires store.Valid() && control.Valid() && Aligns(score)
    modifies store.signals, store.analyses, store.buLinks
    modifies control`paused, control`cancelled, control`gateOpen, control`currentStage, op`reached
    ensures store.Valid() && control.Valid() && control.currentStage == "scoring"
    ensures r.Stopped? && r.why == ScoringRaised ==> Scoring(score, WithStatus(old(store.signals.rows), Validated)).Thrown?
    ensures r.Done? ==>
      var found := WithStatus(old(store.signals.rows), Validated);
      && Scoring(score, found) == Scorer.Returned(analyses)
      && r.value == Selected(found, analyses, thresholds)
      && op.reached == old(op.reached) + Batches(|found|)
      && store.analyses.byId == Seqs.Fold(old(store.analyses.byId), Zip(found, analyses), PutAnalysis)
      && store.buLinks.links == Seqs.Fold(old(store.buLinks.links), Zip(found, analyses), PutLinks)
      && store.signals.rows == Marked(old(store.signals.rows), found, Scored)
  {
    control.currentStage := "scoring";
    var found := store.signals.ByStatus(Validated);
    if found == [] {
      return Done([]), [];
    }
    var minScore := MinScore(thresholds);
    ghost var start := Progress([], [], store.analyses.byId, store.buLinks.links, store.signals.rows, 0);
    var passing;
    ghost var done;
    passing, done := ScoreAll(store, control, op, score, found, minScore);
    LoopSummary(score, found, start, minScore);
    analyses := if Scoring(score, found).Returned? then Scoring(score, found).value else [];
    if passing.Stopped? {
      return passing, analyses;
    }
    var ranked := Sorting.SortDesc(passing.value, Composer.Composite);
    var maxSignals := MaxSignals(thresholds);
    if |ranked| > maxSignals {
      ranked := Cap(ranked, maxSignals);
    }
    r := Done(ranked);
  }

  // ---------------------------------------------------------------- delivery

  /** `send_email` as the pipeline calls it: the configured mode with its credentials,
      and for the `k`-th email sent in the run the outcome of each of its attempts. */
  datatype Mailer = Mailer(setup: Gmail.Setup, transport: nat -> nat -> Gmail.Attempt)

  /** `send_email`'s default number of attempts, which the pipeline keeps. */
  const MaxRetries: int := 3

  /** The results of sending the digest to each of `rs`, in order. */
  function Sends(rs: seq<Recipient>, mail: Mailer, pdfPath: Option<string>): seq<Gmail.SendResult>
    decreases |rs|
  {
    if rs == [] then []
    else
      var k := |rs| - 1;
      Sends(rs[..k], mail, pdfPath) + [Gmail.SendEmailSpec(mail.setup, rs[k].email, MaxRetries, pdfPath, mail.transport(k)).0]
  }

  /** One result per recipient, the `k`-th that of `send_email` to the `k`-th address
      with the `k`-th transport. */
  lemma {:induction false} SendsExact(rs: seq<Recipient>, mail: Mailer, pdfPath: Option<string>)
    ensures |Sends(rs, mail, pdfPath)| == |rs|
    ensures forall k :: 0 <= k < |rs| ==>
      Sends(rs, mail, pdfPath)[k] == Gmail.SendEmailSpec(mail.setup, rs[k].email, MaxRetries, pdfPath, mail.transport(k)).0
    decreases |rs|
  {
    if rs != [] {
      var k := |rs| - 1;
      SendsExact(rs[..k], mail, pdfPath);
    }
  }

  /** One more recipient adds one result, sent with the next transport. */
  lemma SendsLast(rs: seq<Recipient>, x: Recipient, mail: Mailer, pdfPath: Option<string>)
    ensures Sends(rs + [x], mail, pdfPath)
      == Sends(rs, mail, pdfPath) + [Gmail.SendEmailSpec(mail.setup, x.email, MaxRetries, pdfPath, mail.transport(|rs|)).0]
  {
    assert (rs + [x])[..|rs|] == rs;
  }

  /** `stage_deliver`: past every recipient that is not active; for each active one a
      checkpoint, then `send_email` to its address. */
  method StageDeliver(control: PipelineControl, op: Operator, recipients: seq<Recipient>, mail: Mailer, pdfPath: Option<string>)
    returns (r: Staged<seq<Gmail.SendResult>>)
    requires control.Valid()
    modifies control`paused, control`cancelled, control`gateOpen, control`currentStage, op`reached
    ensures control.Valid() && control.currentStage == "delivery"
    ensures r.Stopped? ==> r.why != ScoringRaised
    ensures r.Done? ==>
      var active := Seqs.Filter(recipients, IsActive);
      r.value == Sends(active, mail, pdfPath) && op.reached == old(op.reached) + |active|
  {
    control.currentStage := "delivery";
    var results: seq<Gmail.SendResult> := [];
    ghost var reached0 := op.reached;
    var i := 0;
    while i < |recipients|
      invariant i <= |recipients| && control.Valid() && control.currentStage == "delivery"
      invariant results == Sends(Seqs.Filter(recipients[..i], IsActive), mail, pdfPath)
      invariant |results| == |Seqs.Filter(recipients[..i], IsActive)| && op.reached == reached0 + |results|
    {
      Seqs.FilterLast(recipients, i, IsActive);
      ghost var before := Seqs.Filter(recipients[..i], IsActive);
      var recipient := recipients[i];
      if IsActive(recipient) {
        var g := Check(control, op);
        if g != Proceed {
          return Stopped(StopOf(g));
        }
        SendsLast(before, recipient, mail, pdfPath);
        var result, _ := Gmail.SendEmail(mail.setup, recipient.email, MaxRetries, pdfPath, mail.transport(|results|));
        results := results + [result];
        assert Seqs.Filter(recipients[..i + 1], IsActive) == before + [recipient];
      } else {
        assert Seqs.Filter(recipients[..i + 1], IsActive) == before;
      }
      i := i + 1;
    }
    assert recipients[..i] == recipients;
    r := Done(results);
  }

  // ---------------------------------------------------------------- composition

  /** What composing reads from outside: the business units, the digest's week, year
      and date range (taken from the clock), whether a PDF is wanted, how each PDF
      renderer fares, and the output directory. */
  datatype Composing = Composing(units: seq<BusinessUnit>, week: nat, year: int, dateRange: string,
                                 pdfMode: bool, weasyprint: Pdf.Engine, reportlab: Pdf.Engine, outDir: string)

  /** The composed digest: its template context, its subject and the PDF written, if any. */
  datatype Digest = Digest(context: Composer.DigestContext, subject: string, pdfPath: Option<string>)

  /** The composition both runners share: the digest context of the chosen signals
      and, in PDF mode, the PDF, whose failure of any kind (the fallback renderer
      missing included) leaves the digest without one. */
  method Compose(scored: seq<ScoredSignal>, comp: Composing) returns (d: Digest)
    ensures d.context == Composer.Context(scored, comp.units, comp.week, comp.year, comp.dateRange)
    ensures d.subject == d.context.subject
    ensures d.pdfPath.Some? <==> comp.pdfMode && (comp.weasyprint == Pdf.Works || comp.reportlab == Pdf.Works)
    ensures d.pdfPath.Some? ==> d.pdfPath.value == comp.outDir + "/" + Pdf.PdfFileName(None, comp.week, comp.year)
  {
    var context := Composer.BuildDigestContext(scored, comp.units, comp.week, comp.year, comp.dateRange);
    var pdfPath: Option<string> := None;
    if comp.pdfMode {
      var outcome := Pdf.GeneratePdf(comp.weasyprint, comp.reportlab, comp.outDir, None, context.week, context.year);
      Pdf.FallbackOrder(comp.weasyprint, comp.reportlab, comp.outDir, None, context.week, context.year);
      if outcome.Written? {
        pdfPath := Some(outcome.path);
      }
    }
    d := Digest(context, context.subject, pdfPath);
  }

  /** `stage_compose` */
  method StageCompose(control: PipelineControl, scored: seq<ScoredSignal>, comp: Composing) returns (d: Digest)
    requires control.Valid()
    modifies control`currentStage
    ensures control.Valid() && control.currentStage == "composition"
    ensures d.context == Composer.Context(scored, comp.units, comp.week, comp.year, comp.dateRange)
    ensures d.subject == d.context.subject
    ensures d.pdfPath.Some? <==> comp.pdfMode && (comp.weasyprint == Pdf.Works || comp.reportlab == Pdf.Works)
    ensures d.pdfPath.Some? ==> d.pdfPath.value == comp.outDir + "/" + Pdf.PdfFileName(None, comp.week, comp.year)
  {
    control.currentStage := "composition";
    d := Compose(scored, comp);
  }

  // ---------------------------------------------------------------- the run

  /** Everything a run reads from outside: the collectors, the validator's domain
      parser and search, the AI client, the scoring configuration, the clock's week,
      year and date, the business-unit names, composing, the recipient list, the
      mailer, and the text of the exception scoring raises, if it does. */
  datatype Inputs = Inputs(
    collectors: Collectors,
    netloc: string -> string,
    search: Signal -> seq<Corroboration>,
    remote: Scorer.Remote,
    setup: Scorer.Setup,
    week: nat,
    year: int,
    today: string,
    names: map<string, string>,
    comp: Composing,
    recipients: seq<Recipient>,
    mail: Mailer,
    raised: string)

  /** How the stages end: with no signal above the threshold, delivered, or stopped
      at a checkpoint or by scoring. */
  datatype Finish =
    | NoSignals(collected: nat, validated: nat)
    | Finished(collected: nat, validated: nat, scored: seq<ScoredSignal>, digest: Digest, deliveries: seq<Gmail.SendResult>)
    | Halted(why: Stop)

  /** What the first three stages hand on: the counts collected and validated and
      the signals chosen for the digest. */
  datatype Tally = Tally(collected: nat, validated: nat, scored: seq<ScoredSignal>)

  /** The signal rows once collection has run from `rows` on a connection whose last
      rowid is `lastRowId`. */
  function AfterCollect(rows: seq<Signal>, lastRowId: nat, c: Collectors): seq<Signal> {
    Collect(Conn(rows, lastRowId), CollectedSignals(c)).rows
  }

  /** The signal rows once validation has marked every row collection left 'new'. */
  function AfterValidate(rows: seq<Signal>, lastRowId: nat, c: Collectors): seq<Signal> {
    var collected := AfterCollect(rows, lastRowId, c);
    Marked(collected, WithStatus(collected, New), Validated)
  }

  /** After the run row, collection and validation leave every newly collected row
      'validated', and each stored row 'validated' exactly when it was 'new', and
      otherwise as it was. */
  lemma ValidatedAfterRun(rows: seq<Signal>, runId: nat, c: Collectors)
    requires SignalRows(rows) && runId >= 1
    ensures var after := AfterValidate(rows, runId, c);
      && SignalRows(after) && |rows| <= |after| == |AfterCollect(rows, runId, c)|
      && (forall i :: 0 <= i < |rows| ==>
            after[i] == if rows[i].status == New then rows[i].(status := Validated) else rows[i])
      && (forall i :: |rows| <= i < |after| ==> after[i].status == Validated)
      && (forall j :: 0 <= j < |CollectedSignals(c)| ==> Known(after, CollectedSignals(c)[j].externalId))
  {
    var collected := AfterCollect(rows, runId, c);
    var after := AfterValidate(rows, runId, c);
    CollectedAsWritten(rows, runId, CollectedSignals(c));
    MarkedWithStatus(collected, New, Validated);
    forall j | 0 <= j < |CollectedSignals(c)|
      ensures Known(after, CollectedSignals(c)[j].externalId)
    {
      var id := CollectedSignals(c)[j].externalId;
      var m :| 0 <= m < |collected| && collected[m].externalId == id;
      assert after[m].externalId == id;
    }
  }

  /** What the stages compute from the rows they start from, by how they end: past
      scoring, the counts of signals collected and validated (the rows collection
      left 'new'), and the digest selection over the rows validation left
      'validated' with what scoring returned for them; a failure by scoring is the
      scoring of those rows raising. */
  ghost predicate StagesAgree(rows: seq<Signal>, lastRowId: nat, f: Finish, inputs: Inputs,
                              score: seq<Signal> -> Scorer.Outcome<seq<Analysis>>)
  {
    var found := WithStatus(AfterValidate(rows, lastRowId, inputs.collectors), Validated);
    var thresholds := inputs.setup.scoring.thresholds;
    && Aligns(score)
    && (f.NoSignals? || f.Finished? ==>
          && f.collected == |CollectedSignals(inputs.collectors)|
          && f.validated == |WithStatus(AfterCollect(rows, lastRowId, inputs.collectors), New)|
          && Scoring(score, found).Returned?
          && |Scoring(score, found).value| == |found|)
    && (f.NoSignals? ==> Selected(found, Scoring(score, found).value, thresholds) == [])
    && (f.Finished? ==> f.scored == Selected(found, Scoring(score, found).value, thresholds))
    && (f.Halted? && f.why == ScoringRaised ==> Scoring(score, found).Thrown?)
  }

  /** The stages agree with the rows they started from when the first three handed
      on `t` and the run went on to end in `f`. */
  lemma TallyAgrees(rows: seq<Signal>, lastRowId: nat, t: Tally, f: Finish, inputs: Inputs,
                    score: seq<Signal> -> Scorer.Outcome<seq<Analysis>>, found: seq<Signal>, analyses: seq<Analysis>)
    requires Aligns(score)
    requires found == WithStatus(AfterValidate(rows, lastRowId, inputs.collectors), Validated)
    requires t.collected == |CollectedSignals(inputs.collectors)|
    requires t.validated == |WithStatus(AfterCollect(rows, lastRowId, inputs.collectors), New)|
    requires |found| == |analyses| && Scoring(score, found) == Scorer.Returned(analyses)
    requires t.scored == Selected(found, analyses, inputs.setup.scoring.thresholds)
    requires f.NoSignals? ==> f == NoSignals(t.collected, t.validated) && t.scored == []
    requires f.Finished? ==> f.collected == t.collected && f.validated == t.validated && f.scored == t.scored
    requires f.Halted? ==> f.why != ScoringRaised
    ensures StagesAgree(rows, lastRowId, f, inputs, score)
  {
  }

  /** Collection, validation and scoring, each followed by a checkpoint. */
  method EarlyStages(store: Store, control: PipelineControl, op: Operator, inputs: Inputs,
                     score: seq<Signal> -> Scorer.Outcome<seq<Analysis>>)
    returns (r: Staged<Tally>, ghost found: seq<Signal>, ghost analyses: seq<Analysis>)
    requires store.Valid() && control.Valid() && Aligns(score)
    modifies store.signals, store.validations, store.analyses, store.buLinks, store`lastRowId
    modifies control`paused, control`cancelled, control`gateOpen, control`currentStage, op`reached
    ensures store.Valid() && control.Valid()
    ensures r.Done? || (r.Stopped? && r.why == ScoringRaised) ==>
      found == WithStatus(AfterValidate(old(store.signals.rows), old(store.lastRowId), inputs.collectors), Validated)
    ensures r.Stopped? && r.why == ScoringRaised ==> Scoring(score, found).Thrown?
    ensures r.Done? ==>
      && r.value.collected == |CollectedSignals(inputs.collectors)|
      && r.value.validated == |WithStatus(AfterCollect(old(store.signals.rows), old(store.lastRowId), inputs.collectors), New)|
      && |found| == |analyses| && Scoring(score, found) == Scorer.Returned(analyses)
      && r.value.scored == Selected(found, analyses, inputs.setup.scoring.thresholds)
  {
    found, analyses := [], [];
    ghost var rows0, last0 := store.signals.rows, store.lastRowId;
    var collected := StageCollect(store, control, op, inputs.collectors);
    if collected.Stopped? {
      return Stopped(collected.why), found, analyses;
    }
    assert store.signals.rows == AfterCollect(rows0, last0, inputs.collectors);
    var g := Check(control, op);
    if g != Proceed {
      return Stopped(StopOf(g)), found, analyses;
    }
    var validated := StageValidate(store, control, op, inputs.netloc, inputs.search);
    if validated.Stopped? {
      return Stopped(validated.why), found, analyses;
    }
    g := Check(control, op);
    if g != Proceed {
      return Stopped(StopOf(g)), found, analyses;
    }
    found := WithStatus(store.signals.rows, Validated);
    var scored;
    scored, analyses := StageScore(store, control, op, score, inputs.setup.scoring.thresholds);
    if scored.Stopped? {
      return Stopped(scored.why), found, analyses;
    }
    g := Check(control, op);
    if g != Proceed {
      return Stopped(StopOf(g)), found, analyses;
    }
    r := Done(Tally(collected.value, validated.value, scored.value));
  }

  /** The trend analysis between scoring and composition: `update_trends` on the
      stored analyses (whose contract says what it writes). */
  method StageTrends(store: Store, control: PipelineControl, inputs: Inputs) returns (report: Tracker.TrendReport)
    requires store.Valid() && control.Valid()
    modifies store.trends, store.snapshots, control`currentStage
    ensures store.Valid() && control.Valid() && control.currentStage == "trends"
    ensures Tracker.Query(store.signals.rows, store.analyses.byId) == [] ==> report == Tracker.TrendReport(0, [], None)
    ensures Tracker.Query(store.signals.rows, store.analyses.byId) != [] ==> report.period == Some((inputs.week, inputs.year))
  {
    control.currentStage := "trends";
    report := Tracker.UpdateTrends(store, inputs.week, inputs.year, inputs.today, inputs.names);
  }

  /** Trend analysis, composition and delivery, with a checkpoint after each of the
      first two. */
  method LateStages(store: Store, control: PipelineControl, op: Operator, inputs: Inputs, scored: seq<ScoredSignal>)
    returns (r: Staged<(Digest, seq<Gmail.SendResult>)>)
    requires store.Valid() && control.Valid()
    modifies store.trends, store.snapshots
    modifies control`paused, control`cancelled, control`gateOpen, control`currentStage, op`reached
    ensures store.Valid() && control.Valid()
    ensures r.Stopped? ==> r.why != ScoringRaised
    ensures r.Done? ==>
      && r.value.0.context == Composer.Context(scored, inputs.comp.units, inputs.comp.week, inputs.comp.year, inputs.comp.dateRange)
      && r.value.1 == Sends(Seqs.Filter(inputs.recipients, IsActive), inputs.mail, r.value.0.pdfPath)
  {
    var _ := StageTrends(store, control, inputs);
    var g := Check(control, op);
    if g != Proceed {
      return Stopped(StopOf(g));
    }
    var digest := StageCompose(control, scored, inputs.comp);
    g := Check(control, op);
    if g != Proceed {
      return Stopped(StopOf(g));
    }
    var delivered := StageDeliver(control, op, inputs.recipients, inputs.mail, digest.pdfPath);
    if delivered.Stopped? {
      return Stopped(delivered.why);
    }
    r := Done((digest, delivered.value));
  }

  /** The body of the `try` in `run_full_pipeline`: the six stages with a checkpoint
      after each of the first five, trend analysis between scoring and composition,
      and an early end when no signal reaches the digest. */
  method RunStages(store: Store, control: PipelineControl, op: Operator, inputs: Inputs,
                   score: seq<Signal> -> Scorer.Outcome<seq<Analysis>>)
    returns (f: Finish, ghost found: seq<Signal>, ghost analyses: seq<Analysis>)
    requires store.Valid() && control.Valid() && Aligns(score)
    modifies store.signals, store.validations, store.analyses, store.buLinks, store.trends, store.snapshots, store`lastRowId
    modifies control`paused, control`cancelled, control`gateOpen, control`currentStage, op`reached
    ensures store.Valid() && control.Valid()
    ensures f.NoSignals? || f.Finished? ==>
      && f.collected == |CollectedSignals(inputs.collectors)|
      && |found| == |analyses| && Scoring(score, found) == Scorer.Returned(analyses)
    ensures f.NoSignals? ==> Selected(found, analyses, inputs.setup.scoring.thresholds) == []
    ensures f.Finished? ==>
      && f.scored == Selected(found, analyses, inputs.setup.scoring.thresholds) && f.scored != []
      && f.digest.context == Composer.Context(f.scored, inputs.comp.units, inputs.comp.week, inputs.comp.year, inputs.comp.dateRange)
      && f.deliveries == Sends(Seqs.Filter(inputs.recipients, IsActive), inputs.mail, f.digest.pdfPath)
    ensures f.NoSignals? || f.Finished? || (f.Halted? && f.why == ScoringRaised) ==>
      found == WithStatus(AfterValidate(old(store.signals.rows), old(store.lastRowId), inputs.collectors), Validated)
    ensures StagesAgree(old(store.signals.rows), old(store.lastRowId), f, inputs, score)
  {
    ghost var rows0, last0 := store.signals.rows, store.lastRowId;
    var early;
    early, found, analyses := EarlyStages(store, control, op, inputs, score);
    if early.Stopped? {
      return Halted(early.why), found, analyses;
    }
    var t := early.value;
    if t.scored == [] {
      f := NoSignals(t.collected, t.validated);
      TallyAgrees(rows0, last0, t, f, inputs, score, found, analyses);
      return f, found, analyses;
    }
    var late := LateStages(store, control, op, inputs, t.scored);
    if late.Stopped? {
      f := Halted(late.why);
      TallyAgrees(rows0, last0, t, f, inputs, score, found, analyses);
      return f, found, analyses;
    }
    f := Finished(t.collected, t.validated, t.scored, late.value.0, late.value.1);
    TallyAgrees(rows0, last0, t, f, inputs, score, found, analyses);
  }

  /** The dict `run_full_pipeline` returns, by its status: "completed" with no signal
      above the threshold, "completed" with the digest sent, "cancelled", "failed"
      with the exception's text; `Stuck` is a run left waiting at a checkpoint, which
      never returns. */
  datatype RunReport =
    | NoDigest
    | DigestSent(collected: nat, validated: nat, scored: nat, deliveries: seq<Gmail.SendResult>, pdfGenerated: bool)
    | UserCancelled
    | RunError(error: string)
    | Stuck

  const NoDigestMessage := "No signals above threshold"
  const CancelledMessage := "Cancelled by user"

  /** The keyword arguments `complete_pipeline_run` gets on a completed run. */
  function Counts(collected: nat, validated: nat, scored: nat): map<string, Value> {
    map["signals_collected" := IntValue(collected), "signals_validated" := IntValue(validated),
        "signals_scored" := IntValue(scored)]
  }

  /** The row `complete_pipeline_run` leaves for the run just started. */
  function Completion(id: nat, f: Finish, raised: string, now: string): (run: Run)
    ensures run.id == id && run.runType == "full" && run.completedAt == Some(now)
    ensures run.status == Cancelled <==> f == Halted(CancelledRun)
    ensures run.status == Failed <==> f.Halted? && f.why != CancelledRun
    ensures run.status == Completed <==> f.NoSignals? || f.Finished?
    ensures run.status == Failed ==> run.columns == map["error_message" := TextValue(raised)]
    ensures f.NoSignals? ==> "signals_scored" in run.columns && run.columns["signals_scored"] == IntValue(0)
  {
    match f
    case Halted(why) =>
      if why == CancelledRun then Run(id, "full", Cancelled, Some(now), map["error_message" := TextValue(CancelledMessage)])
      else Run(id, "full", Failed, Some(now), map["error_message" := TextValue(raised)])
    case NoSignals(collected, validated) => Run(id, "full", Completed, Some(now), Counts(collected, validated, 0))
    case Finished(collected, validated, scored, _, _) =>
      Run(id, "full", Completed, Some(now), Counts(collected, validated, |scored|))
  }

  /** The dict returned for the way the stages ended. */
  function ReportOf(f: Finish, raised: string): (r: RunReport)
    ensures r.Stuck? <==> f == Halted(WaitsForever)
    ensures r.UserCancelled? <==> f == Halted(CancelledRun)
    ensures r.RunError? <==> f.Halted? && f.why.ScoringRaised?
    ensures r.RunError? ==> r.error == raised
    ensures r.NoDigest? <==> f.NoSignals?
    ensures r.DigestSent? <==> f.Finished?
  {
    match f
    case Halted(why) => if why == WaitsForever then Stuck else if why == CancelledRun then UserCancelled else RunError(raised)
    case NoSignals(_, _) => NoDigest
    case Finished(collected, validated, scored, digest, deliveries) =>
      DigestSent(collected, validated, |scored|, deliveries, digest.pdfPath.Some?)
  }

  /** The `except` clauses and the `finally` of `run_full_pipeline`, once the stages
      have ended other than by waiting: the run row completed, the stage cleared and
      the connection closed. */
  method Conclude(store: Store, control: PipelineControl, runId: nat, f: Finish, raised: string, now: string)
    returns (report: RunReport)
    requires store.Valid() && control.Valid() && !(f.Halted? && f.why == WaitsForever)
    requires 1 <= runId == |store.runs.rows| && store.runs.rows[runId - 1] == Run(runId, "full", Running, None, map[])
    modifies store.runs, store`isOpen, control`currentStage
    ensures store.Valid() && control.Valid() && !store.isOpen && control.currentStage == ""
    ensures store.runs.rows == old(store.runs.rows[..runId - 1]) + [Completion(runId, f, raised, now)]
    ensures report == ReportOf(f, raised)
  {
    ghost var row := store.runs.rows[runId - 1];
    ghost var rows0 := store.runs.rows[..runId - 1];
    assert store.runs.rows == rows0 + [row];
    var status: RunStatus, kwargs: map<string, Value>;
    match f {
      case Halted(why) =>
        if why == CancelledRun {
          status, kwargs := Cancelled, map["error_message" := TextValue(CancelledMessage)];
          report := UserCancelled;
        } else {
          status, kwargs := Failed, map["error_message" := TextValue(raised)];
          report := RunError(raised);
        }
      case NoSignals(collected, validated) =>
        status, kwargs := Completed, Counts(collected, validated, 0);
        report := NoDigest;
      case Finished(collected, validated, scored, digest, deliveries) =>
        status, kwargs := Completed, Counts(collected, validated, |scored|);
        report := DigestSent(collected, validated, |scored|, deliveries, digest.pdfPath.Some?);
    }
    CompletedLast(rows0, row, status, kwargs, now);
    BoundListed(kwargs);
    store.runs.Complete(runId, status, kwargs, now);
    control.currentStage := "";
    store.Close();
  }

  /** What a run leaves behind, by the dict it returns: a run that waits keeps its
      row running; every other run has its row completed as `Completion` says, the
      stage cleared and the connection closed. When the stages got past scoring, the
      counts are those collected, and a sent digest has the context of the chosen
      signals and one delivery per active recipient. */
  ghost predicate Concluded(runs0: seq<Run>, runs: seq<Run>, stage: string, isOpen: bool,
                            report: RunReport, f: Finish, inputs: Inputs, now: string)
  {
    var id := |runs0| + 1;
    && report == ReportOf(f, inputs.raised)
    && (report.Stuck? ==> runs == runs0 + [Run(id, "full", Running, None, map[])])
    && (!report.Stuck? ==> !isOpen && stage == "" && runs == runs0 + [Completion(id, f, inputs.raised, now)])
    && (f.NoSignals? || f.Finished? ==> f.collected == |CollectedSignals(inputs.collectors)|)
    && (f.Finished? ==>
          && f.scored != []
          && f.digest.context == Composer.Context(f.scored, inputs.comp.units, inputs.comp.week, inputs.comp.year, inputs.comp.dateRange)
          && f.deliveries == Sends(Seqs.Filter(inputs.recipients, IsActive), inputs.mail, f.digest.pdfPath))
  }

  /** `run_full_pipeline` with the batch scorer given: the control reset, a "full"
      run row inserted, the stages run, and the row completed with the outcome. */
  method FullRun(store: Store, control: PipelineControl, op: Operator, inputs: Inputs, now: string,
                 score: seq<Signal> -> Scorer.Outcome<seq<Analysis>>)
    returns (report: RunReport, f: Finish)
    requires store.Valid() && Aligns(score)
    modifies store.signals, store.validations, store.analyses, store.buLinks, store.trends, store.snapshots
    modifies store.runs, store`isOpen, store`lastRowId
    modifies control`paused, control`cancelled, control`gateOpen, control`currentStage, op`reached
    ensures store.Valid() && control.Valid()
    ensures Concluded(old(store.runs.rows), store.runs.rows, control.currentStage, store.isOpen, report, f, inputs, now)
    ensures StagesAgree(old(store.signals.rows), |old(store.runs.rows)| + 1, f, inputs, score)
  {
    control.Reset();
    var runId := store.StartRun("full");
    ghost var found, analyses;
    f, found, analyses := RunStages(store, control, op, inputs, score);
    if f.Halted? && f.why == WaitsForever {
      return Stuck, f;
    }
    report := Conclude(store, control, runId, f, inputs.raised, now);
  }

  /** `run_full_pipeline`: the stages score with the AI client's batches. */
  method RunFullPipeline(store: Store, control: PipelineControl, op: Operator, inputs: Inputs, now: string)
    returns (report: RunReport, f: Finish)
    requires store.Valid()
    modifies store.signals, store.validations, store.analyses, store.buLinks, store.trends, store.snapshots
    modifies store.runs, store`isOpen, store`lastRowId
    modifies control`paused, control`cancelled, control`gateOpen, control`currentStage, op`reached
    ensures store.Valid() && control.Valid()
    ensures Concluded(old(store.runs.rows), store.runs.rows, control.currentStage, store.isOpen, report, f, inputs, now)
    ensures StagesAgree(old(store.signals.rows), |old(store.runs.rows)| + 1, f, inputs, BatchScorer(inputs.remote, inputs.setup))
  {
    BatchScorerAligns(inputs.remote, inputs.setup);
    report, f := FullRun(store, control, op, inputs, now, BatchScorer(inputs.remote, inputs.setup));
  }
}
