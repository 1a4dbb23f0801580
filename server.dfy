/** The management API: the recipient list, the delivery settings, the business
    unit and source lists it edits, the flag that keeps a second pipeline run from
    starting, and the dashboard's counts. The configuration files are the fields of
    `Server`; loading and saving them, the current time, the database queries and
    the background thread's work are parameters. */
module Server {
  import opened Model
  import opened Text
  import Seqs
  import Pipeline

  /** A reply: the value returned, or an HTTP error with its status and detail. */
  datatype Reply<T> = Ok(value: T) | HttpError(status: nat, detail: string)

  /** A JSON value of a business unit's entry. */
  datatype Value = Text(s: string) | Flag(b: bool) | Number(n: int) | Texts(items: seq<string>)

  /** The position of the first element whose id is `id`, or `|xs|`. */
  function IndexOfId<T>(xs: seq<T>, key: T -> Option<string>, id: string): (k: nat)
    ensures k <= |xs|
    ensures k < |xs| ==> key(xs[k]) == Some(id)
    ensures forall j :: 0 <= j < k ==> key(xs[j]) != Some(id)
    decreases |xs|
  {
    if xs == [] then 0
    else if key(xs[0]) == Some(id) then 0
    else 1 + IndexOfId(xs[1..], key, id)
  }

  function RecipientKey(r: Recipient): Option<string> {
    Some(r.id)
  }

  function SourceKey(s: SourceConfig): Option<string> {
    Some(s.id)
  }

  /** `bu["id"]` compared with a string: only a text id can match. */
  function UnitKey(bu: map<string, Value>): Option<string> {
    if "id" in bu && bu["id"].Text? then Some(bu["id"].s) else None
  }

  // ---------------------------------------------------------------- recipients

  /** The body of a new recipient; None marks a field left to its default. */
  datatype RecipientCreate = RecipientCreate(
    name: string,
    email: string,
    role: Option<string>,
    groups: Option<seq<string>>,
    buFilter: Option<seq<string>>,
    signalTypeFilter: Option<seq<string>>,
    notes: Option<string>)

  /** The body of a recipient update; None marks a field not supplied. */
  datatype RecipientUpdate = RecipientUpdate(
    name: Option<string>,
    email: Option<string>,
    role: Option<string>,
    groups: Option<seq<string>>,
    buFilter: Option<seq<string>>,
    signalTypeFilter: Option<seq<string>>,
    status: Option<string>,
    notes: Option<string>)

  function OrElse<T>(o: Option<T>, d: T): T {
    if o.Some? then o.value else d
  }

  /** `recipient-{n:03d}` */
  function RecipientId(n: nat): (id: string)
    ensures StartsWith(id, "recipient-")
  {
    var id := "recipient-" + ThreeDigits(n);
    assert id[..10] == "recipient-";
    id
  }

  /** The recipient `add_recipient` appends to a list of `count` entries: active,
      numbered `count + 1`, created at `now`, with the defaults of the request body. */
  function NewRecipient(req: RecipientCreate, count: nat, now: string): Recipient {
    Recipient(RecipientId(count + 1), req.name, req.email, OrElse(req.role, ""),
              OrElse(req.groups, ["executive-team"]), OrElse(req.buFilter, ["all"]),
              OrElse(req.signalTypeFilter, ["all"]), Some("active"), Some(now + "Z"), OrElse(req.notes, ""))
  }

  /** `r.update(updates.model_dump(exclude_none=True))`: the supplied fields replace
      the recipient's, the others stay. */
  function Merge(r: Recipient, u: RecipientUpdate): (m: Recipient) {
    Recipient(r.id, OrElse(u.name, r.name), OrElse(u.email, r.email), OrElse(u.role, r.role),
              OrElse(u.groups, r.groups), OrElse(u.buFilter, r.buFilter),
              OrElse(u.signalTypeFilter, r.signalTypeFilter),
              if u.status.Some? then u.status else r.status, r.createdAt, OrElse(u.notes, r.notes))
  }

  /** `[r for r in recipients if r["id"] != recipient_id]` */
  function WithoutId(recipients: seq<Recipient>, id: string): seq<Recipient>
    decreases |recipients|
  {
    if recipients == [] then []
    else
      var last := recipients[|recipients| - 1];
      WithoutId(recipients[..|recipients| - 1], id) + (if last.id != id then [last] else [])
  }

  /** No entry has the email. */
  predicate NewEmail(recipients: seq<Recipient>, email: string) {
    forall i :: 0 <= i < |recipients| ==> recipients[i].email != email
  }

  // ---------------------------------------------------------------- delivery settings

  datatype DeliverySettingsUpdate = DeliverySettingsUpdate(sendDay: Option<string>, sendTimeEt: Option<string>,
                                                           timezone: Option<string>)

  /** `settings.model_dump(exclude_none=True)`: the supplied settings under their keys. */
  function Supplied(u: DeliverySettingsUpdate): (m: map<string, string>)
    ensures "send_day" in m <==> u.sendDay.Some?
    ensures "send_time_et" in m <==> u.sendTimeEt.Some?
    ensures "timezone" in m <==> u.timezone.Some?
    ensures forall k :: k in m ==> k == "send_day" || k == "send_time_et" || k == "timezone"
  {
    (if u.sendDay.Some? then map["send_day" := u.sendDay.value] else map[])
    + (if u.sendTimeEt.Some? then map["send_time_et" := u.sendTimeEt.value] else map[])
    + (if u.timezone.Some? then map["timezone" := u.timezone.value] else map[])
  }

  // ---------------------------------------------------------------- sources

  datatype SourceUpdate = SourceUpdate(name: Option<string>, url: Option<string>, active: Option<bool>,
                                       tier: Option<int>)

  /** The supplied fields of a source update replace the source's. */
  function MergeSource(s: SourceConfig, u: SourceUpdate): SourceConfig {
    SourceConfig(s.id, OrElse(u.name, s.name), OrElse(u.url, s.url), s.sourceType,
                 if u.active.Some? then u.active else s.active,
                 if u.tier.Some? then u.tier else s.tier)
  }

  // ---------------------------------------------------------------- pipeline runs

  /** What the background run did: the dry run's `main` returned, the live run returned
      its report, or either raised an exception with the given text. */
  datatype BackgroundOutcome = DryRunReturned | LiveReturned(report: Pipeline.RunReport) | Raised(error: string)

  /** `_pipeline_status["last_result"]`: the dry run's completion, the whole report the
      live run returned, or the failure with the exception's text. */
  datatype LastResult = DryRunCompleted | LiveResult(report: Pipeline.RunReport) | FailedWith(error: string)

  datatype Started = Started(message: string, statusUrl: string)

  // ---------------------------------------------------------------- dashboard

  /** The database's answers to the dashboard's queries: the counts and the latest
      run's start time and status. */
  datatype DbCounts = DbCounts(signalsTotal: nat, signalsScored: nat, pipelineRuns: nat,
                               lastRunTime: Option<string>, lastRunStatus: Option<string>)

  datatype DashboardStats = DashboardStats(
    signalsTotal: nat,
    signalsScored: nat,
    pipelineRuns: nat,
    lastRunTime: Option<string>,
    lastRunStatus: Option<string>,
    activeRecipients: nat,
    digestsGenerated: nat,
    pipelineRunning: bool)

  /** `dashboard`: the database's counts, the active recipients and the digest pages;
      all zero when a query raises (`db` is None). */
  function DashboardOf(db: Option<DbCounts>, recipients: seq<Recipient>, digests: nat, running: bool): DashboardStats {
    match db
    case None => DashboardStats(0, 0, 0, None, None, 0, 0, false)
    case Some(c) =>
      DashboardStats(c.signalsTotal, c.signalsScored, c.pipelineRuns, c.lastRunTime, c.lastRunStatus,
                     Seqs.Count(recipients, IsActive), digests, running)
  }

  // ---------------------------------------------------------------- the server state

  class Server {
    var recipients: seq<Recipient>
    var deliverySettings: map<string, string>
    var businessUnits: seq<map<string, Value>>
    var sources: seq<SourceConfig>
    var running: bool
    var lastResult: Option<LastResult>
    var lastRun: Option<string>

    /** Every business unit has an id: `bu["id"]` does not fail. */
    predicate Valid()
      reads this
    {
      forall i :: 0 <= i < |businessUnits| ==> "id" in businessUnits[i]
    }

    constructor(recipients: seq<Recipient>, deliverySettings: map<string, string>,
                businessUnits: seq<map<string, Value>>, sources: seq<SourceConfig>)
      requires forall i :: 0 <= i < |businessUnits| ==> "id" in businessUnits[i]
      ensures Valid()
      ensures this.recipients == recipients && this.deliverySettings == deliverySettings
      ensures this.businessUnits == businessUnits && this.sources == sources
      ensures !running && lastResult.None? && lastRun.None?
    {
      this.recipients := recipients;
      this.deliverySettings := deliverySettings;
      this.businessUnits := businessUnits;
      this.sources := sources;
      running := false;
      lastResult := None;
      lastRun := None;
    }

    /** `add_recipient`: 400 and no change for an email already listed; otherwise the
        new recipient is appended and returned. */
    method AddRecipient(req: RecipientCreate, now: string) returns (reply: Reply<Recipient>)
      modifies this`recipients
      ensures !NewEmail(old(recipients), req.email) ==>
        recipients == old(recipients)
        && reply == HttpError(400, "Recipient with email " + req.email + " already exists")
      ensures NewEmail(old(recipients), req.email) ==>
        recipients == old(recipients) + [NewRecipient(req, |old(recipients)|, now)]
        && reply == Ok(NewRecipient(req, |old(recipients)|, now))
    {
      var k := 0;
      while k < |recipients|
        invariant k <= |recipients|
        invariant forall i :: 0 <= i < k ==> recipients[i].email != req.email
      {
        if recipients[k].email == req.email {
          return HttpError(400, "Recipient with email " + req.email + " already exists");
        }
        k := k + 1;
      }
      var newId := "recipient-" + ThreeDigits(|recipients| + 1);
      var r := Recipient(newId, req.name, req.email, OrElse(req.role, ""),
                         OrElse(req.groups, ["executive-team"]), OrElse(req.buFilter, ["all"]),
                         OrElse(req.signalTypeFilter, ["all"]), Some("active"), Some(now + "Z"),
                         OrElse(req.notes, ""));
      recipients := recipients + [r];
      reply := Ok(r);
    }

    /** `update_recipient`: the supplied fields merged into the first recipient with
        the id, which is returned; 404 when none has it. */
    method UpdateRecipient(id: string, u: RecipientUpdate) returns (reply: Reply<Recipient>)
      modifies this`recipients
      ensures var k := IndexOfId(old(recipients), RecipientKey, id);
        if k < |old(recipients)| then
          recipients == old(recipients)[k := Merge(old(recipients)[k], u)] && reply == Ok(recipients[k])
        else
          recipients == old(recipients) && reply == HttpError(404, "Recipient " + id + " not found")
    {
      var k := 0;
      while k < |recipients|
        invariant k <= IndexOfId(recipients, RecipientKey, id)
      {
        var r := recipients[k];
        if r.id == id {
          var m := Recipient(r.id, OrElse(u.name, r.name), OrElse(u.email, r.email), OrElse(u.role, r.role),
                             OrElse(u.groups, r.groups), OrElse(u.buFilter, r.buFilter),
                             OrElse(u.signalTypeFilter, r.signalTypeFilter),
                             if u.status.Some? then u.status else r.status, r.createdAt,
                             OrElse(u.notes, r.notes));
          recipients := recipients[k := m];
          return Ok(m);
        }
        k := k + 1;
      }
      reply := HttpError(404, "Recipient " + id + " not found");
    }

    /** `delete_recipient`: every recipient with the id removed; 404 and no change
        when that removes nothing. */
    method DeleteRecipient(id: string) returns (reply: Reply<string>)
      modifies this`recipients
      ensures |WithoutId(old(recipients), id)| == |old(recipients)| ==>
        recipients == old(recipients) && reply == HttpError(404, "Recipient " + id + " not found")
      ensures |WithoutId(old(recipients), id)| != |old(recipients)| ==>
        recipients == WithoutId(old(recipients), id) && reply == Ok(id)
    {
      var kept := WithoutId(recipients, id);
      if |kept| == |recipients| {
        WithoutIdLength(recipients, id);
        WithoutIdUnchanged(recipients, id);
        return HttpError(404, "Recipient " + id + " not found");
      }
      recipients := kept;
      reply := Ok(id);
    }

    /** `update_delivery_settings`: the supplied settings replace the current ones
        under their keys; every other setting stays. */
    method UpdateDeliverySettings(u: DeliverySettingsUpdate) returns (current: map<string, string>)
      modifies this`deliverySettings
      ensures deliverySettings == current
      ensures forall k :: k in current <==> k in old(deliverySettings) || k in Supplied(u)
      ensures forall k :: k in Supplied(u) ==> current[k] == Supplied(u)[k]
      ensures forall k :: k in old(deliverySettings) && k !in Supplied(u) ==> current[k] == old(deliverySettings)[k]
    {
      current := deliverySettings + Supplied(u);
      deliverySettings := current;
    }

    /** `update_business_unit`: the given fields merged into the first unit with the
        id, which is returned; 404 when none has it. */
    method UpdateBusinessUnit(id: string, updates: map<string, Value>) returns (reply: Reply<map<string, Value>>)
      requires Valid()
      modifies this`businessUnits
      ensures Valid()
      ensures var k := IndexOfId(old(businessUnits), UnitKey, id);
        if k < |old(businessUnits)| then
          businessUnits == old(businessUnits)[k := old(businessUnits)[k] + updates] && reply == Ok(businessUnits[k])
        else
          businessUnits == old(businessUnits) && reply == HttpError(404, "Business unit " + id + " not found")
    {
      var k := 0;
      while k < |businessUnits|
        invariant k <= IndexOfId(businessUnits, UnitKey, id)
      {
        var bu := businessUnits[k];
        if bu["id"] == Text(id) {
          businessUnits := businessUnits[k := bu + updates];
          return Ok(bu + updates);
        }
        k := k + 1;
      }
      reply := HttpError(404, "Business unit " + id + " not found");
    }

    /** `update_source`: the supplied fields merged into the first source with the
        id, which is returned; 404 when none has it. */
    method UpdateSource(id: string, u: SourceUpdate) returns (reply: Reply<SourceConfig>)
      modifies this`sources
      ensures var k := IndexOfId(old(sources), SourceKey, id);
        if k < |old(sources)| then
          sources == old(sources)[k := MergeSource(old(sources)[k], u)] && reply == Ok(sources[k])
        else
          sources == old(sources) && reply == HttpError(404, "Source " + id + " not found")
    {
      var k := 0;
      while k < |sources|
        invariant k <= IndexOfId(sources, SourceKey, id)
      {
        var s := sources[k];
        if s.id == id {
          var m := SourceConfig(s.id, OrElse(u.name, s.name), OrElse(u.url, s.url), s.sourceType,
                                if u.active.Some? then u.active else s.active,
                                if u.tier.Some? then u.tier else s.tier);
          sources := sources[k := m];
          return Ok(m);
        }
        k := k + 1;
      }
      reply := HttpError(404, "Source " + id + " not found");
    }

    /** `run_pipeline`: 409 while a run is going on; otherwise the run is accepted.
        The flag is not set here but by the background run when it begins. */
    method RunPipeline(dryRun: bool) returns (reply: Reply<Started>)
      ensures running ==> reply == HttpError(409, "Pipeline is already running")
      ensures !running ==> reply.Ok? && reply.value.statusUrl == "/api/pipeline/status"
      ensures !running ==>
        reply.value.message == "Pipeline started (" + (if dryRun then "dry-run" else "live") + " mode)"
    {
      if running {
        return HttpError(409, "Pipeline is already running");
      }
      reply := Ok(Started("Pipeline started (" + (if dryRun then "dry-run" else "live") + " mode)",
                          "/api/pipeline/status"));
    }

    /** The start of `_run_pipeline_bg`: the flag is raised and the time recorded. */
    method BeginBackgroundRun(now: string)
      modifies this`running, this`lastRun
      ensures running && lastRun == Some(now)
    {
      running := true;
      lastRun := Some(now);
    }

    /** The end of `_run_pipeline_bg`: the result recorded, and the flag lowered
        whatever the outcome. */
    method EndBackgroundRun(outcome: BackgroundOutcome)
      modifies this`running, this`lastResult
      ensures !running
      ensures outcome.Raised? ==> lastResult == Some(FailedWith(outcome.error))
      ensures outcome.DryRunReturned? ==> lastResult == Some(DryRunCompleted)
      ensures outcome.LiveReturned? ==> lastResult == Some(LiveResult(outcome.report))
    {
      match outcome {
        case DryRunReturned =>
          lastResult := Some(DryRunCompleted);
        case LiveReturned(report) =>
          lastResult := Some(LiveResult(report));
        case Raised(error) =>
          lastResult := Some(FailedWith(error));
      }
      running := false;
    }

    /** `dashboard` over the current recipients and run flag. */
    function Dashboard(db: Option<DbCounts>, digests: nat): (d: DashboardStats)
      reads this
      ensures d == DashboardOf(db, recipients, digests, running)
    {
      DashboardOf(db, recipients, digests, running)
    }
  }

  // ---------------------------------------------------------------- lemmas

  /** Removing by id keeps exactly the entries with another id, in order. */
  lemma {:induction false} WithoutIdExact(recipients: seq<Recipient>, id: string, r: Recipient)
    ensures r in WithoutId(recipients, id) <==> r in recipients && r.id != id
    decreases |recipients|
  {
    if recipients != [] {
      var init := recipients[..|recipients| - 1];
      WithoutIdExact(init, id, r);
      assert recipients == init + [recipients[|recipients| - 1]];
    }
  }

  /** The removal shortens the list exactly when some entry has the id. */
  lemma {:induction false} WithoutIdLength(recipients: seq<Recipient>, id: string)
    ensures |WithoutId(recipients, id)| <= |recipients|
    ensures |WithoutId(recipients, id)| == |recipients| <==> forall i :: 0 <= i < |recipients| ==> recipients[i].id != id
    decreases |recipients|
  {
    if recipients != [] {
      var init := recipients[..|recipients| - 1];
      WithoutIdLength(init, id);
      assert forall i :: 0 <= i < |init| ==> init[i] == recipients[i];
    }
  }

  /** Nothing is removed when no entry has the id. */
  lemma {:induction false} WithoutIdUnchanged(recipients: seq<Recipient>, id: string)
    requires forall i :: 0 <= i < |recipients| ==> recipients[i].id != id
    ensures WithoutId(recipients, id) == recipients
    decreases |recipients|
  {
    if recipients != [] {
      var init := recipients[..|recipients| - 1];
      WithoutIdUnchanged(init, id);
      assert recipients == init + [recipients[|recipients| - 1]];
    }
  }

  /** After a removal no entry has the id. */
  lemma WithoutIdRemoves(recipients: seq<Recipient>, id: string)
    ensures forall i :: 0 <= i < |WithoutId(recipients, id)| ==> WithoutId(recipients, id)[i].id != id
  {
    var kept := WithoutId(recipients, id);
    forall i | 0 <= i < |kept|
      ensures kept[i].id != id
    {
      WithoutIdExact(recipients, id, kept[i]);
    }
  }

  /** A merge keeps the id and the creation time, applying it twice is applying it
      once, and an update with nothing supplied changes nothing. */
  lemma MergeLaws(r: Recipient, u: RecipientUpdate)
    ensures Merge(r, u).id == r.id && Merge(r, u).createdAt == r.createdAt
    ensures Merge(Merge(r, u), u) == Merge(r, u)
    ensures u == RecipientUpdate(None, None, None, None, None, None, None, None) ==> Merge(r, u) == r
    ensures u.status == Some("active") ==> Merge(r, u).Active()
    ensures u.status.Some? && u.status != Some("active") ==> !Merge(r, u).Active()
  {
  }

  /** A new recipient is active and numbered one past the list's length. */
  lemma NewRecipientShape(req: RecipientCreate, count: nat, now: string)
    ensures NewRecipient(req, count, now).Active()
    ensures NewRecipient(req, count, now).id == "recipient-" + ThreeDigits(count + 1)
    ensures NewRecipient(req, count, now).email == req.email
    ensures req.groups.None? ==> NewRecipient(req, count, now).groups == ["executive-team"]
  {
  }

  /** After a successful addition the email is listed once more than before: the
      duplicate check keeps emails unique in a list where they were unique. */
  lemma AddKeepsEmailsUnique(recipients: seq<Recipient>, req: RecipientCreate, now: string)
    requires forall i, j :: 0 <= i < j < |recipients| ==> recipients[i].email != recipients[j].email
    requires NewEmail(recipients, req.email)
    ensures var after := recipients + [NewRecipient(req, |recipients|, now)];
      forall i, j :: 0 <= i < j < |after| ==> after[i].email != after[j].email
  {
    var after := recipients + [NewRecipient(req, |recipients|, now)];
    assert forall i :: 0 <= i < |recipients| ==> after[i] == recipients[i];
  }

  /** Ids are numbered by the list's length, so an id can come back: with the first
      of two recipients deleted, the next one added gets the id of the second. */
  lemma IdReused(a: Recipient, b: Recipient, req: RecipientCreate, now: string)
    requires a.id == RecipientId(1) && b.id == RecipientId(2)
    ensures WithoutId([a, b], a.id) == [b]
    ensures NewRecipient(req, |WithoutId([a, b], a.id)|, now).id == b.id
  {
    assert a.id != b.id by {
      assert RecipientId(1)[10..] == ThreeDigits(1);
      assert RecipientId(2)[10..] == ThreeDigits(2);
      assert DigitsValue(ThreeDigits(1)) != DigitsValue(ThreeDigits(2));
    }
    assert [a, b][..1] == [a];
    assert [a][..0] == [];
    assert WithoutId([a], a.id) == WithoutId([], a.id) + [];
  }

  /** The dashboard counts exactly the active recipients, and reports zeros and no
      running pipeline when a query fails, even during a run. */
  lemma DashboardCounts(db: Option<DbCounts>, recipients: seq<Recipient>, digests: nat, running: bool, r: Recipient)
    ensures db.Some? ==>
      DashboardOf(db, recipients, digests, running).activeRecipients == |Seqs.Filter(recipients, IsActive)|
    ensures r in Seqs.Filter(recipients, IsActive) <==> r in recipients && r.status == Some("active")
    ensures db.None? ==> DashboardOf(db, recipients, digests, running) == DashboardStats(0, 0, 0, None, None, 0, 0, false)
    ensures db.Some? ==> DashboardOf(db, recipients, digests, running).pipelineRunning == running
  {
    Seqs.CountIsFilterLength(recipients, IsActive);
    Seqs.FilterExact(recipients, IsActive, r);
  }

  /** An update that names no known id changes nothing; one that does touches only
      the first entry with it. */
  lemma UpdateTouchesFirstOnly(recipients: seq<Recipient>, id: string, u: RecipientUpdate)
    ensures var k := IndexOfId(recipients, RecipientKey, id);
      k < |recipients| ==>
        var after := recipients[k := Merge(recipients[k], u)];
        && |after| == |recipients|
        && (forall i :: 0 <= i < |recipients| && i != k ==> after[i] == recipients[i])
        && after[k].id == id
        && (forall i :: 0 <= i < k ==> recipients[i].id != id)
  {
    var k := IndexOfId(recipients, RecipientKey, id);
    if k < |recipients| {
      assert RecipientKey(recipients[k]) == Some(id);
      forall i | 0 <= i < k
        ensures recipients[i].id != id
      {
        assert RecipientKey(recipients[i]) != Some(id);
      }
    }
  }
}
