# VPG Intelligence Digest: a verified model of the scoring and trend pipeline

VPG Intelligence Digest is a weekly market-intelligence digest. It does six things:

1. It collects news signals from RSS feeds and scraped web pages.
2. It validates each signal against corroborating sources.
3. It scores each signal for the company's business units (BUs). A remote language model does the scoring, with a keyword heuristic as fallback.
4. It keeps trend statistics across runs.
5. It composes an HTML (and optionally PDF) digest.
6. It mails the digest to the active recipients.

A small HTTP API edits the recipient and configuration lists and starts runs. A pause/resume/cancel control lets an operator stop a run between steps.

This project models that core in Dafny and proves properties of the model:

- **Data.** Signals, analyses, business units, recipients and sources are datatypes (`Model`, `Wire`).
- **Tables.** Each SQLite table is a class holding its rows (`Db`).
- **Objects updated in place.** The pipeline control, the API's configuration state, the analysis client and the fallback PDF story are classes with `modifies` frames.
- **Loops.** Every loop of the source is a method with its invariants. Each method is proved against a specification function, and the properties the source promises are lemmas about those functions.

The remote model, the web, the feed parser, the HTML parser, the clock, the hash and the mail transports are parameters of the model:

- The remote model is an oracle that answers a prompt with "no result" or a decoded JSON value.
- The web, the feed parser and the HTML parser are functions yielding the elements the code inspects.
- The clock is the ISO week, the year and the date.
- The hash is a function.
- A mail transport is a function from attempt number to outcome.

Numbers are exact: weights and scores are `real`, counts are `int`/`nat`. The modules follow the source files:

| module | file | source |
|---|---|---|
| Model, Wire | model.dfy, wire.dfy | the records passed between stages, the decoded model reply |
| Client | client.dfy | src/analyzer/client.py |
| Prompts | prompts.dfy | src/analyzer/prompts.py |
| Scorer | scorer.dfy | src/analyzer/scorer.py |
| Db | db.dfy | src/db.py, plus the analysis, BU-link, trend and snapshot tables the other files write |
| Tracker | tracker.dfy | src/trends/tracker.py |
| Validator | validator.dfy | src/validator/validator.py |
| Composer | composer.dfy | src/composer/composer.py |
| Pdf | pdf.dfy | src/composer/pdf_generator.py |
| Gmail | gmail.dfy | src/delivery/gmail.py |
| Server | server.dfy | src/api/server.py |
| WebScraper | webscraper.dfy | src/collector/web_scraper.py |
| RssCollector | rss.dfy | src/collector/rss_collector.py |
| Pipeline | pipeline.dfy | src/pipeline.py |
| DryRun | dryrun.dfy | scripts/dry_run.py |
| SendDigest | senddigest.dfy | scripts/send_digest.py |
| Seqs, Sorting, Text | seqs.dfy, sorting.dfy, text.dfy | Python's comprehensions, `sorted(..., reverse=True)` and the `str` methods used |

### Where the code and the design description differ

The model follows the code in each case below.

- **Scoring can raise.** The design promises that scoring never aborts a run. The code calls `float()` on model-supplied fields (src/analyzer/scorer.py:124,131), and nothing up to `run_full_pipeline` catches the error this raises on a non-numeric value. The run then ends `failed`. Validation leaves score keys other than the four required ones as the reply gave them, so a configured dimension outside those four whose value is not a number makes `weight * score` raise a `TypeError` as well (`Scorer.CompositeRaises`). The model has an explicit `Thrown` outcome for this (`Scorer.Validate`, `Scorer.FromRecord`, `Pipeline.StageScore`, `Pipeline.Completion`).
- **A waiting run stays `running`.** The design says no run is left `running`. In the code a checkpoint that waits on a paused gate never returns, so its run row stays `running`. The model returns such a run as `Stuck`, with the row still `running` (`Pipeline.FullRun`). Resolving stale `running` rows at startup is not in the code shown.
- **Configuration is not validated.** The design calls a weight set that does not sum to 1 a fatal configuration error. `calculate_composite_score` does not check this, and neither does the model.

### Behaviour worth knowing, proved as written

- **A pause after a cancel blocks again.** `cancel` opens the gate but leaves `paused` set. A later `pause` closes the gate again, and the run waits until a `resume` or another `cancel` (`Pipeline.PauseAfterCancel`).
- **`run_pipeline` can start two runs.** It tests the running flag, but only the background thread sets it (src/api/server.py:256,279). Two requests close together can both pass the test. The model shows the check and the two halves of the background run as separate methods (`Server.Server.RunPipeline`, `Server.Server.BeginBackgroundRun`).
- **Recipient ids can repeat.** A new id is numbered by the current list length, so deleting a recipient lets a later addition reuse the id of a surviving one (`Server.IdReused`).
- **An update can duplicate an email.** `update_recipient` does not check for a duplicate email. Only `add_recipient` does (`Server.AddKeepsEmailsUnique`).
- **Momentum uses the cumulative count.** Trend momentum compares this run's count with the stored cumulative `occurrence_count`, not with last week's count (`Tracker.MomentumOf`).
- **"partner" means revenue.** It is checked among the revenue words before the partnership words, so it classifies as a revenue opportunity (`Scorer.PartnerIsRevenue`).

## Model

| member | source | states |
|---|---|---|
| Model.ParseSignalType | src/analyzer/prompts.py:9-17 | a string parses to a signal class only when it is that class's identifier |
| Model.ParseId | src/analyzer/prompts.py:9-17 | every one of the seven classes is recovered from its identifier, so identifiers are distinct |
| Prompts.ValidSignalTypesExact | src/analyzer/prompts.py:9-17 | the valid-type list has seven entries and holds a string iff that string names a signal class |
| Prompts.ValidSignalTypesDistinct | src/analyzer/prompts.py:9-17 | no identifier occurs twice in the valid-type list |
| Prompts.QuoteEach | src/analyzer/prompts.py:101 | one double-quoted identifier per signal type, in list order |
| Prompts.BuLine | src/analyzer/prompts.py:32-40 | a unit's line starts with its bold name and id, and ends with its joined competitors, or "N/A" when that join is empty |
| Prompts.BuLines | src/analyzer/prompts.py:30-41 | exactly one line per business unit, in catalogue order |
| Prompts.Bulleted | src/analyzer/prompts.py:44 | one "- " bullet per monitoring priority, in order |
| Prompts.SystemPromptListsUnits | src/analyzer/prompts.py:20-77 | the system prompt contains the line of every configured business unit |
| Prompts.ScaleEntriesDescending | src/analyzer/prompts.py:94 | a dimension's scale is listed in descending order of its numeric keys, and is a permutation of the scale |
| Prompts.ScaleItems | src/analyzer/prompts.py:94 | one "k=v" item per scale entry, in the given order |
| Prompts.DimensionLines | src/analyzer/prompts.py:91-99 | one description line per scoring dimension, in configuration order |
| Prompts.SignalPromptListsDimensions | src/analyzer/prompts.py:80-150 | the single-signal prompt contains the description line of every scoring dimension |
| Prompts.FullContent | src/analyzer/prompts.py:112 | the full-content field is at most 3000 characters: "Not available" for missing or empty content, otherwise its first 3000 characters |
| Prompts.BatchSummary | src/analyzer/prompts.py:180 | the batch summary is at most 500 characters: "No summary" for an empty summary, otherwise its first 500 characters |
| Prompts.SignalBlock | src/analyzer/prompts.py:175-181 | the block of the signal at position i opens with the heading "### Signal i+1" |
| Prompts.SignalBlocks | src/analyzer/prompts.py:173-182 | one block per signal, in input order, numbered from 1 |
| Prompts.BatchDimensionLines | src/analyzer/prompts.py:166-169 | one label, id and weight line per scoring dimension, in configuration order |
| Prompts.BatchPromptCount | src/analyzer/prompts.py:184 | the batch prompt opens with the heading that states the number of signals |
| Prompts.BatchPromptHasBlock | src/analyzer/prompts.py:153-208 | the batch prompt contains the block of every signal |
| Client.ReadAuthToken | src/analyzer/client.py:24-33 | a token is returned iff a path is set, the file is readable and its stripped contents are non-empty; the token is those stripped contents |
| Client.SelectCredential | src/analyzer/client.py:52-60 | a non-empty API key wins; without one the client gets the auth token iff one can be read, otherwise no credential |
| Client.AllRateLimitedWaits | src/analyzer/client.py:100-106 | when every attempt is rate limited the client sleeps after every attempt, 2, 4, ..., 2^n seconds |
| Client.AllApiErrorsWait | src/analyzer/client.py:108-115 | when every attempt is an API error the client sleeps 2, 4, ..., one doubling wait after each attempt except the last of max_retries |
| Client.StripEach | src/analyzer/client.py:139 | every reply line stripped, in order |
| Client.FenceEnd | src/analyzer/client.py:136-141 | the end of the fenced body is the last index i >= 1 whose stripped line is the closing fence, or the line count when there is none |
| Client.FenceEndUnique | src/analyzer/client.py:136-141 | any index with the closing-fence properties is the one the backward scan finds |
| Client.CleanedFenced | src/analyzer/client.py:133-142 | a fenced reply reaches the decoder as its lines from the second up to the closing fence, joined and stripped |
| Client.FencedReply | src/analyzer/client.py:130-145 | a reply written as an opening fence line, a body and a closing fence decodes its stripped body |
| Client.PlainReply | src/analyzer/client.py:130-133 | a reply that does not start with a fence reaches the decoder only stripped |
| Client.AnalysisClient.constructor | src/analyzer/client.py:39-60 | the key is the argument or the configured key, and the credential is chosen as SelectCredential says |
| Client.AnalysisClient.FindFenceEnd | src/analyzer/client.py:136-141 | the backward loop finds the index FenceEnd defines |
| Client.AnalysisClient.ParseJsonResponse | src/analyzer/client.py:124-148 | the result is the decoder's verdict on the cleaned text |
| Client.AnalysisClient.Retry | src/analyzer/client.py:87-122 | the loop stops after max_retries attempts or at the first outcome that is neither a rate limit nor an API error; every earlier attempt was retryable, and the sleeps are those WaitsOf defines |
| Client.AnalysisClient.Analyze | src/analyzer/client.py:67-122 | an unavailable client makes no attempt and returns None; otherwise the reply is the decoded text of the last attempt when it was a response, and None when retries ran out or an unexpected error ended them |
| Client.Pow2 | src/analyzer/client.py:101 | the back-off wait 2 ** (attempt + 1) exceeds its exponent |
| Scorer.CompositeScore | src/analyzer/scorer.py:33-51 | the accumulating loop computes the weighted sum of the dimension scores over the configured dimensions, or raises at the first configured value that is not a number |
| Scorer.CompositeRaises | src/analyzer/scorer.py:45-49 | the composite raises iff some configured dimension holds a value that is not a number (a string included); a missing one counts 0 |
| Scorer.CompositeExample | src/analyzer/scorer.py:33-51 | weights 0.35/0.25/0.25/0.15 with scores 8/6/7/5 give 6.8 |
| Scorer.CompositeBounds | src/analyzer/scorer.py:33-51 | with non-negative weights and every configured score a number within [lo, hi] (or missing, as 0), the composite does not raise and lies within lo and hi times the total weight (so within [1, 10] for scores in range and weights summing to 1) |
| Scorer.CompositeLowerBound | src/analyzer/scorer.py:45-49 | the lower half of that bound |
| Scorer.CompositeUpperBound | src/analyzer/scorer.py:45-49 | the upper half of that bound |
| Scorer.CompositeIgnoresOtherKeys | src/analyzer/scorer.py:46-49 | a value under a key that is no configured dimension, even one that is not a number, does not change the composite |
| Scorer.CompositeMissingIsZero | src/analyzer/scorer.py:48 | a dimension missing from the scores counts as 0 |
| Scorer.NumbersCompose | src/analyzer/scorer.py:45-49 | scores that are all numbers give a composite that does not raise |
| Scorer.Hits | src/analyzer/scorer.py:81-84 | the number of matched keywords is at most the number of keywords |
| Scorer.HitsPositive | src/analyzer/scorer.py:81-84 | some keyword matched iff one of the keywords, lower-cased, occurs in the text |
| Scorer.Relevance | src/analyzer/scorer.py:86-88 | one or more matched keywords give a relevance within [0.4, 1.0] |
| Scorer.CandidatesExact | src/analyzer/scorer.py:69-95 | a match is a candidate iff some catalogue unit is active, has at least one keyword hit, and the match carries its id and its normalised relevance |
| Scorer.CandidatesRelevance | src/analyzer/scorer.py:86-95 | every candidate's relevance lies within [0.4, 1.0] |
| Scorer.MatchBusProperties | src/analyzer/scorer.py:54-98 | the matches are exactly the candidates, sorted by non-increasing relevance, each relevance within [0.4, 1.0] |
| Scorer.MatchBusSkipsInactive | src/analyzer/scorer.py:70-72 | every match belongs to an active unit of the catalogue |
| Scorer.MatchSignalToBus | src/analyzer/scorer.py:54-98 | the loop over the catalogue followed by the sort produces exactly the matches MatchBus defines |
| Scorer.CountHits | src/analyzer/scorer.py:81-84 | the keyword loop counts exactly the keywords whose lower-cased form occurs in the text (Hits) |
| Scorer.RoundHalfEven | src/analyzer/scorer.py:131 | round() picks an integer within 0.5 of its argument, and the even one on a tie |
| Scorer.ClampInt | src/analyzer/scorer.py:131 | max(lo, min(hi, n)) lies within [lo, hi], is n when n is in range, and the nearer bound otherwise |
| Scorer.NormalizeScore | src/analyzer/scorer.py:131 | a normalised dimension score always lies within [1, 10] |
| Scorer.NormalizeScoreExamples | src/analyzer/scorer.py:131 | 15 becomes 10, -3 becomes 1, 5.7 becomes 6, 0 becomes 1, 6.5 becomes 6 and 7.5 becomes 8 |
| Scorer.ClampUnit | src/analyzer/scorer.py:124 | a clamped relevance lies within [0, 1] and is unchanged when already in range |
| Scorer.FieldOr | src/analyzer/scorer.py:135-139 | a missing text field takes its default and a present one keeps its value |
| Scorer.ValidSignalType | src/analyzer/scorer.py:112-116 | a listed class is kept; a missing or unlisted one becomes "market-shift" |
| Scorer.ValidateBuEntry | src/analyzer/scorer.py:123-124 | an element's relevance is float() of its value clamped to [0, 1] (a numeric string parses too), 0.5 when missing, and validation raises iff the element is not an object or its relevance does not parse |
| Scorer.ValidateBus | src/analyzer/scorer.py:123-124 | every element validated in order, or an exception iff some element raises |
| Scorer.ValidateDimension | src/analyzer/scorer.py:129-131 | a required score lies within [1, 10]: 5 when missing, the normalised value when float() parses it, an exception iff present and not parseable |
| Scorer.ValidateDimensionsSpec | src/analyzer/scorer.py:128-131 | the validated scores have exactly the required dimensions as keys, each validated on its own, and raise iff one dimension raises |
| Scorer.Rewritten | src/analyzer/scorer.py:129-132 | writing the validated integer scores into the object in place: the keys are the old ones plus the written ones, each written key holds its score and every other key keeps its value |
| Scorer.RequiredScoresSpec | src/analyzer/scorer.py:127-131 | the required scores are computed for exactly the four required keys, each validated on its own, and raise iff the object is not one or a required value does not parse |
| Scorer.ValidateScores | src/analyzer/scorer.py:127-132 | the object after validation keeps all its keys plus the four required ones; each required value becomes an integer in [1, 10], its validated score, and every other key (`novelty: 42`, a string) keeps its value; a missing object gives 5 for each; it raises iff the object is not one or a required value does not parse |
| Scorer.ImpactBand | src/analyzer/scorer.py:140-150 | the revenue band replacing a missing estimate is never "TBD" |
| Scorer.ValidImpact | src/analyzer/scorer.py:140-150 | a given estimate other than "" and "TBD" is kept; otherwise it becomes the revenue band; the result is never "" or "TBD" |
| Scorer.Validate | src/analyzer/scorer.py:101-153 | a reply is rejected iff it is not an object or has no non-empty relevant_bus list; it raises iff a relevance or required score does not parse; an accepted record carries the scores ValidateScores gives, with the four required ones integers in [1, 10], one relevance in [0, 1] per element, and an estimate other than "" and "TBD" |
| Scorer.ValidateFields | src/analyzer/scorer.py:112-139 | an accepted record keeps a listed class (else "market-shift") and each narrative field, with the fixed defaults for missing ones |
| Scorer.ValidateRelevance | src/analyzer/scorer.py:123-124 | in an accepted record a missing relevance reads as 0.5 and a present one parses and is clamped to [0, 1] |
| Scorer.ValidateAiResult | src/analyzer/scorer.py:101-153 | the in-place clamping and rewriting loops produce exactly the verdict Validate defines |
| Scorer.ClampBus | src/analyzer/scorer.py:123-124 | the loop over relevant_bus equals ValidateBus, stopping at the first element that raises |
| Scorer.NormalizeScores | src/analyzer/scorer.py:129-132 | the loop rewrites each required score of the object in place, from the object itself, giving Rewritten of the object and ValidateDimensions, and raises when ValidateDimensions does |
| Scorer.ValidateDimensionsPrefix | src/analyzer/scorer.py:129-131 | once a prefix of the dimensions raises, the whole validation raises |
| Scorer.ValidateBusPrefix | src/analyzer/scorer.py:123-124 | once a prefix of the elements raises, the whole validation raises |
| Scorer.ToBuMatches | src/analyzer/scorer.py:187-190 | one match per validated element, with its id and relevance, in order; a missing id raises a KeyError (None) |
| Scorer.FromRecord | src/analyzer/scorer.py:183-192 | the analysis built from a record exists iff every element has an id and the composite does not raise; it carries the record's scores, class, estimate and headline, the given method tag and the composite recomputed from its scores |
| Scorer.FromReply | src/analyzer/scorer.py:174-199 | no reply gives no analysis and a raising validation raises; an accepted reply gives an analysis tagged "ai" whose scores are those ValidateScores gives, with the four required ones integers in [1, 10], whose composite is their weighted sum, and whose estimate is not "TBD" |
| Scorer.ScoreSignalAi | src/analyzer/scorer.py:156-199 | no client gives no analysis; an analysis is tagged "ai", has the four required scores as integers in [1, 10], its composite is the weighted sum of its scores, and its estimate is not "TBD" |
| Scorer.Classify | src/analyzer/scorer.py:319-331 | the class is that of the first keyword rule whose words occur in the text, in the order competitor, revenue, trade, partnership, technology, otherwise "market-shift"; never "customer-intelligence" |
| Scorer.PartnerIsRevenue | src/analyzer/scorer.py:324-328 | a text mentioning "partner" is never a partnership signal, and is a revenue opportunity unless a competitor word occurs |
| Scorer.Trunc | src/analyzer/scorer.py:357 | int() truncates toward zero |
| Scorer.Alignment | src/analyzer/scorer.py:356-359 | strategic alignment is 3 without matches, otherwise within [4, 10], ten times the best relevance truncated and clamped |
| Scorer.HeuristicScores | src/analyzer/scorer.py:333-366 | the heuristic scores have the four required keys, the class's base revenue, time and competitive scores, and the given alignment |
| Scorer.HeuristicScoresRange | src/analyzer/scorer.py:333-366 | every heuristic score lies within [3, 10], with the base scores of the documented table for each class |
| Scorer.UnitName | src/analyzer/scorer.py:263-265 | an id with no unit in the catalogue is shown as itself |
| Scorer.UnitNames | src/analyzer/scorer.py:265 | one name per match, in order |
| Scorer.UnitList | src/analyzer/scorer.py:265-266 | the names of the first three matched units joined by ", ", or "VPG business units" without matches |
| Scorer.WhyItMatters | src/analyzer/scorer.py:260-277 | the line starts with its class's lead text, contains the unit list and ends with its class's tail text |
| Scorer.OwnersDistinct | src/analyzer/scorer.py:294-305 | two heuristic analyses of different classes suggest different owners, and none suggests the validation default "BU Manager" |
| Scorer.AmountRunEnd | src/analyzer/scorer.py:213 | `[\d,.]+` matches greedily: the run ends at the first character outside the class |
| Scorer.SpaceRunEnd | src/analyzer/scorer.py:213 | `\s*` matches greedily in the same way |
| Scorer.MatchSuffix | src/analyzer/scorer.py:213 | a match of the optional suffix letter ends at a word boundary |
| Scorer.MatchNumber | src/analyzer/scorer.py:213 | a match of the amount ends after the dollar sign and at least one amount character |
| Scorer.MatchDollar | src/analyzer/scorer.py:213 | a match starting at i begins with "$" and has at least one further character |
| Scorer.DollarMatches | src/analyzer/scorer.py:213 | re.finditer gives the leftmost matches in order, without overlap, each starting with "$" and being the match at its start |
| Scorer.KeepNumeric | src/analyzer/scorer.py:222 | the kept characters are digits and dots only |
| Scorer.ParseDecimal | src/analyzer/scorer.py:223-226 | float() of the kept characters is non-negative, and raises (None) when there are no digits |
| Scorer.Multiplier | src/analyzer/scorer.py:215-221 | the multiplier of a matched amount is at least 1 |
| Scorer.AmountOf | src/analyzer/scorer.py:214-226 | the amount a match stands for is non-negative |
| Scorer.MatchedTexts | src/analyzer/scorer.py:214 | the texts of the matches, in order |
| Scorer.AmountsOf | src/analyzer/scorer.py:212-226 | at most one amount per match, all non-negative; an unparsable one is skipped |
| Scorer.MaxOf | src/analyzer/scorer.py:229 | the largest amount is one of the amounts and bounds them all |
| Scorer.ClassBand | src/analyzer/scorer.py:237-257 | classes other than competitive threats and trade signals get the revenue band |
| Scorer.AmountPhrase | src/analyzer/scorer.py:228-235 | an amount of at least $1K is quoted as "... opportunity" |
| Scorer.HeuristicImpactIff | src/analyzer/scorer.py:202-257 | the estimate quotes an amount iff the text names an amount of at least $1K; otherwise it is the band of the class and revenue score |
| Scorer.BandsAreNotAmounts | src/analyzer/scorer.py:237-257 | no class band reads like a quoted amount |
| Scorer.DollarExample | src/analyzer/scorer.py:213-226 | "$2.5m" is one match and stands for 2,500,000 |
| Scorer.ScoreSignalHeuristic | src/analyzer/scorer.py:308-383 | the heuristic analysis is tagged "heuristic", carries the keyword matches and keyword class, has the four scores within [3, 10] with alignment 3 iff nothing matched, its composite is their weighted sum, its headline and summary are the signal's, its "why it matters" line starts and ends with its class's fixed texts, and its quick win and owner are those of its class |
| Scorer.ScoreSignal | src/analyzer/scorer.py:386-407 | the remote analysis when there is one, the heuristic otherwise and always without a client; it raises iff the remote path raises |
| Scorer.Collect | src/analyzer/scorer.py:433 | the results of a list of calls, in order, or the exception of the first call that raises |
| Scorer.EachScored | src/analyzer/scorer.py:433 | score_signal of each signal, in order |
| Scorer.EachHeuristic | src/analyzer/scorer.py:424 | the heuristic of each signal, in order |
| Scorer.BatchElement | src/analyzer/scorer.py:443-455 | an element that fails validation is replaced by score_signal of its signal; an accepted one is tagged "ai-batch" with its validated scores and its composite recomputed from them |
| Scorer.AlignedOutcomes | src/analyzer/scorer.py:442-457 | one element result per signal, in input order |
| Scorer.ScoreBatchFallback | src/analyzer/scorer.py:423-424 | without a client or without signals, batch scoring is the heuristic of each signal |
| Scorer.ScoreBatchUnaligned | src/analyzer/scorer.py:429-440 | when the reply is not an array with one element per signal, batch scoring is score_signal of each signal, and raises iff one of them does |
| Scorer.ScoreBatchAlignedRaises | src/analyzer/scorer.py:442-457 | with a reply of the right length, batch scoring raises iff one element's result raises |
| Scorer.ScoreBatchAligned | src/analyzer/scorer.py:442-457 | with a reply of the right length, result i is element i's validated analysis, or its signal scored alone |
| Scorer.ScoreBatchAi | src/analyzer/scorer.py:410-457 | the method returns what ScoreBatch defines |
| Scorer.ScoreEach | src/analyzer/scorer.py:433 | the comprehension over score_signal, stopping at the first exception |
| Scorer.CollectFirst | src/analyzer/scorer.py:433 | the appending loop equals Collect |
| Scorer.DollarMatchExample | src/analyzer/scorer.py:213 | in "$2.5m" the dollar pattern matches the whole text |
| Scorer.KeepNumericExample | src/analyzer/scorer.py:222 | "$2.5m" keeps "2.5" |
| Scorer.ParseExample | src/analyzer/scorer.py:224 | "2.5" parses as 2.5 |
| Scorer.AmountExample | src/analyzer/scorer.py:214-224 | "$2.5m" stands for 2,500,000 dollars |
| Db.UniqueExternalIdsExact | src/db.py:39-43 | the UNIQUE constraint on external_id holds iff no two rows share an external id |
| Db.InsertIgnoreRows | src/db.py:37-58 | INSERT OR IGNORE keeps the table numbered and unique; afterwards the external id is stored; a known id leaves the rows unchanged, a new one appends one row with status "new" |
| Db.LastRowId | src/db.py:37-58 | `cursor.lastrowid` after INSERT OR IGNORE is the previous last rowid when the external id is already stored (nothing inserted), and otherwise the id, at least 1, of the row that was appended with the signal |
| Db.StatusSet | src/db.py:70-73 | the update keeps the number of rows |
| Db.StatusSetOnly | src/db.py:70-73 | the update changes the status of the row with that id and nothing else, and keeps the table well formed |
| Db.Requeued | src/pipeline.py:163-166 | the re-queueing update keeps the number of rows |
| Db.RequeuedRows | src/pipeline.py:163-166 | the rows with the external id get status "new" and every other row keeps its status |
| Db.WithStatus | src/db.py:61-67 | the query returns no more rows than the table holds |
| Db.WithStatusExact | src/db.py:61-67 | a row is returned iff it is stored with the status |
| Db.WithStatusOrdered | src/db.py:61-67 | every returned row has the status, and ids strictly decrease (newest first), so no row comes twice |
| Db.SignalTable.constructor | src/db.py:23-34 | an empty, well-formed signals table |
| Db.SignalTable.Insert | src/db.py:37-58 | the rows become InsertIgnore of the old rows, and the returned `lastrowid` is LastRowId: the new row's id, or the connection's previous last rowid when the insert was ignored |
| Db.SignalTable.ByStatus | src/db.py:61-67 | the scan returns the rows WithStatus defines, and changes nothing |
| Db.SignalTable.SetStatus | src/db.py:70-73 | the rows become StatusSet of the old rows |
| Db.SignalTable.Requeue | src/pipeline.py:163-166 | the rows become Requeued of the old rows and stay well formed |
| Db.ValidationCount | src/db.py:95-101 | the count of a signal's validations is at most the number of rows |
| Db.CountAfterInsert | src/db.py:76-101 | each inserted validation counts once, for its own signal only |
| Db.CountOthersZero | src/db.py:95-101 | rows of other signals do not count |
| Db.ValidationTable.constructor | src/db.py:23-34 | an empty signal_validations table |
| Db.ValidationTable.Insert | src/db.py:76-92 | the validation row is appended |
| Db.ValidationTable.CountFor | src/db.py:95-101 | the count is ValidationCount of the rows |
| Db.AnalysisTable.constructor | src/db.py:23-34 | an empty signal_analysis table |
| Db.AnalysisTable.Put | src/pipeline.py:241 | the signal's analysis is stored under its id, replacing any earlier one |
| Db.BuLinkTable.constructor | src/db.py:23-34 | an empty signal_bus table |
| Db.BuLinkTable.Save | src/pipeline.py:242 | the signal's unit matches are stored under its id, replacing any earlier ones |
| Db.BoundExact | src/db.py:118-123 | a column is written with the passed value iff it is one of the five listed columns and was passed; every other column keeps its value |
| Db.CompletedRuns | src/db.py:114-129 | completing a run keeps the number of rows |
| Db.BoundListed | src/db.py:118-123 | passing only listed columns, on a row with none written, writes exactly the passed columns |
| Db.CompletedLast | src/db.py:114-129 | completing the run just started sets its status, completion time and passed columns, and changes no other row |
| Db.UnlistedIgnored | src/db.py:120-123 | a keyword that is not one of the five listed columns changes nothing |
| Db.RunTable.constructor | src/db.py:23-34 | an empty, well-formed pipeline_runs table |
| Db.RunTable.Start | src/db.py:104-111 | a new "running" run of the given type is appended under the next id, which is returned |
| Db.RunTable.Complete | src/db.py:114-129 | the rows become CompletedRuns of the old rows and stay well formed |
| Db.TrendIndex | src/trends/tracker.py:133-136 | the lookup by trend key finds a row with that key, or reports that none has it |
| Db.WithoutKey | src/trends/tracker.py:192-196 | dropping the snapshots of one key keeps at most the old rows |
| Db.WithoutKeyExact | src/trends/tracker.py:192-196 | a snapshot survives iff it was stored and has another key |
| Db.ReplacedSnapshotsExact | src/trends/tracker.py:192-196 | after INSERT OR REPLACE the new snapshot is the newest row and the only one with its (trend, week, year) key, and every other snapshot stays |
| Db.TrendTable.constructor | src/db.py:23-34 | an empty, well-formed trends table |
| Db.TrendTable.Insert | src/trends/tracker.py:175-182 | a trend with a new key is appended under the next id, which is returned |
| Db.TrendTable.Update | src/trends/tracker.py:156-164 | the stored trend is replaced, keeping its id and key |
| Db.SnapshotTable.constructor | src/db.py:23-34 | an empty trend_snapshots table |
| Db.SnapshotTable.Replace | src/trends/tracker.py:192-196 | the rows become ReplacedSnapshots of the old rows |
| Db.Store.constructor | src/db.py:12-34 | init_db on an empty database: every table empty and well formed, and the connection open |
| Db.Store.StartRun | src/db.py:104-111 | a "running" run row is appended under the next id, which is returned and becomes the connection's last inserted rowid |
| Db.Store.InsertSignal | src/db.py:37-58 | the signals table changes as InsertIgnore, the connection's last rowid becomes the returned `lastrowid`, which is LastRowId of the old rows and the old last rowid |
| Db.Store.Close | src/pipeline.py:434-435 | the connection is closed |
| Tracker.QueryExact | src/trends/tracker.py:46-53 | the query returns exactly the scored or published signals that have an analysis, highest composite first |
| Text.UpperChar | src/trends/tracker.py:78 | a lower-case ASCII letter becomes upper case, every other character stays |
| Text.TitleCase | src/trends/tracker.py:78 | str.title (also used for the class captions of src/composer/pdf_generator.py line 136) keeps the length, which characters are letters, and every non-letter |
| Text.TitleCaseWords | src/trends/tracker.py:78 | a letter that starts a word becomes upper case, a letter inside a word lower case, and other characters stay |
| Tracker.FixedEmissions | src/trends/tracker.py:75-103 | a signal contributes twice per business unit and once for its type |
| Tracker.FixedKeys | src/trends/tracker.py:75-103 | the keys are `<bu>:<type>` for each unit, then `type:<type>`, then `bu:<bu>` for each unit, in that order |
| Tracker.CompetitorKeys | src/trends/tracker.py:105-120 | a signal contributes to `competitor:<c>` iff c is a listed competitor contained in its lower-cased title and summary |
| Tracker.EmissionsCarry | src/trends/tracker.py:70-120 | every contribution of a signal carries its composite score and its id |
| Tracker.AllEmissionsDesc | src/trends/tracker.py:52-120 | rows in descending composite order give contributions in descending score order |
| Tracker.AggregateExact | src/trends/tracker.py:65-120 | the aggregation has an entry for a key iff some contribution has that key, and the entry summarises exactly those contributions, in order |
| Tracker.AggregateCovered | src/trends/tracker.py:65-126 | the aggregation's keys, in first-use order, are distinct and each has an entry |
| Tracker.AggregateSnoc | src/trends/tracker.py:79-84 | one more contribution is added to the entry of its key |
| Tracker.TopContributor | src/trends/tracker.py:52 | the first score of every key is its highest, so the top signal of a key is its best-scoring one (also line 130) |
| Tracker.MomentumOf | src/trends/tracker.py:145-154 | a known key is a spike iff its count exceeds 1.5 times the stored count, rising iff it exceeds the stored count by no more, declining iff it is lower, and stable iff equal |
| Tracker.Change | src/trends/tracker.py:146 | the week-over-week change is positive iff the count rose and negative iff it fell |
| Tracker.MaxOf | src/trends/tracker.py:128 | max() is one of the scores and bounds them all |
| Tracker.SumAtMost | src/trends/tracker.py:127 | a sum of values at most m is at most m times their number |
| Tracker.AverageAtMostMax | src/trends/tracker.py:127-128 | a key's average score is at most its maximum |
| Tracker.NotableOf | src/trends/tracker.py:166-189 | a key adds a notable entry iff its momentum is new, spike or rising, with its momentum, count and label |
| Tracker.TrendIndexAt | src/trends/tracker.py:133-136 | in a table with distinct keys each row is found by its own key |
| Tracker.WriteTrendFound | src/trends/tracker.py:140-182 | writing a key keeps the keys distinct and the written row is then found by that key |
| Tracker.WriteTrendOthers | src/trends/tracker.py:140-182 | writing a key leaves the row of every other key unchanged |
| Tracker.UpsertAllFrame | src/trends/tracker.py:126-198 | the upsert loop keeps the keys of trends distinct and leaves every key it does not upsert unchanged |
| Tracker.UpsertAllTrends | src/trends/tracker.py:126-198 | each upserted key's row is written from the row stored before the run |
| Tracker.UpsertAllKeeps | src/trends/tracker.py:126-198 | a key outside the aggregation keeps its stored row |
| Tracker.UpsertAllNotable | src/trends/tracker.py:124-189 | the notable list holds the entries of the keys in aggregation order, each judged against the trend stored before the run |
| Tracker.UpsertAllSnapshots | src/trends/tracker.py:191-196 | after the run each key has one snapshot for the week, holding this run's count, average and top signal |
| Tracker.UpsertAllOtherWeeks | src/trends/tracker.py:191-196 | snapshots of other weeks are kept as they were |
| Tracker.TrendAfterRun | src/trends/tracker.py:140-190 | after the run a key's trend adds this run's count to the stored count, is last seen today, has this run's average, a maximum no lower than before or than this run's best, the computed momentum; a known key keeps its id and first-seen date and gets the change figure, a new key is first seen today with momentum "new" and change 0 |
| Tracker.NotableExact | src/trends/tracker.py:166-189 | an entry is notable iff it belongs to a key whose momentum this run is new, spike or rising |
| Tracker.AggregateConcat | src/trends/tracker.py:70-120 | aggregating more contributions continues from the entries of the earlier ones |
| Tracker.AddEmissions | src/trends/tracker.py:76-120 | the inner loops add one signal's contributions to the aggregation in order |
| Tracker.AggregateRows | src/trends/tracker.py:70-120 | the aggregation loop equals Aggregate of all contributions of all rows, in order |
| Tracker.UpsertOne | src/trends/tracker.py:127-198 | one key's trend row is updated or inserted, its snapshot replaced, and its notable entry returned, as UpsertKey defines |
| Tracker.UpsertNext | src/trends/tracker.py:126-198 | one round of the upsert loop advances the loop state by one key |
| Tracker.UpsertKeys | src/trends/tracker.py:123-198 | the loop upserts every key once, counts one update per key, and leaves the tables and notable list that UpsertAll defines |
| Tracker.UpdateTrends | src/trends/tracker.py:29-212 | with no scored signals nothing changes and the report is empty; otherwise the aggregation's keys are distinct and the tables and report are those of upserting every key of the aggregation, with the week and year |
| Tracker.FractionOrder | src/trends/tracker.py:231-239 | the tie-break fraction lies within [0, 1) and orders as the count does |
| Tracker.SummaryKeyOrder | src/trends/tracker.py:231-239 | the summary sort key orders by momentum rank, then by count descending |
| Tracker.Limit | src/trends/tracker.py:240 | LIMIT keeps the first min(limit, n) rows, and every row for a negative limit |
| Tracker.SummaryOrder | src/trends/tracker.py:215-263 | the summary lists stored trends ordered by momentum rank then count descending, limited as LIMIT says, and none it drops outranks one it lists |
| Tracker.SummaryPartitions | src/trends/tracker.py:258-263 | "rising" holds exactly the listed rising and spike trends, "new" the new ones and "declining" the declining ones |
| Tracker.WeekKeyOrder | src/trends/tracker.py:286 | the history sort key orders by year, then by week |
| Tracker.Reversed | src/trends/tracker.py:292 | reversal keeps the length |
| Tracker.ReversedPrefixChronological | src/trends/tracker.py:286-293 | reversing the limited latest-first rows gives them oldest first, and the rows the limit drops are no later than those kept |
| Tracker.HistoryOrder | src/trends/tracker.py:270-297 | the history is the key's own snapshots, oldest first, at most `weeks` of them, and the latest ones |
| Validator.SourceDomainLower | src/validator/validator.py:15-21 | the domain holds no upper-case letter |
| Validator.SourceDomainStripsOnce | src/validator/validator.py:18-20 | a leading "www." in any case is removed once: the domain of "www." + x is x lower-cased, even when x itself starts with "www." |
| Validator.LevelOf | src/validator/validator.py:76-81 | "verified" iff three or more sources, "likely" iff exactly two, "unverified" iff at most one |
| Validator.FindCorroboratingSources | src/validator/validator.py:24-43 | the placeholder search finds nothing |
| Validator.IndependentExact | src/validator/validator.py:61-66 | a report is independent iff it was found and its domain differs from the signal's |
| Validator.RowsFor | src/validator/validator.py:69-70 | one validation row per independent report |
| Validator.CountAfterRows | src/validator/validator.py:69-73 | every stored report counts once for its signal |
| Validator.CountOtherRows | src/validator/validator.py:69-73 | reports stored for another signal leave a signal's count unchanged |
| Validator.TotalSources | src/validator/validator.py:74 | a signal always counts at least itself |
| Validator.ValidateSignal | src/validator/validator.py:46-89 | the independent reports are appended as validation rows; the result lists them, counts the signal plus every report stored for it (this run's and earlier ones), and its level is that count's level |
| Validator.PlaceholderUnverified | src/validator/validator.py:24-81 | with the placeholder search and no earlier report a signal has one source and is unverified |
| Validator.ValidateBatch | src/validator/validator.py:92-99 | the results are `Validator.BatchResults` of the signals over the validation rows stored before the batch, and the table ends as those rows followed by each signal's independent reports, in signal order |
| Validator.BatchCounted | src/validator/validator.py:92-99 | one result per signal; the one at index i is tagged with the signal's id, lists its independent reports, has the level of its count, and counts 1 + the rows stored for it before the batch + the reports stored for it by the signals before it + its own reports |
| Validator.CountFirstReports | src/validator/validator.py:68-73 | the rows the first n signals of a batch store add, to a signal's stored count, exactly the independent reports of those of them with its id: the count validate_signal reads for signal n is the earlier count plus these |
| Validator.EarlierReportsNone | src/validator/validator.py:92-99 | when no signal before position n has a given id, the signals before it store no report for that id, so its count is the count stored before the batch |
| Composer.MatchPairs | src/composer/composer.py:47-51 | one (unit, signal) pair per unit match of the signal |
| Composer.MatchPairsExact | src/composer/composer.py:47-51 | a pair comes from a signal iff it is that signal with one of its matched units |
| Composer.PairsExact | src/composer/composer.py:46-51 | the grouping loop visits a pair iff its signal is listed and matched to the unit |
| Composer.FirstIndex | src/composer/composer.py:49-50 | the index of the first pair of a unit, or the number of pairs when it has none |
| Composer.GroupKeys | src/composer/composer.py:45-51 | the dict's keys are distinct, each has a list, and a unit is a key iff some pair names it |
| Composer.GroupMembers | src/composer/composer.py:45-51 | every unit's list is the signals of its pairs, in order |
| Composer.GroupOrder | src/composer/composer.py:45-51 | the keys come in the order of their first pair, as dict insertion order does |
| Composer.GroupingUnits | src/composer/composer.py:44-51 | after the grouping loop the units are exactly the matched ones, each once, each with a list |
| Composer.GroupingMembers | src/composer/composer.py:44-51 | a unit's list holds a signal iff the signal is listed and matched to the unit, once per match, in input order |
| Composer.Lookup | src/composer/composer.py:65 | the catalogue entry found for an id is in the catalogue and has that id; none is found iff no entry has it |
| Composer.SectionOf | src/composer/composer.py:53-76 | a section has its unit's id, the catalogue name (or the id) and colour (or "#2E75B6"), and its signals ranked by composite score, a permutation of its list |
| Composer.Sections | src/composer/composer.py:68-76 | one section per grouped unit |
| Composer.TopSignals | src/composer/composer.py:59-61 | the top signals are the first five of the overall ranking: descending, drawn from the signals, and no signal left out outranks one kept |
| Composer.SignalOfWeek | src/composer/composer.py:62 | the signal of the week is absent iff there are no signals; otherwise it heads the top signals and no signal scores higher |
| Composer.SubjectLine | src/composer/composer.py:78-83 | the subject is "VPG Intel [Week n]: ", then the top headline or "Industry Update", then " + k more signals" when k = count - 1 is positive |
| Composer.SectionsExact | src/composer/composer.py:44-76 | sections have distinct units, there is one for a unit iff some signal matches it, and it holds exactly the signals matched to it, ranked, as a permutation of its list |
| Composer.SectionsOrder | src/composer/composer.py:68-76 | the sections appear in the order their units are first matched |
| Composer.PlaceSignal | src/composer/composer.py:47-51 | the inner loop appends the signal to the list of every unit it matches |
| Composer.GroupFromConcat | src/composer/composer.py:46-51 | grouping more pairs continues from the dict of the earlier ones |
| Composer.BuildSections | src/composer/composer.py:68-76 | the loop over the grouped units builds the sections Sections defines |
| Composer.BuildDigestContext | src/composer/composer.py:32-99 | the grouping, ranking, top five, sections and subject give exactly the context Context defines |
| Composer.DefaultFileName | src/composer/composer.py:113-115 | without a file name the digest is saved as "digest-<year>-W<week, two digits>.html" |
| Pdf.StripTags | src/composer/pdf_generator.py:233 | replacing tags by spaces adds no ">" to a text that has none |
| Pdf.DropSpaces | src/composer/pdf_generator.py:234 | leading whitespace is dropped: the result is a suffix that starts with no whitespace, shorter when the text started with whitespace |
| Pdf.Collapse | src/composer/pdf_generator.py:234 | collapsing whitespace keeps the first character, or starts with one space where the text started with whitespace |
| Pdf.StripTagsTagFree | src/composer/pdf_generator.py:233 | after the tag substitution no tag is left |
| Pdf.CollapseTagFree | src/composer/pdf_generator.py:234 | collapsing whitespace creates no tag |
| Pdf.CollapseSingle | src/composer/pdf_generator.py:234 | after collapsing, the only whitespace is single spaces |
| Pdf.CleanHtmlShape | src/composer/pdf_generator.py:229-235 | the cleaned text holds no tag, no whitespace other than single spaces, and none at either end |
| Pdf.StripTagsUnchanged | src/composer/pdf_generator.py:233 | a tag-free text is left as it is |
| Pdf.CollapseUnchanged | src/composer/pdf_generator.py:234 | a single-spaced text is left as it is |
| Pdf.CleanHtmlIdempotent | src/composer/pdf_generator.py:229-235 | cleaning is idempotent |
| Pdf.CleanPlainText | src/composer/pdf_generator.py:229-235 | text without "<", single-spaced and trimmed, is unchanged by cleaning |
| Pdf.DefaultPdfName | src/composer/pdf_generator.py:262-265 | the default name is the digest stem with ".pdf" |
| Pdf.PdfFileName | src/composer/pdf_generator.py:262-265 | a non-empty file name is used as given; otherwise the default name |
| Pdf.SameStemAsPage | src/composer/pdf_generator.py:265 | the default PDF and the default HTML page of a week share their stem |
| Pdf.GeneratePdf | src/composer/pdf_generator.py:238-295 | a written PDF lies in the output directory under the chosen file name |
| Pdf.FallbackOrder | src/composer/pdf_generator.py:269-283 | weasyprint is used whenever it works; reportlab only after weasyprint failed in any way; a PDF is written iff one of them works |
| Pdf.RuntimeErrorCases | src/composer/pdf_generator.py:280-295 | a RuntimeError is raised iff weasyprint failed and reportlab is not installed; any other reportlab error is re-raised unchanged |
| Pdf.ResolveImages | src/composer/pdf_generator.py:23-29 | the image loop replaces each image reference as the mail preview does |
| Pdf.CaptionShape | src/composer/pdf_generator.py:136 | a class caption holds no "-" and starts with a capital letter |
| Pdf.CardFrame | src/composer/pdf_generator.py:134-178 | a card opens with the heading and closes with the spacer, and the heading shows a score iff it is not zero |
| Pdf.FieldsLabels | src/composer/pdf_generator.py:146-170 | each label is among the field paragraphs iff its field is not empty |
| Pdf.CardSections | src/composer/pdf_generator.py:146-170 | each labelled section is in the card iff its field is not empty, even when cleaning leaves nothing of it |
| Pdf.CardSource | src/composer/pdf_generator.py:172-176 | the card links its source iff there is a url, showing at most its first 80 characters |
| Pdf.CardPieces | src/composer/pdf_generator.py:134-178 | the pieces appended in order make the card |
| Pdf.Story.constructor | src/composer/pdf_generator.py:119 | the story starts empty |
| Pdf.Story.RenderCard | src/composer/pdf_generator.py:134-178 | rendering a card appends exactly the card's paragraphs to the story |
| Pdf.FieldMember | src/composer/pdf_generator.py:146-170 | a section's label is in its paragraph exactly when it is that section and the field is not empty |
| Gmail.PreviewSkipsEmpty | src/delivery/gmail.py:175-181 | images without a data URI change nothing: the preview is that of the images that have one |
| Gmail.PreviewWithoutDataUris | src/delivery/gmail.py:175-181 | without any data URI the preview is the message itself |
| Gmail.Preview | src/delivery/gmail.py:175-181 | the replacement loop produces PreviewHtml of the message and images |
| Gmail.MockFileNameSafe | src/delivery/gmail.py:183-184 | the safe address holds neither "@" nor ".", and the file name is "digest_" ... ".html" with no "@" |
| Gmail.MockFileNameOfAddress | src/delivery/gmail.py:183-184 | "user@host.tld" is saved as "digest_user_at_host_tld.html" |
| Gmail.SmtpAttempt | src/delivery/gmail.py:213-219 | a missing sender raises before a missing password, and both are checked before anything is sent |
| Gmail.SendEmail | src/delivery/gmail.py:299-355 | the attempt loop with its early returns gives the result and sleeps SendEmailSpec defines |
| Gmail.NoAttempts | src/delivery/gmail.py:318-355 | with no attempt allowed the result is "failed" with the mode and recipient and no error, after no wait |
| Gmail.ModeDispatch | src/delivery/gmail.py:320-333 | mock mode delivers to the file at once; an unknown mode fails at the first attempt with "Unknown mode: ..." and no mode or recipient |
| Gmail.MissingCredentialsFallBack | src/delivery/gmail.py:335-339 | missing SMTP credentials send the message to the mock file at once, without retrying, whatever the transport would do |
| Gmail.Exhausted | src/delivery/gmail.py:341-353 | when every remaining attempt fails, the result is "failed" with the mode, recipient and last error, after one wait of 2^(k+1) seconds between attempts |
| Gmail.FirstSuccessDecides | src/delivery/gmail.py:318-353 | the first attempt that does not fail decides: a delivery gives "sent", an authorisation error the mock file; one wait came after each earlier failure |
| Gmail.SendFromBounds | src/delivery/gmail.py:318-355 | a "sent" result names the recipient, and fewer waits than attempts allowed are made |
| Gmail.AtReplaced | src/delivery/gmail.py:183 | the one "@" of an address becomes "_at_", the rest unchanged |
| Gmail.DotReplaced | src/delivery/gmail.py:183 | after that, the one "." becomes "_" |
| Server.IndexOfId | src/api/server.py:142-143 | the first position whose id matches, or the length when none does; every earlier entry has another id |
| Server.RecipientId | src/api/server.py:116 | a new id starts with "recipient-" |
| Server.Supplied | src/api/server.py:173 | exactly the supplied delivery settings appear, under their own keys |
| Server.Server.constructor | src/api/server.py:58 | the configuration lists as loaded, no run going on and no result or run time recorded |
| Server.Server.AddRecipient | src/api/server.py:105-133 | an email already listed gives 400 and no change; otherwise the new active recipient numbered len+1 is appended at the end and returned |
| Server.Server.UpdateRecipient | src/api/server.py:136-149 | the first recipient with the id gets the supplied fields and is returned, the rest of the list unchanged; 404 and no change when no id matches |
| Server.Server.DeleteRecipient | src/api/server.py:152-165 | every recipient with the id is removed, the others kept in order; 404 and no change exactly when the length is unchanged |
| Server.Server.UpdateDeliverySettings | src/api/server.py:168-177 | the new settings hold the old keys and the supplied ones, supplied values win, the other settings keep their values |
| Server.Server.UpdateBusinessUnit | src/api/server.py:188-197 | the given fields merged into the first unit with a text id equal to the id, which is returned; 404 and no change when none has it |
| Server.Server.UpdateSource | src/api/server.py:208-218 | the supplied fields merged into the first source with the id, which is returned; 404 and no change when none has it |
| Server.Server.RunPipeline | src/api/server.py:273-288 | 409 while a run is going on; otherwise the start message naming the mode and the status URL |
| Server.Server.BeginBackgroundRun | src/api/server.py:254-257 | the running flag raised and the start time recorded |
| Server.Server.EndBackgroundRun | src/api/server.py:258-270 | the flag is lowered whatever the outcome; the recorded result is the exception's text, the dry-run completion, or the whole report the live run returned |
| Server.Server.Dashboard | src/api/server.py:326-372 | the dashboard of the current recipients and run flag |
| Server.WithoutIdExact | src/api/server.py:159 | an entry survives the removal iff it was listed and has another id |
| Server.WithoutIdLength | src/api/server.py:159-162 | the removal never lengthens the list, and leaves its length unchanged iff no entry has the id |
| Server.WithoutIdUnchanged | src/api/server.py:159-162 | with no entry holding the id the list is unchanged |
| Server.WithoutIdRemoves | src/api/server.py:159 | no entry with the id is left |
| Server.MergeLaws | src/api/server.py:144-145 | a merge keeps id and creation time, is idempotent, is the identity for an empty update, and sets the active status as supplied |
| Server.NewRecipientShape | src/api/server.py:116-128 | a new recipient is active, numbered count+1 in three digits, keeps the email and defaults its groups to executive-team |
| Server.AddKeepsEmailsUnique | src/api/server.py:111-129 | adding keeps the emails of the list pairwise distinct |
| Server.IdReused | src/api/server.py:116-159 | after deleting the first of two recipients the next one added receives the second's id |
| Server.DashboardCounts | src/api/server.py:343-371 | active_recipients counts exactly the recipients whose status is "active"; a failed query gives all zeros and no running pipeline |
| Server.UpdateTouchesFirstOnly | src/api/server.py:142-147 | an update changes only the first entry with the id, keeping the length and every other entry |
| WebScraper.JoinUrl | src/collector/web_scraper.py:54-56 | an href starting with "http" is kept as it is; any other becomes the base without trailing slashes, one "/", and the href without leading slashes |
| WebScraper.JoinUrlSlashes | src/collector/web_scraper.py:55-73 | however many slashes end the base and start a relative href, exactly one separates them in the joined url |
| WebScraper.UrlsExact | src/collector/web_scraper.py:47-75 | the seen set holds exactly the urls of the articles kept |
| WebScraper.GatherLast | src/collector/web_scraper.py:50-80 | an element without a candidate changes nothing; a candidate whose joined url is already seen is skipped, any other appended |
| WebScraper.GatherDistinct | src/collector/web_scraper.py:57-75 | no strategy keeps the same url twice |
| WebScraper.GatherSound | src/collector/web_scraper.py:50-80 | every kept article is an element's candidate under its joined url |
| WebScraper.GatherComplete | src/collector/web_scraper.py:50-80 | every candidate's joined url is among the kept articles' urls |
| WebScraper.GatherEmpty | src/collector/web_scraper.py:53-70 | a strategy keeps nothing exactly when no element offers a candidate |
| WebScraper.ExtractDistinct | src/collector/web_scraper.py:41-82 | the extracted articles never share a url |
| WebScraper.ExtractFallback | src/collector/web_scraper.py:49-80 | the article elements decide the result when one has both a link and a heading; otherwise the headings alone do |
| WebScraper.ArticleProvenance | src/collector/web_scraper.py:50-64 | each article from the first strategy comes from an element with a link and a heading, titled by its heading, with its first paragraph or "" as summary |
| WebScraper.ScanArticles | src/collector/web_scraper.py:46-64 | the first loop keeps the article-element strategy's result and has seen exactly its urls |
| WebScraper.ScanHeadings | src/collector/web_scraper.py:66-80 | the second loop keeps the heading strategy's result |
| WebScraper.ExtractArticles | src/collector/web_scraper.py:41-82 | the article elements, then the headings only when those gave nothing |
| WebScraper.ScrapeSource | src/collector/web_scraper.py:85-109 | the signals of the source's page as Scraped defines them |
| WebScraper.ScrapedShape | src/collector/web_scraper.py:87-106 | a failed fetch yields []; otherwise one signal per extracted article with distinct urls, carrying the source's id, name and tier (2 by default) and no date or image |
| WebScraper.CollectAllScraped | src/collector/web_scraper.py:112-130 | the signals of every active scrape source in order, with one pause of request_delay_ms/1000 s (2 s by default) per such source |
| WebScraper.CollectScrapedFiltered | src/collector/web_scraper.py:119-123 | sources that are inactive or not of type "scrape" contribute nothing |
| WebScraper.CollectScrapedSources | src/collector/web_scraper.py:119-126 | every collected signal comes from a scrape source of the list |
| RssCollector.ChooseImage | src/collector/rss_collector.py:53-64 | the two searches, each stopping at its first match, give the entry's image as ImageOf defines it |
| RssCollector.ImagePreference | src/collector/rss_collector.py:54-64 | the first image media item's non-empty url wins; with no image media the first image enclosure's href; with neither, no image |
| RssCollector.EntrySignalsLast | src/collector/rss_collector.py:39-77 | an entry lacking a link or a title adds nothing; any other appends its signal after those of the earlier entries |
| RssCollector.CollectFromFeed | src/collector/rss_collector.py:23-84 | the loop with `continue` and the exception handler yields the feed's signals as FeedSignals defines them |
| RssCollector.EntrySignalsExact | src/collector/rss_collector.py:39-77 | a signal is collected exactly when some entry with a link and a title gives it |
| RssCollector.EntrySignalShape | src/collector/rss_collector.py:40-76 | an entry gives a signal iff it has a link and a title; the signal carries its link, title, summary, the source's id and tier (2 by default), the parsed date and the chosen image |
| RssCollector.RaiseKeepsEarlier | src/collector/rss_collector.py:33-84 | an entry that raises ends the collection with the signals of the entries before it |
| RssCollector.BozoIrrelevant | src/collector/rss_collector.py:35-37 | a malformed feed gives the same signals as a well-formed one: none without entries, its entries' otherwise |
| RssCollector.FeedSignalsExact | src/collector/rss_collector.py:39-84 | without a raising entry the signals are exactly those of the entries with a link and a title, in feed order |
| RssCollector.CollectAllRss | src/collector/rss_collector.py:87-106 | the signals of every active feed source, in configuration order |
| RssCollector.CollectRssFiltered | src/collector/rss_collector.py:96-100 | sources that are inactive or not of type "rss" contribute nothing |
| SendDigest.LexTotal | scripts/send_digest.py:27 | the name order `sorted` uses is total |
| SendDigest.LexTrans | scripts/send_digest.py:27 | the name order is transitive |
| SendDigest.LexRefl | scripts/send_digest.py:27 | the name order is reflexive |
| SendDigest.Latest | scripts/send_digest.py:27-32 | the chosen page is one of the names and matches digest-*.html |
| SendDigest.LatestIsGreatest | scripts/send_digest.py:27-32 | a page is chosen exactly when some name matches, and no matching name sorts after it |
| SendDigest.Stem | scripts/send_digest.py:37 | the stem followed by ".html" is the page's name |
| SendDigest.WeekOfStem | scripts/send_digest.py:38-40 | the week shown is never empty and starts with "0" only when it is "0" |
| SendDigest.NoLeadingZero | scripts/send_digest.py:40 | a positive week's decimal form has no leading zero |
| SendDigest.StripPadding | scripts/send_digest.py:40 | stripping leading zeros from a two-digit padded week gives its decimal form, or nothing for week 0 |
| SendDigest.WeekOfLastPart | scripts/send_digest.py:38-39 | with three or more parts only the last one decides the week |
| SendDigest.WeekRoundTrip | scripts/send_digest.py:36-40 | the composer's default page name matches digest-*.html and its stem reads back as the week it was written with |
| SendDigest.StemWeek | scripts/send_digest.py:36-40 | a digest stem digest-YYYY-Www reads back as the week without padding ("digest-2026-W08" gives "8") |
| SendDigest.SplitTwoDashes | scripts/send_digest.py:38 | splitting "--" and a dash-free part gives two empty parts and that part |
| SendDigest.WeekOfDashes | scripts/send_digest.py:39-40 | a last part "W" plus digits reads as the digits without leading zeros, "0" when all are zeros |
| SendDigest.WeekOfPart | scripts/send_digest.py:39-40 | a last part "W" and a zero-padded week reads as the week |
| SendDigest.WeekOfStemDefault | scripts/send_digest.py:38-41 | every stem with fewer than three "-" parts reads as week "0" (the "W00" default), and so does a last part "W00" |
| SendDigest.SendLatest | scripts/send_digest.py:24-66 | no matching page gives the exit with status 1; otherwise the latest page is sent to every active recipient in order, one result each, and the sent count is the number of results that were sent |
| SendDigest.SendToAll | scripts/send_digest.py:55-63 | one result per active recipient, in order, each the outcome of send_email to that address with the default three attempts |
| SendDigest.SentBound | scripts/send_digest.py:45-65 | no more emails are sent than there are active recipients |
| Pipeline.Sent | src/pipeline.py:64-77 | pause sets paused and closes the gate; resume clears paused and opens it; cancel sets cancelled and opens the gate, leaving paused as it was |
| Pipeline.GateOf | src/pipeline.py:103-110 | a checkpoint waits iff the gate is closed, raises the cancellation iff the gate is open and the run cancelled, and proceeds otherwise |
| Pipeline.PipelineControl.constructor | src/pipeline.py:56-62 | a fresh control is neither paused nor cancelled, its gate is open and no stage is named |
| Pipeline.PipelineControl.Pause | src/pipeline.py:64-67 | the flags become those of a pause |
| Pipeline.PipelineControl.Resume | src/pipeline.py:69-72 | the flags become those of a resume |
| Pipeline.PipelineControl.Cancel | src/pipeline.py:74-77 | the flags become those of a cancel |
| Pipeline.PipelineControl.Reset | src/pipeline.py:79-83 | every flag cleared and the gate open |
| Pipeline.PipelineControl.CheckPoint | src/pipeline.py:103-110 | the checkpoint's outcome on the current flags: Blocked, Proceed or the cancellation |
| Pipeline.Deliver | src/pipeline.py:64-83 | the commands arriving while the control is shared are applied in order |
| Pipeline.Check | src/pipeline.py:103-110 | the commands sent before a checkpoint arrive, then the checkpoint's outcome on the new flags |
| Pipeline.SentAllCoherent | src/pipeline.py:64-83 | any sequence of commands keeps the gate closed only while paused and not cancelled |
| Pipeline.BlocksWhenPaused | src/pipeline.py:103-110 | a checkpoint blocks iff the run is paused and not cancelled; a clear control proceeds |
| Pipeline.PauseResume | src/pipeline.py:64-72 | pause always blocks the next checkpoint; resume afterwards reopens the gate and clears the pause |
| Pipeline.CancelSticks | src/pipeline.py:74-110 | after cancel, commands other than pause leave the run cancelled with the gate open, so every checkpoint raises and none waits |
| Pipeline.PauseAfterCancel | src/pipeline.py:64-77 | cancel leaves paused as it was; a pause after cancel blocks the next checkpoint again until a resume or another cancel, which then raise |
| Pipeline.ResetClears | src/pipeline.py:79-83 | after reset a checkpoint proceeds, and keeps proceeding while no pause and no cancel arrive |
| Pipeline.NoPauseOpen | src/pipeline.py:64-83 | commands other than pause never close an open gate |
| Pipeline.StoreCollected | src/pipeline.py:153-167 | the loop as written: the rows and the last rowid become Collect of the old ones; each signal counts once, as new or re-queued; once a row was inserted on the connection every signal counts as new |
| Pipeline.CollectAfterRun | src/pipeline.py:155-167 | after the run row, every `lastrowid` the loop reads is non-zero, so the loop only inserts: its rows are InsertedAll of the old rows |
| Pipeline.InsertedAllKeeps | src/pipeline.py:155-157 | inserting only keeps one row per external id, leaves every stored row exactly as it was, adds rows with status 'new' only, and stores every signal |
| Pipeline.CollectedAsWritten | src/pipeline.py:155-167 | the collection loop as written, after the run row: no stored row changes (a signal scored in an earlier run stays scored), only new external ids are added as 'new', and every signal is stored |
| Pipeline.RequeueSkipped | src/pipeline.py:158-167 | a scored row collected again stays scored under the loop as written, while the intended re-queue sets it back to 'new' |
| Pipeline.StoreStepOnFreshConnection | src/pipeline.py:156-167 | the intended store step is what one turn of the loop does while the connection's last rowid is 0, where a known external id does read as 0 |
| Pipeline.StoreStepRows | src/pipeline.py:156-167 | the intended store step (insert, or re-queue a known id) keeps one row per external id, adds at most one row, leaves every other row unchanged and gives the signal's row status 'new' |
| Pipeline.StoredAllShape | src/pipeline.py:156-167 | intended storing keeps one row per external id and the external id of every row, and adds at most one row per signal |
| Pipeline.StoredAllNew | src/pipeline.py:156-167 | under the intended insert-or-re-queue, the row of every collected external id has status 'new' afterwards |
| Pipeline.StoredAllKeeps | src/pipeline.py:156-167 | under intended storing, the rows of external ids nobody collected are unchanged |
| Pipeline.StoredAllKnown | src/pipeline.py:156-167 | under intended storing, every collected signal has a row afterwards |
| Pipeline.StageCollect | src/pipeline.py:138-177 | one checkpoint between the two collectors; when it proceeds, the rows and last rowid are Collect of the old ones over all collected signals and the count is the number collected; when it does not, the table and last rowid unchanged |
| Pipeline.MarkedRows | src/pipeline.py:191-243 | setting a status changes exactly the rows whose id is among the signals, and nothing else |
| Pipeline.MarkedWithStatus | src/pipeline.py:185-191 | marking the rows found with one status moves exactly those rows to the other |
| Pipeline.HasIdWithStatus | src/pipeline.py:185-207 | a row is among those found with a status exactly when it has that status |
| Pipeline.ValidateOne | src/pipeline.py:190-191 | the signal's reports appended to the validation rows and its status set to 'validated' |
| Pipeline.ValidateAll | src/pipeline.py:188-192 | a checkpoint before each signal; on completion every signal found validated and marked, with one checkpoint per signal |
| Pipeline.StageValidate | src/pipeline.py:180-195 | the signals with status 'new' are validated and marked 'validated' in order, one checkpoint each, and the count is their number |
| Pipeline.ValidatedAfterRun | src/pipeline.py:138-195 | after collection and validation every stored row that was 'new' is 'validated' and every other stored row is unchanged, every row added is 'validated', and every collected signal is stored |
| Pipeline.BatchScorerAligns | src/pipeline.py:229-236 | the batch scorer of a run returns one analysis per signal of a batch whenever it returns |
| Pipeline.Scoring | src/pipeline.py:225-234 | the consecutive batches of ten give one analysis per signal, unless a batch raises |
| Pipeline.BatchesCount | src/pipeline.py:225 | the number of batches is the number of signals divided by ten, rounded up |
| Pipeline.Zip | src/pipeline.py:236 | as many pairs as signals |
| Pipeline.RecordBatch | src/pipeline.py:236-252 | each analysis of the batch stored, its units saved, its signal marked 'scored', and the kept signals exactly the pairs reaching the threshold, in order |
| Pipeline.Cap | src/pipeline.py:257-263 | a prefix of the list; with a non-negative cap exactly min(cap, length) entries |
| Pipeline.SelectedSorted | src/pipeline.py:246-263 | the digest signals are sorted by non-increasing composite and are a sub-multiset of the passing pairs |
| Pipeline.SelectedPassing | src/pipeline.py:246-263 | each digest signal was scored and its composite reaches include_in_digest |
| Pipeline.SelectedSize | src/pipeline.py:257-263 | the digest takes max_signals_per_digest passing pairs, or all when fewer pass |
| Pipeline.SelectedDominates | src/pipeline.py:254-263 | no passing pair left out of the digest scores above one chosen |
| Pipeline.LoopRaises | src/pipeline.py:225-234 | the loop raises exactly when scoring some batch raises |
| Pipeline.LoopAnalyses | src/pipeline.py:225-243 | a completed loop has stored the analyses of every batch in order |
| Pipeline.LoopBatches | src/pipeline.py:225-226 | a completed loop has gone through one batch, and one checkpoint, per ten signals |
| Pipeline.LoopPassing | src/pipeline.py:246-247 | a completed loop keeps exactly the pairs that reach the threshold, in scoring order |
| Pipeline.LoopTables | src/pipeline.py:241-243 | a completed loop leaves each table holding what storing every pair in order makes of it |
| Pipeline.LoopSummary | src/pipeline.py:225-252 | from the start the loop raises iff scoring raises, and otherwise kept, batches and tables are those of all the pairs |
| Pipeline.ScoreRound | src/pipeline.py:227-252 | one batch of at most ten signals scored and, unless scoring raises, recorded |
| Pipeline.ScoreBatch | src/pipeline.py:227-252 | one batch moves the loop to the next position, or raises only when the whole scoring raises |
| Pipeline.ScoreNext | src/pipeline.py:225-252 | a checkpoint, then one batch |
| Pipeline.ScoreAll | src/pipeline.py:225-252 | a checkpoint before each batch; completion leaves the loop's result in the tables and one checkpoint per batch |
| Pipeline.StageScore | src/pipeline.py:198-271 | the validated signals scored in batches of ten; every analysis stored and every signal marked 'scored', and the digest signals those reaching the threshold, sorted by non-increasing composite and capped |
| Pipeline.SendsExact | src/pipeline.py:339-346 | one result per recipient, the k-th that of send_email to the k-th address |
| Pipeline.StageDeliver | src/pipeline.py:321-351 | recipients not active are skipped; each active one gets a checkpoint, then send_email, one result each in order |
| Pipeline.Compose | src/pipeline.py:288-318 | the digest context of the signals, its subject, and a PDF path exactly when PDF mode is on and one of the two generators works, under the default PDF name |
| Pipeline.StageCompose | src/pipeline.py:274-318 | the stage named "composition", then the composed digest |
| Pipeline.EarlyStages | src/pipeline.py:370-380 | collection, validation and scoring with their checkpoints; the signals scored are the stored rows with status 'validated' after collection marked every 'new' row validated; on completion the collected count, the validated count (the 'new' rows after collection) and the digest selection of the scoring |
| Pipeline.StageTrends | src/pipeline.py:393-396 | with no scored signal stored the trend report is empty; otherwise it is for this week |
| Pipeline.LateStages | src/pipeline.py:392-404 | trends, composition of the digest signals, and delivery to the active recipients |
| Pipeline.RunStages | src/pipeline.py:369-404 | an empty selection ends early with no trends, composition or delivery; otherwise the digest is composed from the selection and sent to the active recipients; the counts, the scored signals and a scoring failure agree with the stages' functions of the rows before the run (`Pipeline.StagesAgree`) |
| Pipeline.Completion | src/pipeline.py:384-430 | exactly one terminal status: cancelled iff the user cancelled, failed iff something else raised (with its text), completed otherwise, with signals_scored 0 when nothing reached the digest |
| Pipeline.ReportOf | src/pipeline.py:390-431 | the returned dict matches the way the stages ended, one case each |
| Pipeline.Conclude | src/pipeline.py:423-435 | the run row completed with its terminal status, the stage name cleared and the connection closed |
| Pipeline.FullRun | src/pipeline.py:354-435 | the control reset, a "full" run row inserted and completed with exactly one terminal status, the stage cleared and the connection closed unless a checkpoint waits forever; the counts and the selection are those of the stored rows before the run (`Pipeline.StagesAgree`) |
| Pipeline.RunFullPipeline | src/pipeline.py:354-435 | run_full_pipeline with the AI batch scorer: every exit path leaves exactly one terminal run status, an empty stage name and a closed connection; the counts and the selection are those of the stored rows before the run |
| DryRun.SeedSignals | scripts/dry_run.py:178-198 | the seeding loop as written: the rows and last rowid become Collect of the old ones over the keyed seeds, and the count is the number of seeds on both branches |
| DryRun.SeedsStored | scripts/dry_run.py:185-196 | after the run row, seeding only inserts: every seed has a row under its key, stored rows are unchanged (a seed scored by an earlier dry run stays scored), and added rows are 'new' |
| DryRun.SeedsQueued | scripts/dry_run.py:185-196 | under the intended insert-or-reset, every seed has a row under its key and every such row has status 'new' |
| DryRun.ValidateEach | scripts/dry_run.py:237-240 | every new signal validated and marked 'validated', with no checkpoint |
| DryRun.ScoreEvery | scripts/dry_run.py:267-281 | the batches of ten in turn, each recorded before the next; completion gives the passing pairs and the tables of the scoring loop |
| DryRun.ScoreValidated | scripts/dry_run.py:262-292 | the validated signals scored with every analysis stored and every signal marked 'scored'; the digest signals are those reaching the threshold, sorted by non-increasing composite and capped, as in the pipeline |
| DryRun.SendAll | scripts/dry_run.py:351-363 | send_email to every active recipient, in order; the others skipped |
| DryRun.SeedAndScore | scripts/dry_run.py:230-299 | seeding, validation and scoring: the seed count, the number of new signals validated, and the digest selection of the scoring |
| DryRun.Deliver | scripts/dry_run.py:311-367 | trends updated as update_trends does, the digest composed from the selection, a PDF exactly when PDF mode is on and a generator works, and one delivery per active recipient |
| DryRun.DryStages | scripts/dry_run.py:229-374 | no validated signal or none above the threshold ends early with nothing composed; otherwise the digest is composed and delivered; it raises exactly when scoring raises |
| DryRun.DryCompletion | scripts/dry_run.py:248-253 | the dry run's row is failed with the message exactly when the body raised, and completed otherwise, with signals_scored 0 on an early end (also lines 303-308, 369-374, 385) |
| DryRun.Close | scripts/dry_run.py:383-388 | the run row completed, the connection closed, and the exception raised again exactly when scoring raised |
| DryRun.DryRunWith | scripts/dry_run.py:215-388 | a "dry-run" row inserted and completed with one terminal status, the connection closed, the seed count on a normal end |
| DryRun.RunDryRun | scripts/dry_run.py:215-388 | main with the AI batch scorer: the row completed, the connection always closed, and the error raised again on failure |

## Left out

### Outside services and I/O

- **Remote model.** The Anthropic SDK, its HTTP calls and JSON decoding are an oracle. It maps a prompt to "no result", an error kind or a decoded value. How good the model's analyses are is not modelled.
- **Waits.** `time.sleep` durations are returned as a list of wait values, not slept.
- **Logging.** All logging calls are left out.
- **Collection.** The network fetch (`requests`), `feedparser` and BeautifulSoup are parameters. They yield the parsed elements the code inspects (article elements, headings, feed entries with their media and enclosures).
- **Dates and ids.** `datetime(*published[:6]).isoformat()` and the SHA-256 external ids are parameters too.
- **Regexes.** Regex engines are replaced by direct definitions of the two patterns that matter: the tag pattern of `_clean_html` and the dollar-amount pattern of the impact heuristic.
- **URLs.** `urlparse(url).netloc` is a parameter. The www-stripping and lower-casing applied to its result are modelled.
- **Storage.** The SQLite engine, `schema.sql` and connection handling are modelled as tables held as values inside classes. The connection is an `isOpen` flag.
- **Configuration.** The JSON configuration files, the environment and their loaders (src/config.py) are parameters or the fields of the API's state. Saving them back is not modelled. The prompt passages and the heuristic's per-class texts are not configuration: they are fixed in the source, and the model has them as constants (`Prompts.DeployedInstructions`, `Scorer.DeployedNarrative`).
- **Clock.** `datetime.now()` and ISO-week computation are parameters: week, year, date and timestamp strings.
- **Rendering.** Jinja rendering (`render_digest`), writing the HTML and PDF files, the weasyprint and reportlab layout beyond the signal card, and the MIME construction in `create_email_message` with `_build_pdf_cover_html` are left out.
- **Transports.** SMTP and Gmail API transport are left out. Each attempt's outcome is a parameter.
- **Gmail service.** Caching in `_get_gmail_service` and `reset_service` appear only as an `authorized` flag.
- **Mock delivery.** The file name and content of the mock mode are modelled; writing the file is not, so a failed write is not modelled.
- **Other files.** src/delivery/auth.py, src/config.py, scripts/scheduler.py and scripts/test_smtp_local.py are not part of this model. They are I/O and library glue.

### Concurrency and control flow

- **Threads.** The `Lock` and `Event` of `PipelineControl` and the API's background thread are modelled sequentially.
  - The operator's commands are a list per checkpoint, delivered before that checkpoint runs.
  - A checkpoint whose gate is closed returns `Blocked`, and the run that reaches it is reported as `Stuck`. The model does not resume a blocked run.
  - `run_pipeline` and the two halves of `_run_pipeline_bg` are separate methods, so thread interleavings are not enumerated.
- **Exceptions.** The only exceptions modelled are these:
  - the pipeline's cancellation;
  - the `ValueError`/`TypeError`/`KeyError` that scoring can raise on a malformed reply;
  - HTTP errors of the API, as `Reply.HttpError`;
  - the delivery errors, as attempt outcomes.

  Any other exception a stage could raise (a database error, say) is not modelled. The text of the exception that ends a run is a parameter (`raised`) of the run.
- **`requires` on batch scorers.** The scoring stage takes the batch scorer as a function value. Its contract requires that scorer to return one analysis per signal (`Pipeline.Aligns`). `Pipeline.BatchScorerAligns` proves this of the real batch scorer.
- **Dry-run seeds.** The contents of `SEED_SIGNALS` are a parameter of the dry run.

### Numbers and formatting

- **Rounding.** `round(x, 2)` on composites and averages, `round(x, 3)` on relevance, `round(change, 1)` and the `:.0f` of an inexact float are not modelled. Arithmetic is exact, and `:.0f` is Python's round-half-even of the exact value. Python's round-half-even to an integer is modelled where the source converts a score to an integer (src/analyzer/scorer.py:131).
- **Text.** Text functions (`lower`, `isspace`, `str.title`, `\w`) are defined on ASCII. Non-ASCII letters and whitespace are not case-folded or stripped as Python would.

### Modelling assumptions

- **`insert_signal`.** It returns `cursor.lastrowid` (src/db.py:58), which sqlite3 takes from the connection's last inserted rowid. An ignored `INSERT OR IGNORE` leaves that value as it was. The model keeps it as a field of the connection (`Db.Store.lastRowId`), set by the run row and by every signal actually inserted; see "## Findings" for what this means for the re-queueing branches.
- **`insert_analysis` and `save_signal_bus`.** Neither is in src/db.py as shown. They are modelled as replacing the analysis and the BU links of the signal.
- **Snapshot uniqueness.** Uniqueness of `trend_snapshots` on (trend, week, year), and of `trends` on `trend_key`, is assumed from the `INSERT OR REPLACE` and upsert statements. The schema that would declare it is not part of this model.
- **New trends.** A new trend's `week_over_week_change` is taken to be 0.0, assumed to be the schema default.
- **Sort ties.** Ties in the trend query's `ORDER BY composite_score DESC` are broken by table order. Python's sorts are stable, and so is the model's `Sorting.SortDesc`.
- **Summary ties.** The summary query orders by the momentum rank and then `occurrence_count DESC` (src/trends/tracker.py:231-238). SQLite returns rows equal on both in an order it does not specify. The model breaks such ties by table order (`Tracker.SummaryOrder`).
- **Source `active` flag.** `Model.SourceConfig.active` is an optional boolean, and the collectors skip a source only when it is `false`. The source skips every falsy value, such as `0`, `""` or `null` (src/collector/web_scraper.py:119, src/collector/rss_collector.py:96). A non-boolean `active` value is not modelled.
- **Business unit ids.** `Server.Server.Valid` keeps an "id" in every business unit. Without one, `update_business_unit` raises a `KeyError` at `bu["id"]` (src/api/server.py:193) rather than skipping the unit. The prompts (src/analyzer/prompts.py:36), the scorer (src/analyzer/scorer.py:92) and the composer (src/composer/composer.py:65) index `bu["id"]` the same way, so a configuration without ids fails throughout and is not modelled.
- **Status query order.** `get_signals_by_status` orders by `collected_at DESC`. The model orders by id, newest first, which is the same order when rows are stored in collection order (`Db.WithStatusOrdered`).
- **PDF headline.** The card's "Untitled Signal" default is left out, since an analysis always carries a headline in the model.

### Contracts stated weaker than the source

- Scorer.ImpactBand: its contract states only that a band is never "TBD". The band strings for revenue ≥8/≥6/≥4/else are its definition, and `Scorer.ValidImpact` states the replacement rule.
- Validator.TotalSources: its contract states only the lower bound of 1. The level thresholds are stated by `Validator.LevelOf` and `Validator.ValidateSignal`.
- Pdf.StripTags: its contract states only that no ">" is introduced. `Pdf.StripTagsTagFree` and `Pdf.CleanHtmlShape` state the full cleaning properties.
- Db.WithStatus: its contract states only that the result is bounded. `Db.WithStatusExact` and `Db.WithStatusOrdered` state membership and order.
- Scorer.FieldOr: a text field of the reply is either absent or a string. A field present as JSON `null` or as a non-string is not modelled: `setdefault` keeps a present `null`, so the analysis would carry `None`, and a `null` headline raises a `TypeError` at `result["headline"][:50]` (src/analyzer/scorer.py:196), which `score_signal` does not catch. `Scorer.Validate` and `Scorer.FromReply` inherit this restriction.
- Prompts.ScaleItems: each scale key is printed as `Text.NatToString` of its number. The source prints the configuration's key text (src/analyzer/prompts.py:94), which differs for a key written with leading zeros such as "07", and raises a `ValueError` when `int()` rejects a key. Scale keys are modelled as numbers.
- Db.ValidationCount: its contract states only the upper bound. `Db.CountAfterInsert` states that each insertion adds one for its signal.

## Findings

| source | as written | input that shows it | evidently intended | confidence | as-written member | corrected member |
|---|---|---|---|---|---|---|
| src/pipeline.py:155-167 | `if row_id:` tests `insert_signal`'s `lastrowid`, which is the connection's last inserted rowid; after `insert_pipeline_run` (src/pipeline.py:367) it is never 0, so an already stored signal is never set back to 'new' | a signal stored and scored by an earlier run (row 1, status scored) and collected again: its row stays scored and it is not re-scored | a known external id has its row reset to 'new' and is counted as re-queued, as the comment at line 161 says | not executed | Pipeline.RequeueSkipped | Pipeline.StoredAllNew |
| scripts/dry_run.py:185-196 | the same test in `seed_signals`; the run row is inserted first (scripts/dry_run.py:227), so existing seeds are never reset | a second dry run on the same database: the seeds scored by the first keep status scored, so no signal is new and the run ends with nothing to score | existing seeds are set back to 'new' and reprocessed, as the docstring says | not executed | DryRun.SeedsStored | DryRun.SeedsQueued |
