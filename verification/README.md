# Verification of the OLX crawler pipeline

A Dafny model of the crawler and proofs about it. `dafny verify dfyconfig.toml` checks everything.

## What is modelled

The system is a four-stage pipeline over RabbitMQ and Postgres. Discovery reads search pages and publishes listing
links and its own next page; the fetcher stores pages and hands them to the parser; the parser stores seller, listing
and snapshot in one transaction and asks for the seller to be enriched; the enricher reads the seller's profile,
publishes every listing on it to the fetcher and stamps the seller. Parser, enricher and fetcher form a cycle that only
the stamp stops.

The model has three layers.

- **The retry protocol.** `Topology` is `Declare` over the broker's queues, arguments and bindings. `XDeath` is the
  broker's x-death bookkeeping and the consumer's loop over it. `Consumer` is `dispatch`, `ConsumerRun` is `Run` with its
  goroutines and WaitGroup, `Publisher` is publishing with confirms. `RetryProtocol` puts broker, deliveries and policy
  together as a transition system: publish, deliver, handler outcome, promotion with a confirm that may be lost,
  settlement that may be lost, crash with redelivery, TTL expiry, clock. `Overrun` is about the budget.
- **The pipeline.** `Store` has the tables as values and the SQL statements as functions, `Database` the same statements
  as methods of an object. `Handlers` has the four `Handle` methods with their publish loops. `Pipeline` is the whole
  crawler as a transition system in which handlers are split at every effect, so that a failure, panic or crash can fall
  between any two; `OwnRuns` and `HandlerRuns` show that whatever a handler method does is a run of that system. On top of it:
  `Lineage`, `FanOut`, `Gates`, `HtmlClaim`, `HtmlOnce` and `HtmlRuns`, `Termination`, `Progress`, `DiscoveryBound`.
- **Data.** `Links` (link extraction), `Json`, `Scanner` and `Page` (the embedded page state), `Hash` (snapshot keys),
  `StoreHistory` (rows as functions of statement histories), `Scoring` (aggregate, score, ranking), `CrawlTables` (the
  same for the tables of a running crawler).

Time is one monotone clock. What comes from outside is an input: site answers, outcomes of calls, what happens on the
wire, how a link resolves, how the embedded JSON decodes. SHA-256 is taken as injective, the broker as reliable.

## Where the code and its comments disagree

- The comment at `internal/fetcher/fetcher.go:176-179` says a failed publish is repaired by the retry. The claim taken
  from it is that every stored page is handed on or the message that stored it is still pending or dead. "Handed on"
  allows a newer stored row of the same url to answer for an older one, and a newer fetch to have found the url gone.
  With failed publishes and no crash the claim holds in all reachable states if and only if `MinRefetchInterval` is zero
  or the fetcher's retry budget is one (`HtmlRuns.CrashFreeClaimIff`): otherwise a row stored meanwhile by another
  message for the url closes the gate on the retry (`FailedPublishStrandsPage`). With crashes it holds if and only if the
  interval is zero (`ClaimIffGateOff`, `CrashStrandsPage`). Read literally, one parse task for each stored row, it holds
  without crashes if and only if the budget is one (`CrashFreeLiteralIff`), and with crashes under no settings
  (`LiteralClaimFails`). All of this is just as true of the states in which nothing is left to handle: the pages are
  stranded for good.
- A message can be rejected more than `MaxRetries` times: the deferred recover also covers `PublishDead`, so a panicking
  promotion is nacked into the retry queue. `Overrun.OverBudgetIffPromotionPanicked`: over any run the budget is exceeded
  if and only if such a nack reached the broker; `Overrun.PanicOverruns` is a run, and
  `RetryProtocol.RejectionsWithinBudget` bounds the excess by the number of panics.
- `MarkSellerEnriched` is called after "even a 404'd profile", as its comment says, but not after a transient failure.
- The listing upsert leaves `url` alone, so a listing keeps the first url it was seen under
  (`StoreHistory.ListingRowIs`); no comment says so.
- `Declare` on an empty broker succeeds if and only if no queue name is another one's retry or dead name; repeated names
  are harmless (`Topology.DeclareFromEmpty`).
- Finding the marker by first occurrence is sound even when the text before it ends in the beginning of the marker
  (`Scanner.OpeningQuote`).
- The snapshot key collides if a part holds a NUL (`Hash.SumCollidesOnNul`); the schema's TEXT columns refuse such a
  part, so no stored state does.

## Model

| member | source | states |
|---|---|---|
| XDeath.CountDeaths | internal/queue/consumer.go:210-238 | the loop over the header array returns the total over its rejected entries, for headers of any shape |
| XDeath.CountIs | internal/queue/consumer.go:210-238 | each table with reason "rejected" adds its integer count of any width, anything else nothing, no x-death list counts zero |
| XDeath.RecordDeathCounts | internal/queue/consumer.go:197-209 | one more rejection recorded by the broker raises the count by one, an expired hop leaves it, whatever was in the headers |
| XDeath.BumpIs | internal/queue/consumer.go:197-209 | the entry of queue and reason comes to the front, one higher or new; the others stay in order |
| XDeath.RecordDeathIs | internal/queue/consumer.go:197-209 | a hop touches no other header |
| XDeath.OrderIrrelevant | internal/queue/consumer.go:219-236 | any reordering of the entries gives the same count |
| Topology.Declare | internal/queue/topology.go:75-134 | the two loops compute the declared topology, or err exactly when some declaration is refused, leaving what came before it |
| Topology.FailedDeclareKeeps | internal/queue/topology.go:93-131 | a failed Declare removes nothing and has built every stage before the refused one |
| Topology.DeclareFromEmpty | internal/queue/topology.go:93-131 | on an empty broker it succeeds iff no name clashes; then every stage has its three queues, arguments and bindings, there is no other queue, and a key that is no stage's name routes nowhere |
| Topology.RoutesWithinStage | internal/queue/topology.go:97-130 | publish, rejection, expiry and dead publish of a stage each route to exactly one queue, all of the same stage |
| Topology.DeclareIdempotent | internal/queue/topology.go:70-74 | from any broker state a second Declare succeeds and changes nothing |
| Topology.PipelineQueuesReady | internal/queue/topology.go:63-68 | the four queues of the pipeline, by name, do not clash, so their topology is ready |
| Consumer.Subscription.constructor | internal/queue/consumer.go:61-66 | defaults for prefetch and budget |
| Consumer.Subscription.Dispatch | internal/queue/consumer.go:150-195 | the one call and, after it, the one settlement attempt and which one it is, for every outcome including panics |
| Consumer.PolicyIsSafe | internal/queue/consumer.go:154-194 | exactly one settlement; acked iff the handler succeeded or the dead copy was confirmed; requeued iff promotion failed; the handler is called iff budget is left |
| ConsumerRun.RunSafe | internal/queue/consumer.go:126-141 | over all runs, also after the channel died: waiting deliveries and running handlers together never exceed prefetch, one settlement attempt per delivery, and a normal return leaves no delivery unpulled and no handler unfinished |
| ConsumerRun.UnackedIs | internal/queue/consumer.go:126-141 | while the stream is open the broker counts exactly the deliveries it handed over and got no settlement for |
| Publisher.Publisher.Publish | internal/queue/publisher.go:96-133 | fresh headers on the work exchange; no error iff the broker acked; it has the message iff it acked or took it silently |
| Publisher.Publisher.PublishDead | internal/queue/publisher.go:142-179 | the same on the dead exchange with reason and origin |
| Publisher.TakenArrivesOnce | internal/queue/publisher.go:92-95 | with the declared bindings a taken message is in exactly one queue with rejection count zero; without a binding it is acked and in none |
| RetryProtocol.StepKeeps | internal/queue/consumer.go:150-195 | every event keeps the invariant: place, body, rejection count, budget, dead copies, prefetch 1 |
| RetryProtocol.DispatchFollowsPolicy | internal/queue/consumer.go:164-194 | from the gate the protocol does what Dispatch of a subscription built with the consumer's setting does: handler below MaxRetries (5 if not set), promotion from there on, and the settlement of that trace |
| RetryProtocol.NoMessageLost | internal/queue/consumer.go:150-195 | in every reachable state each message ever routed was handled, is still in its stage unchanged, or has its copy in the dead queue |
| RetryProtocol.HandledMeans | internal/queue/consumer.go:180-194 | handled means that a handler run on the message returned nil |
| RetryProtocol.AnythingCanFail | internal/queue/consumer.go:150-195 | handlers and promotions may come back any way, settlements may be lost, deliveries taken back, at any point |
| RetryProtocol.StaysInStage | internal/queue/topology.go:93-131 | for any ready topology nothing leaves its own queue, retry queue and dead queue, and nothing foreign is in a work queue |
| RetryProtocol.HeadersCountRejections | internal/queue/consumer.go:197-210 | the count read off the headers is the number of rejections in the run |
| RetryProtocol.RejectionsWithinBudget | internal/queue/consumer.go:157-178 | rejections never exceed MaxRetries, 5 if not set, plus the promotions that panicked |
| Overrun.OverBudgetIffPromotionPanicked | internal/queue/consumer.go:157-178 | over any run a message is rejected more often than MaxRetries, 5 if not set, iff a nack after a panicked promotion of it reached the broker |
| Overrun.PanicOverruns | internal/queue/consumer.go:157-173 | a run in which that happens |
| RetryProtocol.NeverHandledAgain | internal/queue/consumer.go:164-178 | after MaxRetries rejections, 5 if not set, the handler is never called again, however promotion goes |
| RetryProtocol.RejectionWithoutBindingLoses | internal/queue/topology.go:115-117 | without the retry binding a rejection would lose the message |
| Store.LatestIsNewest | internal/db/sqlc/fetches.sql.go:34-39 | the looked-up row is a newest one of its url; none iff the url has none |
| Database.Database.UpsertSeller | internal/db/sqlc/sellers.sql.go:67-94 | insert or update in place; registration date kept once known; stamp and label untouched |
| Database.Database.UpsertListing | internal/db/sqlc/listings.sql.go:104-151 | insert or update in place; url, id and first-seen times kept |
| Database.Database.InsertListingSnapshot | internal/db/sqlc/listings.sql.go:68-75 | appends or does nothing, and says which |
| Database.Database.MarkEnriched | internal/db/sqlc/sellers.sql.go:55-57 | stamps the row of the id and no other |
| Database.Database.Label | internal/db/sqlc/classifier.sql.go:164-182 | sets or clears the label; refuses anything but the two labels for a stored seller |
| Database.Database.AddFetch | internal/db/sqlc/fetches.sql.go:56-63 | appends one row under a new id |
| Database.Database.GetLatestFetchByURL | internal/db/sqlc/fetches.sql.go:34-54 | a scan that returns the latest row |
| Database.Database.ParseTransaction | internal/parser/worker.go:81-139 | all three statements or no table change, wherever it fails |
| Handlers.HandleDiscover | internal/discovery/discovery.go:82-146 | its calls, spelled out: nothing and an error for a bad task or an unusable answer, nothing past the last page, otherwise a fetch task for every link in order and then the next page, up to the first call not confirmed |
| Handlers.HandleFetch | internal/fetcher/fetcher.go:84-188 | a young row drops the task, a transient answer is an error and no row, a 4xx is a row without html, a page is one row with its status and html and its parse task |
| Handlers.HandleEnrich | internal/enrich/enrich.go:81-157 | unknown or fresh sellers are dropped, an unreadable profile is an error and no stamp, every link of a readable one is published and the stamp comes only if all were confirmed |
| Handlers.HandleParse | internal/parser/worker.go:43-158 | the tables hold what was parsed, column by column, and the enrich task is sent; or an error and no trace but spent ids |
| Handlers.DiscoversIs | internal/discovery/discovery.go:82-146 | the same of the value the method computes |
| Handlers.FetchesIs | internal/fetcher/fetcher.go:84-188 | the same for the fetcher |
| Handlers.EnrichesIs | internal/enrich/enrich.go:81-157 | the same for the enricher |
| Handlers.ParsesIs | internal/parser/worker.go:43-158 | the same for the parser |
| HandlerRuns.DiscoverIsRun | internal/discovery/discovery.go:82-146 | what the method does is a run of the transition system on the same inputs: it reads the links the handler read, its calls fare as the handler's did, and result, tables and publishes agree |
| HandlerRuns.FetchIsRun | internal/fetcher/fetcher.go:84-188 | the same for the fetcher: the run stores the status and html of the reply |
| HandlerRuns.ParseIsRun | internal/parser/worker.go:43-158 | the same for the parser: the run commits the parsed value |
| HandlerRuns.EnrichIsRun | internal/enrich/enrich.go:81-157 | the same for the enricher: the run reads the profile links the handler read, and none if there were none to read |
| Pipeline.StepKeepsBase | internal/queue/consumer.go:150-195 | every action keeps the protocol invariant, and handlers run exactly where the protocol is handling |
| Pipeline.RunProjects | internal/queue/consumer.go:180-194 | every run of the crawler is a run of the retry protocol |
| Pipeline.PipelineLosesNothing | internal/queue/consumer.go:150-195 | so nothing the crawler routes is ever lost |
| Lineage.LineageHolds | internal/fetcher/fetcher.go:144-174 | in every reachable state a parse task names a stored page of its url, an enrich task a stored seller, a listing a stored seller |
| Lineage.DefensiveBranchesUnreachable | internal/enrich/enrich.go:92-98 | without hand-made tasks the no-page, no-html, unknown-seller and no-profile branches never run |
| FanOut.StampedMeansFannedOut | internal/enrich/enrich.go:115-154 | behind every stamp each link of the profile was routed to the fetch queue during that handling and is not lost |
| FanOut.StampRecordsItsProfile | internal/enrich/enrich.go:126-154 | those are the links of the profile that handling read last |
| Gates.FetchesSpaced | internal/fetcher/fetcher.go:101-120 | with serial fetching, two stored fetches of one url are at least the refetch interval apart, over any run |
| Gates.StampsOfOneSellerSpaced | internal/enrich/enrich.go:103-113 | with serial enriching, two stamps of one seller are at least the freshness window apart, over any run |
| Gates.EnrichedAfter | internal/db/sqlc/sellers.sql.go:82-92 | only a mark touches the stamp, and only its seller's |
| Gates.EnrichGateIs | internal/enrich/enrich.go:103-113 | the gate of a stored seller is closed exactly inside the window of its stamp and open from its end on |
| Gates.SkipIs | internal/fetcher/fetcher.go:101-113 | where each of the four handlers returns nil at once |
| Gates.GoesOnIs | internal/discovery/discovery.go:90-118 | and where it goes on |
| Gates.GoesOnLaterIs | internal/fetcher/fetcher.go:131-142 | only an answer worth storing is stored; a stamp or a return needs every publish done |
| HtmlClaim.ClaimWithGateOff | internal/fetcher/fetcher.go:163-180 | gate off: every stored page is handed on, by the parse task of a stored row or a newer 4xx row, or its message is pending or dead |
| HtmlClaim.StrayTaskAnswersNothing | internal/fetcher/fetcher.go:174-180 | a hand-made parse task that names no row of its url stored so far hands nothing on in any later state, not even the row that gets its id |
| HtmlRuns.ClaimIffGateOff | internal/fetcher/fetcher.go:176-179 | that holds in all reachable states iff the refetch interval is zero, and in all reachable states with nothing left to handle iff it is zero |
| HtmlRuns.CrashFreeClaimIff | internal/fetcher/fetcher.go:176-179 | without a crash it holds, in all states or in all those with nothing left to handle, iff the interval is zero or the retry budget is one |
| HtmlOnce.LiteralWithBudgetOne | internal/fetcher/fetcher.go:163-180 | budget one, no crash, any interval: each stored page has its own parse task or its message is pending or dead |
| HtmlRuns.CrashFreeLiteralIff | internal/fetcher/fetcher.go:176-179 | read literally it holds without a crash, in either set of states, iff the retry budget is one |
| HtmlRuns.LiteralClaimFails | internal/fetcher/fetcher.go:176-179 | whatever the settings, some reachable state with nothing left to handle violates the literal reading |
| HtmlRuns.CrashStrandsPage | internal/fetcher/fetcher.go:101-113 | any positive interval: a run with one crash that strands a page for good |
| HtmlRuns.FailedPublishStrandsPage | internal/fetcher/fetcher.go:175-180 | any positive interval and a budget of two or more: a crash-free run with failed publishes that does |
| HtmlRuns.RetryFindsUrlGone | internal/fetcher/fetcher.go:144-159 | gate off, budget two or more: a crash-free run against the literal reading |
| HtmlRuns.RedeliveryFindsUrlGone | internal/fetcher/fetcher.go:144-159 | gate off, any budget: a run with one crash against it |
| Termination.StepDecreases | internal/enrich/enrich.go:103-154 | inside one freshness window every action lowers the potential, except that a fault may raise it by a fixed price |
| Termination.EveryRunStops | internal/enrich/enrich.go:103-154 | from any reachable state a run is no longer than a number fixed by the state, the settings and the number of faults |
| Termination.ProfileStartsFanOut | internal/enrich/enrich.go:103-148 | a seller is fanned out once per window: reading a profile starts from an unstamped seller nobody else is enriching |
| Progress.CanMoveOn | internal/queue/consumer.go:150-195 | a message in a stage always has a next step of its own or of the delivery it waits behind, with no crash, failure or lost settlement, at the latest when its TTL has run out |
| Progress.BeginMoves | internal/fetcher/fetcher.go:84-131 | a handler that is called does its first step, returns nil at a gate, or errs because the task itself cannot be handled |
| Progress.QuietMeansDone | internal/queue/consumer.go:150-195 | where the crawler cannot move on by itself everything was handled or is in a dead queue, unless a settlement was lost |
| Progress.RunsStopDone | internal/enrich/enrich.go:103-154 | a run inside one freshness window with finitely many faults stops, and where it stops for good everything is done, unless a settlement was lost |
| Progress.CanAlwaysFinish | internal/queue/consumer.go:150-195 | from every reachable state some run finishes everything, with no fault but the broker taking back deliveries whose settlement was lost |
| DiscoveryBound.DiscoveryIsBounded | internal/discovery/discovery.go:134-143 | whatever crashes or fails: with at most R handler calls a message, counted in the run, one bootstrap yields at most 1 + R + ... + R^(pages left) discover messages |
| DiscoveryBound.CallsWithinBudget | internal/queue/consumer.go:164-178 | over any run a message is handled at most MaxRetries times, 5 if not set, and once more for each crash under it |
| DiscoveryBound.CrashBound | internal/discovery/discovery.go:90-143 | so R is MaxRetries, 5 if not set, plus the crashes under one message |
| DiscoveryBound.FailureFreeBound | internal/discovery/discovery.go:90-143 | when nothing fails there is at most one message a page |
| DiscoveryBound.NeverPastLastPage | internal/discovery/discovery.go:93-143 | whatever fails, every further message is for the same search and a later page up to the last allowed |
| DiscoveryBound.TreeIsPowerSum | internal/discovery/discovery.go:134-143 | the tree of retries and next pages has the size of a power sum |
| Links.FetchListingURLs | internal/discovery/discovery.go:150-203 | an error exactly for an unusable answer, no links for a refusal, otherwise the cleaned listing links of the anchors, once each, in the order they are first given |
| Links.FetchProfile | internal/enrich/enrich.go:162-207 | the same for hrefs as they stand |
| Links.HrefsAsTheyStand | internal/enrich/enrich.go:192-205 | what the enricher extracts are the hrefs of the page that start with a listing prefix, untouched |
| Links.ExtractedIs | internal/discovery/discovery.go:185-202 | the result is the one list that is duplicate-free, holds exactly the links some anchor gives, and is in the order in which anchors first give them |
| Links.DedupIs | internal/discovery/discovery.go:196-200 | first occurrences: distinct, same elements, same order |
| Links.OnlyDedup | internal/discovery/discovery.go:196-200 | and nothing else has these three properties |
| Links.AcceptedIs | internal/discovery/discovery.go:192-195 | collected means: the cleaned href of some anchor, not empty, with one of the two listing prefixes |
| Links.ExtractedAreLinks | internal/discovery/discovery.go:208-211 | what extraction returns is what the pipeline assumes of links |
| Json.DecodeReads | internal/parser/parser.go:264-270 | a text written by section 7 of RFC 8259, character by character as itself, by one of the eight short escapes, by its code unit or its surrogates, decodes to the text |
| Json.DecodeReadsLoosely | internal/parser/parser.go:264-270 | with lone surrogates among the pieces too, each read as U+FFFD |
| Json.UnitIs | internal/parser/parser.go:264-270 | a \uXXXX escape is read as the number whose hex digits, in either case, it has |
| Json.ShortIs | internal/parser/parser.go:264-270 | the short escapes read are exactly those of the standard |
| Json.SurrogatesOf | internal/parser/parser.go:264-270 | two surrogates are read as the code point they stand for |
| Json.DecodeOnlyReads | internal/parser/parser.go:264-270 | what decodes is such a writing of the result, lone surrogates aside |
| Scanner.ExtractPrerenderedState | internal/parser/parser.go:244-275 | the method computes the specified extraction |
| Scanner.WalkLiteral | internal/parser/parser.go:257-274 | the escape-skipping loop, overshoot included, finds the first unescaped quote and terminates |
| Scanner.StopsAtFirstClose | internal/parser/parser.go:257-274 | it stops at the first quote behind an even run of backslashes |
| Scanner.UnterminatedExactly | internal/parser/parser.go:274-274 | it reports an unterminated literal iff there is no such quote |
| Scanner.MissingExactly | internal/parser/parser.go:246-254 | no marker, or no quote behind the first marker: reported exactly then |
| Scanner.ExtractionRoundTrip | internal/parser/parser.go:244-275 | any text, any valid escaping, any prefix without the marker, any gap without a quote, any suffix: exactly the text comes back |
| Scanner.OpeningQuote | internal/parser/parser.go:245-254 | the intended literal is found even if a marker overlaps the prefix |
| Scanner.ExtractedWasEmbedded | internal/parser/parser.go:244-275 | what comes back stands there, between the first such quotes |
| Page.ParseMeetsAssumption | internal/parser/parser.go:75-158 | a parsed page has a seller id and, if the page has a url, a profile url; no price means no currency |
| Page.StateIsParsed | internal/parser/parser.go:84-132 | each field of the embedded advertisement reaches its column; an undecodable state, a missing id or a missing user is an error |
| Page.FallbackIsParsed | internal/parser/parser.go:139-165 | without a state: ids made from the url, the page's url and title, no price |
| Page.OnlyTheEmbeddedTextCounts | internal/parser/parser.go:75-87 | surroundings and escaping of the state make no difference to the result |
| Hash.Sha256NewSum | internal/parser/hash.go:10-16 | the loop hashes the framed parts |
| Hash.ReadableIffNulFree | internal/parser/hash.go:10-16 | the framing can be read back iff no part holds a NUL |
| Hash.SumInjective | internal/parser/hash.go:10-16 | NUL-free part lists share a digest iff they are equal |
| Hash.SumCollidesOnNul | internal/parser/hash.go:10-16 | two different states that share one |
| StoreHistory.SellerRows | internal/db/sqlc/sellers.sql.go:67-94 | after any history: one row per seller committed, first registration date, last other columns, stamp and label since the row exists, updated at the last statement that touched it |
| StoreHistory.ListingRows | internal/db/sqlc/listings.sql.go:104-151 | after any history: id, url and first-seen times of the first parse, everything else of the last |
| StoreHistory.SellerStep | internal/db/sqlc/sellers.sql.go:82-92 | which statement changes which seller column |
| StoreHistory.ReplayMovesOnlyTimes | internal/parser/worker.go:150-152 | an immediate replay of a parse changes timestamps only |
| StoreHistory.SnapshotsMatchStates | internal/db/sqlc/listings.sql.go:68-75 | snapshot rows of a listing are in bijection with the distinct states ever committed for it |
| StoreHistory.CurrentStateHasSnapshot | internal/parser/worker.go:122-129 | the current state is among them, up to the default status |
| StoreHistory.KnownStateAddsNothing | internal/db/sqlc/listings.sql.go:84-88 | a replay, or the way back from another state, adds no row |
| StoreHistory.NewStateAddsOne | internal/db/sqlc/listings.sql.go:84-88 | a new state adds exactly one, which holds that state and the time |
| CrawlTables.TablesAreHistory | internal/parser/worker.go:81-139 | in every reachable state of the crawler the tables are those of the statements committed on the way, so the row, snapshot and total results hold there |
| Scoring.TotalsAddUp | migrations/0001_init.sql:167-180 | after any history the totals of the sellers sum to the number of listings, moves included |
| Scoring.StatsAreOfLastRefresh | internal/db/sqlc/classifier.sql.go:263-273 | between refreshes the aggregate, and its sum, are those of the last one |
| Scoring.StatsForEachSeller | migrations/0001_init.sql:167-180 | a fresh aggregate has a row for every seller and nobody else |
| Scoring.StatsCount | migrations/0001_init.sql:167-180 | it counts the seller's listings, the active ones, and the districts and cities they name |
| Scoring.ScoreInRange | migrations/0007_seller_manual_label.sql:22-64 | scores in [0, 1]; upper clamp never needed, lower one exactly when; private at least 0.3, business at most 0.2 |
| Scoring.ScoreTiers | migrations/0007_seller_manual_label.sql:22-64 | the four tiers of the score, number by number, and their sum |
| Scoring.LabelPins | migrations/0007_seller_manual_label.sql:58-60 | a label pins the score until the next accepted label, whatever else happens |
| Scoring.RankingIsDetermined | internal/db/sqlc/classifier.sql.go:275-280 | after any run the query has one possible answer, the sorted prefix |
| Scoring.AnswerReads | internal/db/sqlc/classifier.sql.go:275-280 | score, then active listings, both descending, then seller id; rows carry their seller's values |
| Scoring.NobodyLeftOut | internal/db/sqlc/classifier.sql.go:275-280 | a seller with enough active listings is in the answer unless the answer is full |
| Scoring.PrivateBeforeBusiness | internal/db/sqlc/classifier.sql.go:275-280 | every unlabelled private seller listed comes before every unlabelled business |

## Left out

- Order within a queue: any ready message may be delivered next, so requeue at the head and round-robin are covered but
  not distinguished; nothing here depends on order.
- RabbitMQ's durability, its drop of dead-letter cycles without a rejection, and channel limits: the broker is reliable,
  crashes are those of clients.
- A handler that outlives its channel: losing the channel ends the handling at once. What such a handler would still do
  can be taken as done before the loss, except in the two spacing results: there another consumer could pass a gate
  before the old handler's insert or stamp, so they assume one process that stops with its channel.
- Several consumers of one queue with prefetch above one: the protocol results hold for them; the two spacing results and
  termination assume the fetch or enrich queue is handled serially, since the gates check first and act later.
- Gates.FetchesSpaced: assumes serial fetching, as the fetcher's default prefetch of 1 gives in one process.
- Gates.StampsOfOneSellerSpaced: assumes serial enriching, for the same reason; with unboundedly many parallel enrichers
  the crawl need not stop either.
- Termination.EveryRunStops: clock inside one freshness window, finitely many sellers, bounded links a page, no outside
  publishes and finitely many faults; transient fetch failures are not faults, the retry budget pays for them.
- Overflow of the x-death total in the consumer's int: the count is unbounded here.
- Ties in the latest fetch of a url: the model takes the newest stored one, the query may take any.
- Gaps in the fetch ids after a failed insert: fetch ids are consecutive here.
- Spent ids of failed parse transactions: `Handlers` and `StoreHistory` have them, `Pipeline` leaves the sequences alone.
- NUL in text columns other than title, status and currency: such a parse is one of the transactions that fail.
- HTTP, TLS, HTML parsing, URL resolution and cleaning, the rate limiter, SHA-256 and JSON object decoding: inputs.
- Bytes that are not UTF-8: pages are texts; marker, quote and backslash are single bytes in UTF-8, so positions agree.
- Price formatting: a price is its two-decimal text, from which both the stored number and the hash come.
- First and last posting times in the aggregate, calendar arithmetic of the account age (two cut-offs are given), the
  listing query of the API, category helpers, photos, jobs and phone hashes.
- Fetch headers stored with a page, and the API server, command lines and frontend.
