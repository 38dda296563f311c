# A verified model of the OAF crawler and indexer

The crawler keeps its frontier in Redis: a status hash, a main list, one list per worker, a processing index
and a retry set, each changed only by short Lua scripts that any number of workers and a reaper call in any
order. The model has these scripts as atomic steps and proves what whole runs of them keep. On top of it come
the worker pool's wake-up pipeline, `Parse.Execute` over the frontier and the page and link tables, the greedy
packing of `EmbedBatch`, the indexer's pass, retry times and URL keys.

| file | content |
|---|---|
| `FrontierState.dfy` | the frontier as a value, each script as a function, steps and runs |
| `Frontier.dfy` | the same as a class updated in place, with the Go loops around the scripts |
| `FrontierRuns.dfy` | what holds of every run, late and repeated callers included |
| `Leases.dfy` | exclusive placement: the exact condition per script, and the leased regime |
| `Progress.dfy` | try counting, spacing of retries, an explicit bound on take-ons |
| `Reaper.dfy` | a health check pass and its timing |
| `WakeUp.dfy`, `WorkerPool.dfy` | the wake-up pipeline as a protocol, and its parts as a class |
| `PageStore.dfy` | the pages and links tables |
| `Crawl.dfy`, `LinkRows.dfy`, `LeasedCrawl.dfy` | interleaved Execute calls: closure, page forest, leases, lost replies |
| `CrawlKeys.dfy` | under which key a call completes its URL, and what a wrong one does |
| `PooledCrawl.dfy` | crawl and pool together: what a pool at rest has achieved |
| `CallEffect.dfy` | what one Execute call leaves in the stores, from the answers it gets |
| `Parse.dfy` | one Execute call as imperative code, shown to have that effect and to be acts of the crawl |
| `Embedder.dfy`, `Indexer.dfy` | request packing and the indexing pass |
| `Backoff.dfy`, `Urls.dfy`, `Graph.dfy`, `Basics.dfy` | retry delays, URL keys, paths, lists |

Two regimes. *Unrestricted*: any script at any time, also by a worker that has been reaped; only MarkProcessed
is confined to terminal statuses, as its callers confine it. *Leased* (`Leases.Leased`): completions come from
the recorded holder, the reaper checks and recovers in one step, and one clock orders the calls.
`LeasedCrawl.PatientCrawl` derives the leased regime for whole crawls from the assumptions of
`LeasedCrawl.Patient`:

- the reaper recovers a URL while it is still in the index, so it does not send the recover script twice, and only
  when no Execute call is at work on the URL any more;
- a call completes its URL under the key it popped it by, which `CrawlKeys.LowerSeedsOwnKeys` derives from seeds
  given with lower-case hosts;
- a call whose retry was scheduled without its hearing back does no more than leave: it neither sends that script
  again nor gives the URL up;
- one clock orders the scripts.

All of them can fail. The client does send commands again (`MaxRetries` in
internal/infrastructure/storage/redis/client.go:19), giveUp does follow a RetryURL whose reply is lost, and
NormalizeStartURL keeps upper-case letters of a host. Everything in `Crawl.dfy` and `FrontierRuns.dfy` holds
without these assumptions.

Where the code does less than its design asks, the exact condition is proved: exclusive placement
(`Leases.ExclusiveIffSafe`, with a failing run in `Leases.LateWorkerBreaksExclusivity`), a lost reply
(`LeasedCrawl.CompletionExclusiveIff`, with a failing run in `LeasedCrawl.LostReplyRevives`), a seed with an
upper-case host (`CrawlKeys.OwnKeyIffLower`, with a failing run in `CrawlKeys.SelfLinkExclusiveIff`), a health check pass
over a repeated scan element (`Reaper.PassExclusiveIff`), an idle pool with work left
(`WakeUp.RestSoundIffAhead`, with a failing run in `WakeUp.IdleWithWorkLeft`), overflow of the delay
(`Backoff.DelayExactUpTo30`), an indexer that notifies itself for ever because an embedding is empty
(`Indexer.LoopStopsIff`).

The repository's README.md:76 says retries drain only when the main queue is empty. The code enqueues due
retries on every TakeOn; the model follows the code, and `FrontierRuns.RunFifo` shows what keeps a due retry
from overtaking: it joins the end of the same queue.

Parameters stand for what the model does not contain: clock readings, fetch, extract, database and server
answers, the order in which ZRANGE lists members of equal score, and the batches SSCAN returns.

## Model

| member | source | states |
|---|---|---|
| FrontierStore.Frontier.PushURL | internal/infrastructure/storage/redis/queue.go:128-163 | push script: an unseen URL is queued with a new entry, a seen one changes nothing |
| FrontierStore.Frontier.PushURLs | internal/infrastructure/storage/redis/queue.go:166-193 | the pipeline of pushes and the list of requests it reports as new |
| FrontierStore.PushAllTracks | internal/infrastructure/storage/redis/queue.go:128-155 | after a pipeline exactly the old and the requested URLs are tracked; known entries are untouched |
| FrontierStore.PushAllQueues | internal/infrastructure/storage/redis/queue.go:166-193 | the new URLs, and only they, join the main list in request order |
| FrontierStore.NewlyIsNew | internal/infrastructure/storage/redis/queue.go:183-190 | the reported URLs were unseen and are reported once each |
| FrontierStore.NewlyIsAll | internal/infrastructure/storage/redis/queue.go:183-190 | every URL that became tracked is reported |
| FrontierStore.NewlyEntries | internal/infrastructure/storage/redis/queue.go:141-154 | a reported request is one that was made, and its entry is fresh under that request's parent |
| FrontierStore.Frontier.PopURL | internal/infrastructure/storage/redis/queue.go:62-126 | pop script and its reply, including the script that fails after the move and the short reply |
| FrontierStore.Frontier.RetryURL | internal/infrastructure/storage/redis/processing.go:36-76 | retry script; an unknown URL is an error without effect |
| FrontierStore.Frontier.MarkProcessed | internal/infrastructure/storage/redis/processing.go:78-113 | mark script; an unknown URL is an error without effect |
| FrontierStore.Frontier.RecoverURL | internal/infrastructure/storage/redis/processing.go:115-164 | recover script, with the branch that makes up a missing entry |
| FrontierStore.Frontier.ZRangeByScore | internal/infrastructure/storage/redis/retry.go:28 | a reply listing the due members once each by rising score always exists |
| FrontierStore.Frontier.EnqueueURLs | internal/infrastructure/storage/redis/retry.go:21-69 | enqueue script: its loop has the closed-form effect EnqueueDue on such a reply |
| FrontierStore.Frontier.TakeOn | internal/infrastructure/storage/redis/url_ds.go:114-120 | due retries are enqueued on every call, then one URL is popped; an error of the first script keeps the second from being sent, and either may have run although its error is reported |
| FrontierStore.Frontier.GetCrawlMetadata | internal/infrastructure/storage/redis/url_ds.go:134-185 | the sum of the three sizes and the least retry score, none when the retry set is empty |
| FrontierStore.Frontier.HealthCheck | internal/infrastructure/storage/redis/processing.go:166-204 | the cursor loop examines the scanned URLs one by one, reading the clock afresh at each |
| FrontierRuns.RunLosesNothing | internal/infrastructure/storage/redis/processing.go:36-152 | in every run a Queued URL is in the main list, a Processing one in the index and its worker's list, a Retry one in the retry set under its retry time |
| FrontierRuns.MarkLosesNothingIff | internal/infrastructure/storage/redis/processing.go:78-101 | marking loses nothing exactly for an unknown URL, a terminal status, or a status whose place happens to hold the URL |
| FrontierRuns.RepairsUnreachable | internal/infrastructure/storage/redis/processing.go:125-140 | without a reset everything listed has an entry with a parent, a pop never fails, the repair branches are dead |
| FrontierRuns.RepairEntries | internal/infrastructure/storage/redis/processing.go:125-140 | what the repair branches would write for a URL without an entry |
| FrontierRuns.ListRemovals | internal/infrastructure/storage/redis/processing.go:56-61 | completing takes one occurrence from the recorded worker's list, recovering takes all, nothing else leaves any list |
| FrontierRuns.DueByRetryTime | internal/infrastructure/storage/redis/retry.go:28-54 | retries due together join the main list so that the earlier one is taken on first, behind what waited before |
| FrontierRuns.RunFifo | internal/infrastructure/storage/redis/queue.go:71 | waiting plus arrivals equals departures plus still waiting, over any run |
| FrontierRuns.TakenInTurn | internal/infrastructure/storage/redis/queue.go:71 | a URL with d ahead of it is the (d+1)-st taken on, whatever arrives meanwhile |
| FrontierRuns.CountCoversOpen | internal/infrastructure/storage/redis/url_ds.go:139-142 | UnprocessedCount is at least the number of unfinished URLs; zero means all are finished |
| Leases.ExclusiveIffSafe | internal/infrastructure/storage/redis/processing.go:45-61 | a script keeps every URL in exactly one place if and only if its URL is not waiting where the script does not look |
| Leases.LateWorkerBreaksExclusivity | internal/infrastructure/storage/redis/processing.go:142-151 | a reaped worker's retry puts a URL in both the main list and the retry set |
| Leases.LeasedRunExclusive | internal/infrastructure/storage/redis/processing.go:36-152 | leased runs keep exclusive placement |
| Leases.ExclusivePlaces | internal/infrastructure/storage/redis/queue.go:71-86 | every URL lies where its status says; no duplicates in the main list, the index is the union of the worker lists, one holder each, finished URLs lie nowhere |
| Leases.LeasedCountExact | internal/infrastructure/storage/redis/url_ds.go:139-142 | in leased runs the count is exactly the number of unfinished URLs |
| Progress.TryLimitHolds | internal/domain/service/processing.go:16-23 | the stored try count is the number of retries and never exceeds the limit |
| Progress.RetrySpacing | internal/domain/service/processing.go:21 | after the retry of a URL with k tries, base * 2^k passes before it is taken on again, to the millisecond |
| Progress.DefaultSpacing | internal/di/di.go:41-42 | with the configured base and limit: at least 5 * 2^k seconds, and k is at most four |
| Progress.CrawlTerminates | internal/application/usecase/parse.go:96-107 | over n URLs with limit L: at most n(L+1) take-ons and n(3L+4) effective scripts, plus one per recovery |
| Backoff.DelayExactUpTo30 | internal/di/di.go:41-42 | with a base of five seconds the 64-bit delay is the intended one exactly up to try 30 |
| Backoff.TotalDelayClosed | internal/domain/service/processing.go:21 | the first n delays add up to base * 2^n - base whenever the last of them fits |
| Backoff.DelayExceedsEarlier | internal/domain/service/processing.go:21 | each delay that fits exceeds all earlier ones together |
| Backoff.DefaultRetries | internal/domain/service/processing.go:16-23 | with the configured values up to four tries are followed by another, 5 * 2^k seconds later, and five are not |
| Reaper.PassRequeuesOverdue | internal/infrastructure/storage/redis/processing.go:166-204 | an undisturbed pass requeues exactly the overdue URLs and leaves every other entry as it is |
| Reaper.PassExclusiveIff | internal/infrastructure/storage/redis/processing.go:174-195 | a pass keeps exclusive placement if and only if it does not find the same URL overdue at two looks |
| Reaper.OverdueWithinTwoThresholds | internal/infrastructure/storage/redis/url_ds.go:72-79 | some tick between one and two thresholds after a take-on finds overdue whatever was taken on then |
| Reaper.AbandonedIsRequeued | internal/infrastructure/storage/redis/url_ds.go:63-85 | in any leased run, a URL taken on and then never touched is put back by the pass of any such tick, whatever happens until then |
| Reaper.NotRecoveredEarly | internal/infrastructure/storage/redis/processing.go:190-194 | in a leased run a URL is recovered only when, in milliseconds, the whole threshold has passed since its take-on |
| Reaper.RecoveredAfterDeadline | internal/delivery/worker/worker.go:89 | with the configured threshold, the Execute that took the URL on has then reached its fifteen-second deadline |
| Reaper.DefaultExpiry | internal/di/di.go:43 | with the configured threshold a URL is overdue exactly from fifteen seconds after its take-on, in milliseconds |
| WakeUp.RunWakes | internal/delivery/worker/worker.go:71-85 | while a worker is not busy and the queue is not empty, a wake-up for it is on its way, though every hop drops on full |
| WakeUp.WakeUpsArePushes | internal/infrastructure/storage/redis/queue.go:46-52 | a worker is woken by the slot at most as often as URLs have joined the main list; without a push no signal is on its way |
| WakeUp.WaitingMeansEmpty | internal/infrastructure/storage/redis/queue.go:42-52 | from any frontier: with no signal on its way, a worker that waits waits for an empty queue; no lease needed |
| WakeUp.IdleMeansFinished | internal/delivery/worker/worker.go:110-133 | from any exclusive frontier: at rest, all tracked URLs are finished and the count is zero, or some worker overslept |
| WakeUp.IdleMeansFinishedWhenAhead | internal/application/usecase/parse.go:64-78 | if every sleep over remaining work comes out positive, a pool at rest has finished |
| WakeUp.SleepReachesRetry | internal/application/usecase/parse.go:70-75 | with a retry waiting, the sleep ends just when the enqueue script finds it, and at no earlier millisecond does the script find anything |
| WakeUp.SleepWithinJitter | internal/application/usecase/parse.go:71 | without a retry the worker wakes within the jitter after its reading of the clock, and not before it |
| WakeUp.TimedIffAhead | internal/application/usecase/parse.go:66-77 | the wait is timed if and only if something is counted and the time aimed at still lies ahead |
| WakeUp.RestSoundIffAhead | internal/application/usecase/parse.go:70-75 | for the last worker to decide: the pool left behind is sound if and only if nothing was counted or the sleep is positive |
| WakeUp.IdleWithWorkLeft | internal/delivery/worker/worker.go:117-133 | with the default configuration and any number of workers: a leased run that ends at rest with a URL waiting for its retry |
| WorkerPool.WorkerPool.Deliver | internal/infrastructure/storage/redis/queue.go:44-60 | one message of Subscribe's loop is one move of the protocol |
| WorkerPool.WorkerPool.FanOut | internal/delivery/worker/worker.go:71-85 | one round of the loop takes the token, fills every slot, and is a run of moves |
| WorkerPool.WorkerPool.ReadMetadata | internal/application/usecase/parse.go:66-77 | the decision how long to sleep is a move of the protocol |
| WorkerPool.WorkerPool.StartWait | internal/delivery/worker/worker.go:117-128 | a positive sleep starts a timed wait, any other an untimed one |
| WorkerPool.WorkerPool.Wake | internal/delivery/worker/worker.go:119-133 | a waiting worker leaves on its slot, or on the timer of a timed wait, on either when both are ready, and not otherwise |
| PageStore.PageTables.SavePage | internal/infrastructure/storage/postgres/page_ds.go:84-122 | upsert with the three states of a vector and the second normalisation on conflict |
| PageStore.PageTables.SaveLink | internal/infrastructure/storage/postgres/page_ds.go:124-141 | a link row from the parent's row, or nothing without one |
| PageStore.PageTables.GetUnvectorized | internal/infrastructure/storage/postgres/page_ds.go:143-167 | the pages without vector that can have one and have text, each once, and no other |
| PageStore.InsertPageSound | internal/infrastructure/storage/postgres/page_ds.go:84-122 | ids stay unique, existing rows keep theirs, links keep their ends |
| Crawl.TrackedIffReachable | internal/application/usecase/parse.go:133-142 | in every state, tracked is exactly reachable from the seeds along pushed links, and all links of a Done page are pushed |
| Crawl.PagesConnectToSeeds | internal/application/usecase/parse.go:114-134 | the page a Done URL landed on, and the parent's page of every tracked URL, are connected by link rows to the page on which a seed landed; a URL without a parent is a seed |
| Crawl.LinkIsSaved | internal/infrastructure/storage/postgres/page_ds.go:124-141 | when a link is saved its parent has a row, so the row is really there afterwards |
| LinkRows.LinkRowsAreLinks | internal/application/usecase/parse.go:123-131 | every link row comes from a call that saves it, from the row of its parent to the row of the page it landed on |
| Crawl.RunKeepsInv | internal/application/usecase/parse.go:59-147 | the invariant behind these, over every interleaving of calls, seeds and reaper |
| LeasedCrawl.CrawlLosesNothing | internal/application/usecase/parse.go:59-147 | no crawl loses a URL or makes a pop fail, without any lease |
| LeasedCrawl.PatientCrawl | internal/application/usecase/parse.go:59-147 | under the assumptions of Patient, own keys among them, the crawl's scripts form a leased run: one place per URL, one call with a claim per URL |
| LeasedCrawl.PatientTakeOns | internal/application/usecase/parse.go:59-147 | and its take-ons are bounded by the tracked URLs, the try limit and the recoveries |
| LeasedCrawl.CompletionExclusiveIff | internal/application/usecase/parse.go:102-104 | the last script of a call, also one repeated, following one unheard, or under another key, keeps exclusive placement if and only if its URL is not in the main list or, unless it is a retry, in the retry set by then |
| LeasedCrawl.LostReplyRevives | internal/application/usecase/parse.go:102-104 | a retry whose reply is lost, then giveUp: the URL is finished and in the retry set, and is crawled again |
| CrawlKeys.OwnKeyIffLower | internal/infrastructure/storage/repo/url_repo.go:33-47 | in every crawl a call completes under the key it popped if and only if the host of the URL has no upper-case letter |
| CrawlKeys.EndpointKeys | internal/delivery/http/handler/crawl/crawl.go:38-51 | what the crawl endpoint pushes is a seed key: the text of a scheme and a host |
| CrawlKeys.LowerSeedsOwnKeys | internal/infrastructure/storage/mapper/url.go:11-22 | seeds given in lower case meet the assumption on keys throughout a crawl |
| CrawlKeys.SelfLinkExclusiveIff | internal/application/usecase/parse.go:133-142 | a seed whose page links to its own home keeps exclusive placement if and only if its completion key is its own; otherwise the link is Done while queued and the seed stays in processing |
| CrawlKeys.UpperCaseSeedBreaks | internal/domain/model/url.go:97-109 | for every seed the endpoint accepts, that run keeps exclusive placement if and only if its host has no upper-case letter |
| PooledCrawl.PoolAtRestIsComplete | internal/delivery/worker/worker.go:54-140 | end to end, also after a restart: a pool at rest has tracked exactly what the seeds reach along pushed links, all of it finished, links of Done pages included; or some worker overslept |
| PooledCrawl.PoolAtRestIsCompleteWhenAhead | internal/application/usecase/parse.go:64-78 | and nobody oversleeps if every sleep over remaining work comes out positive |
| ParseUseCase.Parse.Execute | internal/application/usecase/parse.go:59-147 | one call leaves in frontier and tables what its answers call for, lost replies and statements that fail half-way included; records the landing with exactly the extracted links when it has stored all; amounts to acts of the crawl, patient ones under its own key unless it gives up a retry it scheduled unheard; the pop script cannot fail; under another key the URL stays in processing |
| CallEffect.FrontierOutright | internal/application/usecase/parse.go:59-147 | from the frontier just popped, exactly the links sent are pushed, new ones in page order under the page's address, and only the URL itself is completed or rescheduled |
| CallEffect.StoredPushesAll | internal/application/usecase/parse.go:133-137 | a call that has stored its page and link, and whose pipeline did not break, has every extracted link tracked |
| CallEffect.TablesOutright | internal/application/usecase/parse.go:114-131 | the row of the page holds exactly what was extracted, no other row changes, and the links gain exactly the one from the parent's row, if a link is written |
| CallEffect.ProcessedLeaves | internal/application/usecase/parse.go:83-147 | the status a URL ends with, for every combination of answers |
| ParseUseCase.Parse.MarkTerminal | internal/application/usecase/parse.go:36-52 | the terminal status, or the URL left as it is when the script cannot be run or names another key |
| EmbedderClient.Embedder.EmbedBatch | internal/infrastructure/embedder/embedder.go:54-96 | the three-way loop terminates and works through the greedy pieces, stopping at the first failing request |
| EmbedderClient.EmbedBatchOkIff | internal/infrastructure/embedder/embedder.go:54-96 | a call succeeds if and only if every greedy slice is answered when its turn comes; otherwise the error names the first that is not, which is the last request; too-long texts never make it fail |
| EmbedderClient.EmbedBatchIsMap | internal/infrastructure/embedder/embedder.go:54-116 | with a server that answers each text in order, result i is text i's embedding, the empty slice when it alone exceeds the limit, and nil when its embedding is empty |
| EmbedderClient.GreedyIsFewest | internal/infrastructure/embedder/embedder.go:63-93 | no split into slices within the limit uses fewer requests |
| EmbedderClient.GreedyIsSplit | internal/infrastructure/embedder/embedder.go:63-93 | the greedy requests are non-empty, within the limit, and leave out only texts that are too long |
| EmbedderClient.GreedyIsMaximal | internal/infrastructure/embedder/embedder.go:63-93 | each slice reaches as far as the limit allows, which leaves no other packing |
| EmbedderClient.SentInOrder | internal/infrastructure/embedder/embedder.go:63-93 | the requests of any call are the first of these slices, in order; all of them when it succeeds |
| EmbedderClient.RequestsWithinLimit | internal/infrastructure/embedder/embedder.go:63-93 | each request of any call, failed ones included, is non-empty and within the limit |
| Indexer.Index.Process | internal/application/usecase/index.go:62-101 | a pass saves the backlog page by page, as far as there are vectors; it fails, and then changes nothing, exactly when a request is not answered |
| Indexer.SavedRows | internal/application/usecase/index.go:89-98 | page i gets its row from vector i if and only if there is one and its save succeeds, whatever becomes of the other pages |
| Indexer.PageTextParts | internal/domain/model/page.go:23-43 | each field that is not empty stands behind its label; in order they make up the text |
| Indexer.PassRows | internal/application/usecase/index.go:84-98 | if every request is answered, each saved page of the backlog holds the vector of its own text, or is flagged when that is too long, or stays as it is when its embedding is empty; no other row changes |
| Indexer.PassDrainsBacklog | internal/application/usecase/index.go:62-101 | whatever the server returns, what remains is exactly what got no vector, could not be saved or came back as nil; the backlog is drained if and only if there is no such page |
| Indexer.LoopStopsIff | internal/infrastructure/storage/postgres/migrations/000003_notify_trigger.up.sql:1-11 | with every call succeeding, the notification loop stops at the second pass if and only if no waiting page has an empty embedding; otherwise every pass saves and notifies again |
| Indexer.ProcessPasses | internal/application/usecase/index.go:62-101 | the passes of that loop are what Process does |
| Indexer.RecrawlIsReindexed | internal/infrastructure/storage/postgres/page_ds.go:102-113 | after a page is crawled again, the next pass gives its row the vector of the new text, or flags it; only a page without text, or with an empty embedding, stays as it is |
| Urls.SameKeyIff | internal/domain/model/url.go:75-87 | two addresses share a key if and only if schemes are equal, hosts agree up to case and paths up to trailing slashes |
| Urls.LinkKeyRoundTrip | internal/domain/model/url.go:47-87 | a worker completes a link under exactly the key it was pushed under |
| Urls.SeedKeyRoundTrip | internal/domain/model/url.go:97-109 | a seed is completed under its own key if and only if its host has no upper-case letter |
| Urls.ParsePrintAll | internal/infrastructure/storage/mapper/url.go:11-30 | the text of an address, user, query and fragment included, parses back to it |
| Urls.StartKeyOf | internal/domain/model/url.go:97-109 | the endpoint keeps scheme and host of a web address as written, and nothing else |
| Urls.SchemelessSeed | internal/domain/model/url.go:98-100 | a seed without a scheme is taken for https |

## Left out

- ResetCrawlCache, whose SCAN and DEL batches are not atomic; closure and parents do not survive a reset during a crawl.
- HTTP fetching, browser, readability, HTML parsing and gRPC transport: their answers are arbitrary inputs.
- The SQL engine, similarity search and connection pools; concurrent page saves are atomic operations here.
- LISTEN and reconnects: notifications sent while disconnected are not replayed, so no end-to-end indexer liveness is claimed.
- Redis keyspace events are taken to arrive in order and none to be lost; the client library may drop events when its buffer stays full.
- The endless loops of fanOut, Worker.run and Subscribe are moves of a protocol; a single round of each is also given as code.
- The Execute goroutine that outlives its deadline is the act Leave, or a call that goes on; its discarded command is not kept.
- Frontier.HealthCheck: the whole pass runs undisturbed; recoveries that race other scripts are Recovered steps of the unrestricted regime.
- ParseUseCase.Parse.Execute: one call runs without interruption, and no command of it is sent twice; both are covered by the acts of the crawl.
- Leases.Leased: the clock read by a caller is taken to be ordered like the scripts.
- Backoff: the conversion of a float above the int64 range is the one of amd64.
- Urls: escaping, RawPath, reference resolution and Unicode case folding; a scheme is not folded to lower case.
- Indexer.Index.Process: the pass runs undisturbed; a page crawled again between its reading and its saving is overwritten with the text read.
- Indexer: the timeout proportional to the backlog, and vectors of another dimension than the column's.
- JSON encoding of entries, metrics, logging, dependency injection, HTTP handlers.
