# Invoice publishing: model and proofs

The service accepts tax invoices through an HTTP API, stores them in PostgreSQL and publishes them to the
issuer Viettel SInvoice in the background. Three kinds of actor work on one shared table: API calls, workers
fed by a bounded queue, and a poller that periodically queues the pending invoices again. `UpdateStatus` does
not check transitions and `Update` overwrites almost every column from a copy read earlier, so nothing the
service promises follows from one guard. This project models the protocol and proves what it keeps.

## How it is built

| file | part |
|---|---|
| `Domain.dfy` | statuses, the transition table, invoice rows, items, errors |
| `Viettel.dfy` | what the issuer's HTTP answers are taken to mean |
| `Rows.dfy` | what each statement writes to a row |
| `Steps.dfy` | one job or API call as a sequence of steps, each one database statement or one issuer call |
| `System.dfy` | the whole service: tables, threads in flight, queue, poller, issuer ledger; runs of events |
| `Interleaving.dfy`, `Guarantees.dfy` | the invariant of all runs, under every interleaving, failure and crash, and what follows from it |
| `Solo.dfy`, `Serial.dfy` | what holds where threads on one invoice do not overlap |
| `Endings.dfy` | what each whole job leaves behind, in every column, as a function of the answers it got |
| `Numbers.dfy` | exactly when `external_id` is there on completed invoices and absent on processing ones |
| `Reduction.dfy`, `Honesty.dfy` | runs without overlap are equivalent to serial runs, with answers an honest issuer could give there |
| `Scenario.dfy`, `Witnesses.dfy` | concrete runs that show hypotheses are needed and documented promises fail |
| `Repository.dfy`, `Pool.dfy`, `Service.dfy` | the imperative code, as classes, proved to do what the steps say |
| `Sets.dfy` | one fact about finite sets |
| `Fairness.dfy`, `Cycles.dfy` | how long a pending invoice can wait for the poller: cycles in the abstract, and in runs of the service |
| `Mapper.dfy` | invoice to create request: lines and tax groups |
| `TokenCache.dfy` | the access token: cache, single retry, rate of logins |

The step machine `Steps.ThreadStep` is the common ground: `Pool.WorkerPool` and `Service.InvoiceService` are
imperative and every handler is proved to end where its steps, run without interference, end; the properties
are proved about the steps, in any interleaving `System.Step` allows. Where a whole job ends is written down a
second time in `Endings`, column by column and from the answers' status codes and contents, and proved equal. What the code does not decide (clock
readings, failing statements, the validator's verdict, issuer answers) enters each step as an `Answer` without
restriction. A crash is any sequence of `Kill` and `DropQueue` events.

Assumed: the tables start empty, so every row was made by `CreateInvoice`; the issuer assigns at most one
number, never the empty one, to a transactionUuid, and a number in an answer is the one it assigned
(`System.HonestIssuer`). Nothing else is assumed of the issuer: it may answer errors, answers may be lost, and
numbers may appear later or never.

## Where the code differs from what is said about it

* The lifecycle in docs/API.md says a completed invoice has `external_id` populated. An overlapping poll, or one
  discarded error of the poll's number write, leaves a completed invoice without it
  (`Witnesses.OverlapLosesTheNumber`, `Witnesses.LostWriteLosesTheNumber`). `Numbers.PromiseExactly` says for
  every run which stored steps break the promise, `Numbers.PromiseExactlyAlone` which of them are left where
  threads on the invoice do not overlap, `Numbers.NumberLostExactly` when a single poll job does it.
* docs/API.md says `external_id` is null while an invoice is processing. The number is saved before the status is
  written, so a crash in between leaves a processing invoice with its number (`Witnesses.NumberWhileProcessing`).
  The same two theorems say exactly which steps of a run do it, `Numbers.PublishLeavesNumber` and
  `Numbers.PollLeavesNumber` exactly when a job does; polling the invoice completes it (`Serial.PollRecovers`).
* The transition table does not list processing to submitted (a retry), nor submitted, failed or completed to
  completed (a late poll). All four happen (`Witnesses.NineChanges`).
* docs/API.md says a submit returns `QUEUE_FULL` when the queue is full. A submit never returns it: it succeeds
  exactly as it would with room in the queue, and the job is dropped (`Service.InvoiceService.SubmitInvoice`).
* docs/API.md calls the history the full one. A completion by poll is never in it
  (`Witnesses.HistoryMissesCompletion`); `Serial.HistoryShows` says which changes are, and exactly when the
  history is full.
* "Only on draft invoices" for the transaction hash is checked before, not when, the hash is written
  (`Witnesses.HashOfSubmittedChanges`, `Guarantees.TransactionHashFrozen`).
* `RetryCount` is not reset on a resubmit, so its bound grows with the submits (`Serial.RetryCounter`)
  and is reached for any number of them (`Witnesses.RetryCapReached`).
* An undecodable 400 body has the code UNKNOWN, which is not in the list of final codes, and is final all the
  same (`Viettel.FinalErrors`).

## Model

| member | source | states |
|---|---|---|
| Reduction.SerialEquivalence | internal/worker/pool.go:103-278 | any run in which no two threads are on one invoice at once, with nothing left in flight, ends with exactly the tables and ledger that its jobs produce when run one at a time in completion order, each with the answers it got |
| Reduction.FinishedIsRunToEnd | internal/worker/pool.go:120-137 | every finished item of that serial order is its job run from start to end without interference |
| Honesty.SerialHonesty | internal/integration/viettel_publisher.go:43-103 | in that serial order, too, every answer is one an honest issuer could give where the whole job now stands: at most one number per transactionUuid, and no number told before it is assigned |
| Reduction.ExecIsRunToEnd | internal/worker/pool.go:103-117 | executing a prefix of a job's steps and then running on is the whole job, wherever the prefix ends |
| Reduction.LinkedRun | internal/repository/postgres/invoice_repo.go:158-250 | along any such run every thread in flight is ahead of the serial tables by exactly its own steps, and all other invoices agree |
| Guarantees.AtMostOnceIssuance | internal/integration/mapper.go:16-21 | in every reachable state two create requests carry the same transactionUuid exactly if they are for the same invoice, the ledger holds numbers for existing invoices only and at most one each |
| Guarantees.FallbackUnreachable | internal/integration/viettel_publisher.go:28-43 | at every create call the request's transactionUuid is the row's own; the made-up one is never used |
| Guarantees.TableAgreesWithLedger | internal/worker/pool.go:183-188 | in every reachable state the number on a row, and on every copy a thread may still write back, is the issuer's number for that row; no row is cancelled; the status trace is a path that starts in draft, never returns to it and ends in the row's status |
| Guarantees.ImmutableData | internal/repository/postgres/invoice_repo.go:172-206 | from any reachable state on, rows keep id, transactionUuid, buyer, amounts, currency and creation time, never become drafts again, and never show two different numbers, although whole rows are written back from stale copies |
| Guarantees.DataFromCreation | internal/worker/pool.go:140-278 | whatever happens after an invoice was created, its row and every copy a job makes a create request from have the content, the transactionUuid and the creation time it was created with |
| Guarantees.Born | internal/service/invoice_service.go:31-55 | the row of an accepted creation, column by column |
| Guarantees.TransactionHashFrozen | internal/service/invoice_service.go:59-75 | invoices past draft keep their transaction hash at every step of a run if and only if no hash update that passed its draft check writes a different hash after the invoice left draft |
| Guarantees.FailureProvenance | internal/worker/pool.go:215-241 | every status write of failed comes from items that did not load; from a create attempt whose answer was a 400 with an undecodable body or one of the eight final messages; or from a create attempt that failed otherwise (refused by the validator, or an error that is not final) with a count that, one more than in the row the job had read, has reached the limit |
| Guarantees.RetryPath | internal/worker/pool.go:176-231 | the attempts counted as failed on the retry path are exactly the create attempts that the validator refuses and those whose answer is an error but not a final one |
| Guarantees.QueueConservation | internal/worker/pool.go:79-117 | in every reachable state: jobs leave first in first out, accepted = finished + lost + in flight + queued, the capacity is respected, and every queued job is for an existing invoice past draft |
| Interleaving.SoundRun | internal/worker/pool.go:140-278 | the invariant behind these: kept by every run whatever interleaves, fails or is cut off |
| Interleaving.ThreadStepSound | internal/worker/pool.go:140-278 | each single step keeps a row's birth data and number agreement, never goes back to draft, never cancels, and sends only the row's own transactionUuid, even if the copy it works on is stale |
| Serial.CompletedIsFinal | internal/worker/pool.go:147-156 | where threads on an invoice do not overlap, completed is absorbing, a number on the row is never replaced or cleared, and past draft the transaction hash never changes, whatever duplicates are queued |
| Serial.CompletedHasNumber | internal/worker/pool.go:183-196 | there, an invoice has a number if and only if some write of one was stored, and it is the issuer's number for it; a completed invoice has its completion time and misses the number only if a poll's write of it was lost, so the publish path, cut off anywhere, never completes without |
| Numbers.PromiseExactly | internal/worker/pool.go:183-278 | in any run, under every interleaving: every completed invoice has its number in every state if and only if no stored step completes an invoice that has none or writes an old copy without one over a completed invoice; and no processing invoice has a number in any state if and only if no stored step saves a number while processing, writes an old copy with one back while processing, or puts an invoice with one in processing |
| Numbers.PromiseExactlyAlone | internal/worker/pool.go:244-278 | where threads on the invoice do not overlap, the first promise holds throughout if and only if no poll completes the invoice while no write of a number was ever stored; the second if and only if no number is saved while processing and the invoice is not put in processing with one; write-backs of copies never break either |
| Numbers.AloneExactly | internal/worker/pool.go:264-272 | the step behind it: there, the breaking steps are exactly these, and a poll that completes without a number has lost its own write of it |
| Numbers.NumberLostExactly | internal/worker/pool.go:264-272 | a poll job turns an open invoice without a number into a completed one without a number if and only if the issuer confirms it, the number write fails and the status write does not |
| Numbers.PublishLeavesNumber | internal/worker/pool.go:140-213 | a publish job leaves a pending invoice that had no number processing with one if and only if it gets as far as storing the number the issuer told it and its status write fails |
| Numbers.PollLeavesNumber | internal/worker/pool.go:244-278 | a poll job leaves a processing invoice that had no number processing with one if and only if the issuer confirms it, the number is stored and the status is not |
| Serial.PollRecovers | internal/worker/pool.go:244-278 | whatever was cut off where, a poll job with its writes stored and the issuer finding the invoice completes an idle invoice with the issuer's number, which is the number it had if it had one |
| Serial.StatusChanges | internal/domain/invoice.go:23-42 | there, every status change is one of nine |
| Serial.HistoryShows | internal/service/invoice_service.go:93-101 | there, the history holds only submits of drafts and failed invoices and completions of processing ones, all allowed by the transition table, in the true order; it is exactly the sequence of submits and publish completions if and only if no line of it was lost or is still to be written, short of it by as many lines otherwise; and it is the full trace if and only if, besides, there were no other changes |
| Witnesses.HistoryMissesCompletion | internal/worker/pool.go:264-272 | with no history line lost, an invoice completed by a poll has a history that shows its submit only |
| Witnesses.NumberWhileProcessing | internal/worker/pool.go:183-196 | a publish job cut off between its two writes leaves an idle processing invoice with its number |
| Domain.TransitionTable | internal/domain/invoice.go:23-42 | exactly the documented pairs are allowed; nothing leads out of completed and cancelled |
| Solo.HappensByTable | internal/domain/invoice.go:23-28 | the nine changes are the table's without those to cancelled and without submitted to failed, plus four the table does not list |
| Witnesses.NineChanges | internal/worker/pool.go:160-272 | a status change occurs in some run without overlap if and only if it is one of the nine |
| Witnesses.ExtraPairsHappen | internal/worker/pool.go:239-272 | a run without overlap for each of the four changes outside the table |
| Serial.RetryCounter | internal/worker/pool.go:215-241 | there, RetryCount is exactly the number of publish attempts that failed on the retry path, less the counts that were not stored; it stays within max(MaxRetries - 1, 0) + accepted submits + retries whose outcome was never written, and one below that while the invoice is submitted or processing, except between the two writes of a failed attempt, where it may have reached the cap already |
| Witnesses.RetryCapReached | internal/service/invoice_service.go:79-109 | for every n there is a run without overlap, with MaxRetries 1, after n submits of which RetryCount is n: the cap is reached for any number of submits |
| Serial.TimestampOrder | internal/repository/postgres/invoice_repo.go:220-250 | there, on a clock that does not go back, an invoice past draft has its submission time and a completed one was submitted no later than it was completed, through retries, resubmits and full-row write-backs |
| Solo.SoloStep | internal/worker/pool.go:140-278 | what is true at each program point of a job alone on its invoice: the status it relies on, copies in step with the row, number, retry count and history; kept by every step with any answer |
| Solo.SettledStep | internal/worker/pool.go:183-196 | no step of such a job takes a row out of completed or changes a number that is set |
| Witnesses.OverlapLosesTheNumber | internal/worker/pool.go:273-276 | two overlapping jobs leave an invoice completed without the number the issuer assigned: non-overlap is needed |
| Witnesses.LostWriteLosesTheNumber | internal/worker/pool.go:271-272 | without overlap, one discarded write error leaves an invoice completed without its number: the condition on lost writes is needed |
| Witnesses.HashOfSubmittedChanges | internal/service/invoice_service.go:59-75 | a hash update racing with a submit changes the hash of a submitted invoice |
| Cycles.ServiceFairness | internal/worker/pool.go:297-321 | in any run of the service, with API calls, jobs and polls interleaving inside the cycles: with queue size q >= 1, a pending invoice with p older pending ones is off the pending list or written again by the end of one of the first p / q + 1 poll cycles, if no statement or search fails, nothing is cut off, the poller finds room in the queue and each cycle ends with the queue drained |
| Cycles.SystemCycle | internal/worker/pool.go:297-321 | every such cycle renews the picked rows and renews or leaves alone all others |
| Fairness.ServedIsRenewed | internal/worker/pool.go:140-278 | the job the poller makes for a pending row takes the row off the list or behind every row not touched since, if no statement or search fails; create calls may fail in any way |
| Fairness.ServingIsCycle | internal/worker/pool.go:297-321 | picking the oldest pending rows and running their jobs renews exactly the picked rows and leaves the others alone |
| Fairness.PassedOver | internal/repository/postgres/invoice_repo.go:338-360 | a pending row that a cycle neither picks nor rewrites loses a full batch of older rows |
| Steps.StepsGetCloser | internal/worker/pool.go:140-278 | every step takes a job or call nearer to its end, so every one ends after at most eight steps |
| Viettel.FinalErrors | internal/integration/viettel_dto.go:366-440 | an error body is final if and only if it is undecodable or names one of eight message texts |
| Viettel.Answered | internal/integration/viettel_client.go:218-235 | the result of a request is the body exactly of a 2xx answer, carries the decoded issuer error exactly for a 400, with its typed code for each message, and is another error otherwise |
| Viettel.CreateAnswered | internal/integration/viettel_publisher.go:43-72 | a create call succeeds exactly for a 2xx body that decodes with an empty error code |
| Viettel.QueryAnswered | internal/integration/viettel_publisher.go:77-103 | a query is confirmed exactly for a 2xx body with an empty error code whose first result has a non-empty number |
| Endings.PublishEnds | internal/worker/pool.go:140-241 | a whole publish job leaves the row, in every column, and the history as the answers' status codes and contents say, for every combination of lost writes |
| Endings.PublishStatus | internal/worker/pool.go:140-241 | if and only if, for each status a publish job can leave: completed, failed (items not loaded, final rejection, retries at the limit), submitted, else processing; and the retry counter moves exactly for a stored attempt on the retry path, so never for a final rejection |
| Endings.PollEnds | internal/worker/pool.go:244-278 | the same for a whole poll job |
| Endings.SubmitEnds | internal/service/invoice_service.go:79-109 | the same for a submit |
| Endings.HashUpdateEnds | internal/service/invoice_service.go:59-75 | the same for a hash update |
| Viettel.FinalRejections | internal/integration/viettel_client.go:225-235 | the error of a create call is final if and only if the answer was a 400 with such a body |
| Mapper.TaxConserved | internal/integration/mapper.go:71-149 | taxable amount and tax summed over the breakdowns equal those over the items and over the lines sent |
| Mapper.OrderIrrelevant | internal/integration/mapper.go:127-149 | any order of the items and any order of reading out the map give the same multiset of breakdowns |
| Mapper.BuildTaxBreakdowns | internal/integration/mapper.go:127-149 | one breakdown per distinct rate and no others, each holding the totals over exactly the items of its rate |
| Mapper.MapItems | internal/integration/mapper.go:71-125 | line n carries the data of item n, numbered from 1; selection defaults to 1, zero discounts are left out |
| Mapper.MapInvoiceToViettel | internal/integration/mapper.go:15-69 | the request names the invoice's transactionUuid if it has one, the fallback only otherwise; it is an original, paid invoice of the configured series at rate 1, dated when it is mapped to the millisecond, with buyer, seller, payment method, totals, lines and groups of the invoice |
| TokenCache.LoginRate | internal/integration/viettel_client.go:48-60 | without 401s, with every write stored and every granted lifetime at least E, any k >= 2 granted logins in a row span more than (k - 1) * (E - 300 s) |
| TokenCache.LoginsApart | internal/integration/viettel_client.go:103-116 | under the same conditions consecutive granted logins are more than E - 300 s apart |
| TokenCache.CachedTokenLasts | internal/domain/access_token.go:30-32 | a token handed out without a login is the cached one and has at least 300 s left |
| TokenCache.ViettelClient.DoAuthenticatedRequest | internal/integration/viettel_client.go:198-236 | at most two sends, of the same request, and two login attempts, failed ones included; a second send happens exactly after a 401 answer whose re-login succeeds, with the token just granted, whatever other holders of the lock did to the token row meanwhile; the result is the body exactly if the last answer is a 2xx, the decoded issuer error exactly for a 400, another third-party error for any other status |
| TokenCache.ViettelClient.GetToken | internal/integration/viettel_client.go:48-60 | hands out the cached token exactly if it can be read and lasts 300 s, else what a login grants, and leaves the cache accordingly |
| TokenCache.ViettelClient.Login | internal/integration/viettel_client.go:63-125 | yields the access token of a 200 answer, and only that; if the write is stored the cache then holds this token, its type and its expiry, an hour from the answer if none is told; a token that cannot be stored is used all the same and leaves the cache as it was |
| TokenCache.HandsOutLatest | internal/integration/viettel_client.go:48-125 | over any series of passes with every write stored, a token handed out is the access token of the latest granted login, or the one cached at first if there was none |
| TokenCache.AccessTokenRepo.Set | internal/repository/postgres/access_token_repo.go:61-106 | one row per provider, column by column: all replaced except id and creation time, which an existing row keeps and a new one gets if the caller left them unset; other providers untouched |
| TokenCache.AccessTokenRepo.Get | internal/repository/postgres/access_token_repo.go:27-57 | the provider's row, exactly if there is one that can be read, else which of the two errors |
| Pool.WorkerPool.Enqueue | internal/worker/pool.go:79-90 | appends if and only if there is room, otherwise the queue is unchanged and the call fails |
| Pool.WorkerPool.Work | internal/worker/pool.go:103-117 | takes the oldest job and handles it; a create request it sends is for the job's invoice with all its items |
| Pool.WorkerPool.ProcessJob | internal/worker/pool.go:120-137 | table and history of the job's invoice end as its steps say; nothing else changes |
| Pool.WorkerPool.HandlePublish | internal/worker/pool.go:140-213 | refines the publish steps, for every failure of every statement and every issuer answer, and leaves the row as `Endings.AfterPublish` says; it sends a create request exactly if it gets as far as loading the items and the validator accepts, and that request has a line for every stored item in line order, the tax groups of exactly these items, and the content and transactionUuid of the stored row; new history lines are by the worker and name the number on the row |
| Pool.WorkerPool.HandlePublishError | internal/worker/pool.go:215-241 | a final rejection writes failed with its reason and counts nothing; any other error counts one retry, and then writes failed at the limit and submitted below it; each lost write leaves its columns as they were |
| Pool.WorkerPool.HandlePoll | internal/worker/pool.go:244-278 | refines the poll steps, leaves the row as `Endings.AfterPoll` says, adds no history line, and asks the issuer about exactly this invoice's transactionUuid |
| Pool.WorkerPool.PollPendingInvoices | internal/worker/pool.go:297-321 | queues the longest prefix of the oldest pending rows that fits, publish jobs for submitted and poll jobs for processing ones |
| Pool.CreateInvoice | internal/integration/viettel_publisher.go:28-73 | sends a request exactly if the validator accepts it, namely the one for this invoice, its items and the configuration; the invoice then gets the request's transactionUuid; the result is the issuer's number, possibly empty, exactly for a 2xx body that decodes without an error code, and an error with the decoded issuer error exactly for a 400 |
| Pool.QueryStatus | internal/integration/viettel_publisher.go:77-103 | asks about the given transactionUuid; confirmed exactly for a 2xx body without an error code whose first result has a number, pending exactly for one whose first result has none |
| Service.InvoiceService.CreateInvoice | internal/service/invoice_service.go:31-55 | succeeds exactly if the transaction does and neither id nor transactionUuid is taken; then the row has the draft's content and hash in every column, is a draft created now, and has the caller's items in order, with new ids; otherwise nothing has changed |
| Service.InvoiceService.UpdateTransactionHash | internal/service/invoice_service.go:59-75 | refines its steps, succeeds exactly for an invoice read as a draft whose write is stored, and then changes the hash and the update time only |
| Service.InvoiceService.SubmitInvoice | internal/service/invoice_service.go:79-109 | refines its steps; succeeds exactly for draft and failed invoices whose status write is stored, also when the full queue drops the job, and never fails with QUEUE_FULL; then the row is submitted with its submission time, all else kept, and the history has one line more if that was stored |
| Repository.InvoiceRepo.CreateWithItems | internal/repository/postgres/invoice_repo.go:87-156 | inserts invoice and all items if everything succeeds and no key clashes, every column as given except the four that take their defaults; otherwise nothing |
| Repository.InvoiceRepo.GetByID | internal/repository/postgres/invoice_repo.go:158-170 | the row, or which of the two errors |
| Repository.InvoiceRepo.Update | internal/repository/postgres/invoice_repo.go:172-206 | column by column: everything from the copy except id, status and created_at; unknown ids and failing statements change nothing |
| Repository.InvoiceRepo.UpdateTransactionHash | internal/repository/postgres/invoice_repo.go:208-218 | writes the hash and updated_at only |
| Repository.InvoiceRepo.UpdateStatus | internal/repository/postgres/invoice_repo.go:220-250 | column by column: writes any status without a transition check, its reason, the update time, and submitted_at or completed_at exactly with their statuses; keeps the rest |
| Repository.InvoiceRepo.GetPendingPolling | internal/repository/postgres/invoice_repo.go:338-360 | the least recently updated submitted and processing rows in order, as many as the limit allows, no row left out that is older than one returned |
| Repository.InvoiceRepo.GetItemsByInvoiceID | internal/repository/postgres/invoice_repo.go:435-467 | exactly the invoice's items, ordered by line number and then creation time, or an error |
| Repository.InvoiceRepo.AddStatusHistory | internal/repository/postgres/invoice_repo.go:482-494 | appends one line with all its columns to the invoice's history, for an existing invoice only |

## Left out

- Reduction.SerialEquivalence: the serial order is one of tables and ledger, not a run of `System`: the poller may have queued a job for a status that lies inside another job. It keeps each job's own answers and clock readings; it does not claim that clock readings stay ordered across jobs. A job that is cut off appears in the order as the steps it took.
- Guarantees.QueueConservation: the poller's list is over-approximated in the runs as any pending rows in any order; the exact choice is `Repository.InvoiceRepo.GetPendingPolling`.
- TokenCache.LoginRate: login attempts that yield no token are not bounded in time; the code bounds them per request only.
- TokenCache.ViettelClient.GetToken: the mutex is modelled by taking each pass through the lock as one call.
- HTTP handlers, routing, JSON, logging, configuration, SQL text and the connection pool: plumbing. A body carries the outcomes of decoding it.
- The validator library is an arbitrary verdict per request; error texts are kept as the values they are composed of. Credentials, URLs and headers of the requests are not modelled.
- Unique-index violations of `Update` are failing statements.
- Amounts are exact reals; floating-point rounding and NaN rates are not modelled, nor is the overflow of a huge `expires_in`.
- The query that lists the history by creation time is not modelled.
- The endless loops of workers and poller are one pass each (`Pool.WorkerPool.Work`, `Pool.WorkerPool.PollPendingInvoices`); shutdown is cutting threads off and dropping the queue.
- The number of workers is unbounded in the runs, which only adds interleavings; start-up and timing of the poller are not modelled.
- The invoice struct is a value that handlers update in local variables; it is not shared between goroutines in the code either.
- Whether the issuer ever issues a number is not modelled: a row left processing before its create call arrived is only polled.
- Rows made before transactionUuids existed are excluded by starting with empty tables.
- Listing and lookup queries, single item changes, audit logs, PDF download and the report to the tax authority: short and independent of the protocol.
