# Kuuna support agents: verified models

Dafny models of the parts of the Kuuna support-agent backend that hold real
algorithms and protocols, with proofs about every input, every run or every
interleaving. `dafny verify dfyconfig.toml` checks the whole project.

| file | what it models |
|---|---|
| `Options`, `Numbers`, `Sequences`, `Text` | a missing value, integers, sequence facts, Python's string operations |
| `Chunker`, `Indexing`, `IndexingRuns` | cutting a knowledge document into bounded chunks, replacing its embedding rows, overlapping runs of that job |
| `RateLimiter`, `LimiterSkew`, `LimiterThreads` | the sliding-window limiter, how far lock order may depart from clock order, and which lock orders threads produce |
| `Login`, `LoginSessions` | the account lockout and the password policy, overlapping logins |
| `Messages`, `Bindings` | check-then-act transactions that a unique index decides |
| `Outbound`, `Delivery`, `DeliveryRuns` | outbound intents with their metadata, the dispatch job, and the delivery protocol with retries and reports |
| `InboundExecution`, `InboundReplies` | the job that runs the agent for a message, as one transaction, and what its replies say |
| `Retrieval` | recent messages and knowledge chunks merged by a stable sort |
| `Failover`, `AgentLoop` | the model plan, the tool loop of one model, the failover over models |
| `Base64`, `AccessToken`, `DataUrl` | base64 printing and reading, access tokens, data URLs |
| `FocusTracker`, `FocusLog` | focus-time sessions of the editor extension, and the grammar of their log |
| `Clusters` | work sessions of the daily report |
| `MediaReconcile`, `MediaRetryRuns` | the media reconcile endpoint, and its retry beside the workers |

**How the source is represented.** Code that assigns fields or grows lists is a
class or a method with a loop, proved equal to a specification function; the
laws are lemmas about that function. The database is maps or sequences of rows
with the declared unique constraints, checked at the commit. A SQLAlchemy
session holds the row it has loaded and writes only the columns that differ from
it. Concurrent work is a state machine whose steps may come in any order. HTTP,
model calls, JSON, HMAC, scrypt and the clock are parameters.

**Where the code does not do what one would expect.** Each of these is a lemma.

- `MergeIsTopIff`, `BlankChunksHideOthers`: blank chunks take up places of the
  per-scope limit, so the merged result is not always the best of the union; the
  condition is exact.
- `DeliversAtMostIff`: a send that is carried out but not recorded as a success (its
  reply is lost, or its mark is not confirmed) is made again while the job has a
  retry; the most deliveries that this gives is stated exactly.
- `SentIsLeftIff`, `StepAgreesIff`, `ReportBeforeMarkIsLost`, `ReportDuringSendIsLost`:
  a status report that arrives between a read of the row and the mark that follows it
  can be overwritten, or leave status and metadata in disagreement, and exactly when.
- `LockoutBoundIffSerial`, `OverlappingFailuresCountOnce`: logins that overlap work on
  copies of the failure counter, so the lockout bound holds exactly when no two
  sessions of an account are open at once (or the lockout has no length). Each failed
  check whose commit is refused moves it by one (`RefusalsMoveTheBoundBy`).
- `RowsAreExactIff`, `OverlappingRunsDouble`, `OverlapFromEmpty`: nothing makes a version's chunk numbers
  unique; overlapping indexing runs leave the rows of both.
- `CreatedAgreement`: a caller that brings `next_retry_in_seconds` in its own
  `_dispatch` metadata creates a pending row that names a retry delay.
- `UnsuccessfulRunIsKeptIff`: a transport error in the fallback model call rolls
  back the runtime run that was already recorded, its audit event and the reply.
- `EveryRetriedHasAJobIff`, `FastWorkerStrands`: a retry queues its jobs before it
  commits its rows; a worker that reads an asset in between drops the job, and the
  asset stays pending without one.
- `RefinesIff`, `KeepsIff`: the limiter reads the clock before it takes the lock. With
  a budget of at least two, readings out of lock order can let in what the full log
  would refuse, and the bounded interval is shorter than the window by the skew; with
  a budget of one and a window that is not negative neither happens. The same limits
  hold for threads (`ThreadsRefineIff`, `ThreadsKeepIff`).
- `HasLongRun`: a limit below 1 for consecutive characters acts like 1.
- `ProgressIffPositiveLimit`: the splitting loop makes progress for every text
  exactly when the chunk limit is at least 1.

## Model

| member | source | states |
|---|---|---|
| Chunker.SplitText | backend/src/kuuna_backend/jobs/indexing.py:122-145 | the loop ends for every limit of at least 1 and computes the parts that the laws below describe |
| Chunker.ProgressIffPositiveLimit | backend/src/kuuna_backend/jobs/indexing.py:128-143 | every turn shortens every remainder exactly when the limit is at least 1 |
| Chunker.CutRule | backend/src/kuuna_backend/jobs/indexing.py:133-137 | the cut is the last newline of the window, else its last space, else the limit; a word is cut only when the window holds neither |
| Chunker.PartsShape | backend/src/kuuna_backend/jobs/indexing.py:139-145 | parts exist, are stripped, non-empty and at most the limit long, so the fallback branch is never taken |
| Chunker.PartsVisible | backend/src/kuuna_backend/jobs/indexing.py:122-145 | the parts hold exactly the visible characters of the text, in order |
| Chunker.PartsWords | backend/src/kuuna_backend/jobs/indexing.py:122-145 | the words of the parts are the words of the text plus one per word that was cut |
| Chunker.ChunkMarkdown | backend/src/kuuna_backend/jobs/indexing.py:89-119 | the method with its loops computes the chunk list that the laws below describe, for every document; each longest stretch without a blank line that fits the limit lies whole inside one chunk |
| Chunker.SplitIff | backend/src/kuuna_backend/jobs/indexing.py:94 | the pieces of a text are exactly those that join to it with blank lines, hold none, and end in a newline only at the end |
| Chunker.StretchPartsStayWhole | backend/src/kuuna_backend/jobs/indexing.py:94-117 | each longest stretch without a blank line is cut by itself, and each of its parts lies whole inside one chunk |
| Chunker.NormalizedLines | backend/src/kuuna_backend/jobs/indexing.py:90 | a document with any mix of line ends is normalized to its lines, joined by newlines and stripped |
| Chunker.PackParts | backend/src/kuuna_backend/jobs/indexing.py:103-114 | the inner loop over one paragraph's parts continues the packing of everything that follows |
| Chunker.GreedyIsOptimal | backend/src/kuuna_backend/jobs/indexing.py:98-117 | no order-preserving grouping into bounded groups has fewer groups than the loop makes chunks |
| Chunker.PackGroupsFitTightly | backend/src/kuuna_backend/jobs/indexing.py:104-114 | every chunk fits, and with the separator and the first part of its successor it would not |
| Chunker.PackIsSmallestGrouping | backend/src/kuuna_backend/jobs/indexing.py:98-119 | the chunks are joins of a smallest order-preserving grouping of the parts |
| Chunker.NormalizeKeeps | backend/src/kuuna_backend/jobs/indexing.py:90-92 | rewriting line ends keeps the visible characters and the words; the result is empty exactly for blank documents |
| Chunker.ChunkLaws | backend/src/kuuna_backend/jobs/indexing.py:89-145 | a non-blank document gives non-empty, stripped, bounded chunks with exactly its visible characters in order |
| Chunker.ParagraphsOfText | backend/src/kuuna_backend/jobs/indexing.py:94-96 | a non-blank document has a paragraph, so the fallback branch is never taken |
| Chunker.BlankDocument | backend/src/kuuna_backend/jobs/indexing.py:91-92 | a blank document becomes one empty chunk |
| Indexing.KnowledgeStore.ProcessKnowledgeVersion | backend/src/kuuna_backend/jobs/indexing.py:24-86 | every outcome of the job, the rows and the status it leaves, and that a failed run changes nothing |
| Indexing.AddRows | backend/src/kuuna_backend/jobs/indexing.py:51-64 | one row per chunk, numbered from 1 |
| Indexing.EmbedChunks | backend/src/kuuna_backend/jobs/indexing.py:155-190 | embeddings that are returned are as many as the chunks |
| Indexing.ReindexedRows | backend/src/kuuna_backend/jobs/indexing.py:46-64 | after a run that meets no other the version's rows are exactly its chunks numbered 1 to n, and other versions keep theirs |
| Indexing.IndexedRows | backend/src/kuuna_backend/jobs/indexing.py:52-68 | every stored row has its version's scope and id, its number, a chunk of at most a thousand characters, that chunk's word count and its embedding, in the provider's order |
| Indexing.EmbeddingFailsIff | backend/src/kuuna_backend/jobs/indexing.py:155-190 | embedding fails exactly for a failed request, another number of vectors, or a vector of another length than 1536 |
| Indexing.ReindexingIsIdempotent | backend/src/kuuna_backend/jobs/indexing.py:46-64 | indexing the same content again leaves the table as it is |
| Indexing.ReindexedTokens | backend/src/kuuna_backend/jobs/indexing.py:148-152 | the stored token counts add up to the document's words plus the words that were cut |
| IndexingRuns.Reachable | backend/src/kuuna_backend/jobs/indexing.py:46-68 | every interleaving of runs keeps the rows tied to the commits of their version |
| IndexingRuns.RowsAreExactIff | backend/src/kuuna_backend/jobs/indexing.py:49-68 | a commit leaves exactly the run's rows 1 to n iff no other run of the version has committed since this one deleted the old rows |
| IndexingRuns.OverlappingRunsDouble | backend/src/kuuna_backend/db/models.py:444 | two runs that both deleted the old rows before either commits leave the rows of both |
| IndexingRuns.OverlapFromEmpty | backend/src/kuuna_backend/jobs/indexing.py:46-68 | two jobs for a version without rows reach this, with any two contents |
| RateLimiter.IpRateLimiter.IsAllowed | backend/src/kuuna_backend/domain/auth/service.py:74-86 | the pruning loop, the verdict and the new deque |
| RateLimiter.IpRateLimiter.Reset | backend/src/kuuna_backend/domain/auth/service.py:92-98 | forgets one key and no other |
| RateLimiter.IpRateLimiter.Clear | backend/src/kuuna_backend/domain/auth/service.py:92-98 | forgets every key |
| RateLimiter.BucketIsSuffix | backend/src/kuuna_backend/domain/auth/service.py:78-86 | the deque is the full log without stamps that are older than a window |
| RateLimiter.RefinesFullLog | backend/src/kuuna_backend/domain/auth/service.py:74-86 | with readings in lock order an attempt is allowed iff fewer than the budget's stamps of the full log lie in its window |
| RateLimiter.WindowBound | backend/src/kuuna_backend/domain/auth/service.py:74-86 | with skew at most d no interval d shorter than the window holds more accepted attempts than the budget |
| RateLimiter.SkewBoundIsTight | backend/src/kuuna_backend/domain/auth/service.py:76-86 | one run of skew 3 under a budget of 2: an interval one longer than the bound holds three stamps |
| RateLimiter.RefinementNeedsLockOrder | backend/src/kuuna_backend/domain/auth/service.py:76-86 | one run of skew 3 under a budget of 2: the deque allows what the full log would refuse |
| RateLimiter.RejectedAttemptIsInvisible | backend/src/kuuna_backend/domain/auth/service.py:80-84 | a rejected attempt changes no later verdict and no log, for any readings |
| RateLimiter.ExecutionKeepsSkew | backend/src/kuuna_backend/domain/auth/service.py:76-78 | threads that take the lock at most d after reading the clock produce readings of skew at most d |
| RateLimiter.ThreadedWindowBound | backend/src/kuuna_backend/domain/auth/service.py:74-86 | the interval bound holds in every interleaving of such threads |
| LimiterSkew.RefinesIff | backend/src/kuuna_backend/domain/auth/service.py:74-86 | every run of skew at most d decides like the full log iff d is 0, for a budget of at least two and a window that is not negative; with a budget of one and a window that is not negative always; negative windows exactly too |
| LimiterSkew.KeepsIff | backend/src/kuuna_backend/domain/auth/service.py:74-86 | every run of skew at most d keeps intervals of a length within the budget iff the length is at most the window less d, or at most the window for a budget of one, or negative, or the budget is not positive |
| LimiterSkew.BudgetOfOne | backend/src/kuuna_backend/domain/auth/service.py:79-86 | with a budget of one the deque holds the last accepted stamp and accepted stamps are more than a window apart, in whatever order readings come |
| LimiterThreads.ScheduleIff | backend/src/kuuna_backend/domain/auth/service.py:74-86 | the lock orders that threads can produce when each takes the lock at most d after its reading are exactly the event lists of skew at most d |
| LimiterThreads.ThreadsRefineIff | backend/src/kuuna_backend/domain/auth/service.py:74-86 | the condition under which every attempt of every interleaving of such threads is decided like the full log; it is the one for event lists |
| LimiterThreads.ThreadsKeepIff | backend/src/kuuna_backend/domain/auth/service.py:74-86 | the interval lengths that every interleaving of such threads keeps within the budget |
| Login.User.LoginUser | backend/src/kuuna_backend/domain/auth/service.py:145-189 | verdict and new counter and lock of a login that meets no other |
| Login.User.RegisterFailedLogin | backend/src/kuuna_backend/domain/auth/service.py:308-331 | counts a failure, or locks and starts over at the threshold |
| Login.User.ChangePassword | backend/src/kuuna_backend/domain/auth/service.py:192-227 | a change that passes both checks clears counter and lock; one that does not changes nothing |
| Login.LockedExactlyUntil | backend/src/kuuna_backend/domain/auth/service.py:151-156 | attempts on an active account are locked out exactly until the lockout ends, and change nothing until then |
| Login.CounterBelowThreshold | backend/src/kuuna_backend/domain/auth/service.py:308-331 | the counter is below the threshold after every event of every run of logins that do not overlap |
| Login.LockoutBound | backend/src/kuuna_backend/domain/auth/service.py:145-189 | for logins that do not overlap, a window of the lockout's length without success or change holds at most threshold failed checks |
| Login.ThresholdFailuresLock | backend/src/kuuna_backend/domain/auth/service.py:308-331 | threshold failures one after the other reach the bound and lock the account for the lockout's length |
| LoginSessions.UninterruptedSession | backend/src/kuuna_backend/domain/auth/service.py:145-189 | a session that meets no other is one login or one password change |
| LoginSessions.CounterBelowInEveryInterleaving | backend/src/kuuna_backend/domain/auth/service.py:308-331 | the counter stays below the threshold in every interleaving of sessions |
| LoginSessions.OverlappingFailuresCountOnce | backend/src/kuuna_backend/domain/auth/service.py:147-331 | any number of sessions that load a fresh account before one commits all fail their check, and a single failure is counted |
| LoginSessions.LockoutBoundIffSerial | backend/src/kuuna_backend/domain/auth/service.py:145-331 | the lockout bound, plus r, holds in every run with at most c sessions open and at most r refused commits iff c is at most 1 or the lockout has no length |
| LoginSessions.RefusalsMoveTheBoundBy | backend/src/kuuna_backend/domain/auth/service.py:308-331 | with one session at a time and at most r refused commits, k bounds the failed checks of a window iff k is at least the threshold plus r, or the lockout has no length |
| Login.HasLongRun | backend/src/kuuna_backend/domain/auth/service.py:290-303 | the scan reports exactly the passwords with a run longer than the limit, a limit below 1 acting like 1 |
| Login.PasswordPolicyViolations | backend/src/kuuna_backend/domain/auth/service.py:270-305 | each violation is listed exactly when its condition holds, once, in the order of the checks |
| Messages.Session.PersistInboundEvent | backend/src/kuuna_backend/domain/messages/ingest.py:32-113 | an uninterrupted run dedupes a repeated creation or commits one message change, version and media rows |
| Messages.CommitsIffNothingMoved | backend/src/kuuna_backend/db/models.py:314-339 | the constraints accept a transaction exactly when nobody has committed for its message since it looked |
| Messages.Reachable | backend/src/kuuna_backend/domain/messages/ingest.py:34-113 | every step of every interleaving keeps the invariant of the tables |
| Messages.VersionsAreTheCommittedEvents | backend/src/kuuna_backend/domain/messages/ingest.py:34-113 | one message per key, versions 1 to the counter, a creation only as version 1, the latest being the last committed event, media as in the events |
| Messages.RedeliveredCreationChangesNothing | backend/src/kuuna_backend/domain/messages/ingest.py:52-74 | a creation delivered again changes no row, whether noticed at the lookup or refused at the commit |
| Bindings.Session.CreateBinding | backend/src/kuuna_backend/domain/bindings/service.py:64-134 | every outcome of an uninterrupted creator and the rows it leaves |
| Bindings.Session.Unbind | backend/src/kuuna_backend/domain/bindings/service.py:137-152 | the binding becomes inactive and its agent stopped, or it is reported missing |
| Bindings.CreateCommitsIffNoActive | backend/src/kuuna_backend/db/models.py:276-285 | a creator commits exactly when its group has no active binding at that moment, whatever it saw before |
| Bindings.Reachable | backend/src/kuuna_backend/domain/bindings/service.py:64-152 | every interleaving of creators and unbinders keeps the tables consistent |
| Bindings.BindingsStayConsistent | backend/src/kuuna_backend/domain/bindings/service.py:64-152 | at most one active binding per group; active with a healthy agent or inactive with a stopped one; one agent and one activation intent each |
| Bindings.CreatorsAreAtomic | backend/src/kuuna_backend/domain/bindings/service.py:98-129 | a refused creator leaves no row, an accepted one exactly one of each kind |
| Outbound.OutboundStore.Create | backend/src/kuuna_backend/domain/outbound/service.py:72-100 | a pending row with defaults and metadata, or nothing when the payload cannot be used |
| Outbound.OutboundStore.MarkIntent | backend/src/kuuna_backend/domain/outbound/service.py:103-217 | the four marks: new status, counter and merged metadata of one row, or nothing |
| Outbound.MarkRestoresAgreement | backend/src/kuuna_backend/domain/outbound/service.py:58-217 | a mark makes metadata and status agree and leaves the rest of the payload alone |
| Outbound.StaleMarkAgreesIff | backend/src/kuuna_backend/domain/outbound/service.py:103-217 | a mark by a session with an older copy keeps the agreement exactly when the status column is written or unchanged |
| Outbound.CreatedAgreement | backend/src/kuuna_backend/domain/outbound/service.py:72-100 | a created row agrees with its metadata exactly when the caller brings no retry delay |
| Outbound.CreatedDefaults | backend/src/kuuna_backend/domain/outbound/service.py:72-100 | only metadata of the wrong type are refused; a new row names its intent, its group and its time of creation, unless the caller names others |
| Outbound.MarkTellsError | backend/src/kuuna_backend/domain/outbound/service.py:103-217 | after each mark the metadata name its error code and message, or none after a first mark and a success |
| Outbound.MarkTellsAnswer | backend/src/kuuna_backend/domain/outbound/service.py:103-217 | after each mark but the first they name its provider id and response; the first mark keeps those of before |
| Outbound.MarkTellsTime | backend/src/kuuna_backend/domain/outbound/service.py:103-217 | each mark notes its time under its own key, and only a retry leaves a delay |
| Outbound.MarksKeepAgreement | backend/src/kuuna_backend/domain/outbound/service.py:58-217 | under every sequence of marks status and metadata agree, the counter counts the sending marks, the payload outside the metadata is the created one |
| Delivery.DispatchOutboundIntent | backend/src/kuuna_backend/jobs/outbound_dispatch.py:106-279 | the row, the signal and the number of sends of one uninterrupted run, for every reply and every commit that is refused or not confirmed |
| Delivery.HandleReply | backend/src/kuuna_backend/jobs/outbound_dispatch.py:154-279 | what follows the send: each reply leads to its mark and its signal |
| Delivery.RejectionEndsAs | backend/src/kuuna_backend/jobs/outbound_dispatch.py:175-226 | a rejection ends in a retry exactly for the seven codes while a retry is left, else in a failure that is raised exactly for the seven codes; the metadata name code, message, delay and answer |
| Delivery.SuccessEndsAs | backend/src/kuuna_backend/jobs/outbound_dispatch.py:153-173 | a 2xx answer leaves the row sent, with its answer and without an error, and the job completed |
| Delivery.LostSendEndsAs | backend/src/kuuna_backend/jobs/outbound_dispatch.py:227-277 | a transport error ends in a retry while one is left, another exception never |
| Delivery.FaultyRunEndsAs | backend/src/kuuna_backend/jobs/outbound_dispatch.py:145-277 | without a confirmed first mark nothing is sent; an unconfirmed success is marked failed if the database takes that, and raised |
| Delivery.ProviderIdIsFirst | backend/src/kuuna_backend/jobs/outbound_dispatch.py:73-78 | the provider's id is the first of the three keys that holds a text |
| DeliveryRuns.UninterruptedRun | backend/src/kuuna_backend/jobs/outbound_dispatch.py:106-279 | the protocol's steps, taken with nothing in between, are one run of the job |
| DeliveryRuns.RejectedSendIsQueuedAgainIff | backend/src/kuuna_backend/jobs/outbound_dispatch.py:175-226 | after a rejected send the job is queued again exactly while a retry is left and either the code is one of the seven or the mark is not confirmed |
| DeliveryRuns.SendsAreBounded | backend/src/kuuna_backend/jobs/queue.py:32-44 | whatever fails or is reported, sends are at most one plus the retries, and the attempt counter counts them and the first marks that no send followed |
| DeliveryRuns.DeliveriesAreBounded | backend/src/kuuna_backend/jobs/outbound_dispatch.py:153-279 | deliveries, lost replies included, are at most one more than the unrecorded sends, and at most one more than the retries |
| DeliveryRuns.DeliversAtMostIff | backend/src/kuuna_backend/jobs/outbound_dispatch.py:153-279 | with at most k unrecorded sends the most deliveries is the lesser of k and the retries, plus one; at most one delivery iff k or the retries are 0 |
| DeliveryRuns.ManyDeliveries | backend/src/kuuna_backend/jobs/outbound_dispatch.py:159-279 | for every number of retries, refused success marks alone, and lost replies alone, lead to that many deliveries |
| DeliveryRuns.UndisturbedRun | backend/src/kuuna_backend/jobs/outbound_dispatch.py:106-279 | without failures, and with success reports only between runs: at most one delivery; a resting sending intent has a retry queued; without a retry it is sent or failed; metadata agree |
| DeliveryRuns.SentIsNeverSentAgain | backend/src/kuuna_backend/jobs/outbound_dispatch.py:134-143 | in such a run a sent intent stays sent and is not sent again |
| DeliveryRuns.SentIsLeftIff | backend/src/kuuna_backend/jobs/outbound_dispatch.py:123-145 | a step takes a row out of sent iff it commits a mark of another status from a copy that does not have that status |
| DeliveryRuns.StepAgreesIff | backend/src/kuuna_backend/domain/outbound/service.py:103-217 | a step that commits a mark leaves metadata and status in agreement iff the status column is written or is what its copy says |
| DeliveryRuns.ReportBeforeMarkIsLost | backend/src/kuuna_backend/jobs/outbound_dispatch.py:123-154 | a success reported between a run's read and its first mark does not keep the message from going out again |
| DeliveryRuns.ReportDuringSendIsLost | backend/src/kuuna_backend/api/routers/gateway.py:77-84 | after a success report during a send that ends in a transport error, status and metadata disagree iff a retry is left |
| InboundExecution.Session.ProcessInboundMessage | backend/src/kuuna_backend/jobs/ingest.py:81-322 | the committed rows and the signal of the job for every branch, and that nothing stays pending |
| InboundExecution.Session.GenerateAgentReply | backend/src/kuuna_backend/jobs/ingest.py:331-496 | the reply and the rows added for it, or an exception |
| InboundExecution.Session.RunAndRecord | backend/src/kuuna_backend/jobs/ingest.py:379-444 | the run that was added as started has ended and has its audit event |
| InboundExecution.Session.CreateIntent | backend/src/kuuna_backend/domain/outbound/service.py:72-100 | creating the intent commits everything the session has added, or nothing |
| InboundExecution.RunViaRuntimeAgent | backend/src/kuuna_backend/jobs/ingest.py:595-724 | every answer of the runtime agent becomes a result or an exception; the attempted models are those of the law below |
| InboundExecution.AttemptModelsLaws | backend/src/kuuna_backend/jobs/ingest.py:695-702 | the attempted models are exactly the named ones, once each, ordered by their first attempt |
| InboundExecution.AskModels | backend/src/kuuna_backend/jobs/ingest.py:463-490 | the loop over the candidates ends as the law below says |
| InboundExecution.AskIsDecidedByFirst | backend/src/kuuna_backend/jobs/ingest.py:463-490 | the first candidate that answers or raises decides; the model path ends with it |
| InboundExecution.ReplyLaws | backend/src/kuuna_backend/jobs/ingest.py:331-496 | the reply text is never empty, and the reply names the run exactly when it succeeded |
| InboundExecution.CommitShape | backend/src/kuuna_backend/jobs/ingest.py:227-270 | a commit adds one intent that replies to the message, with nothing else or with one ended run and its audit event |
| InboundExecution.JobsStayConsistent | backend/src/kuuna_backend/jobs/ingest.py:227-270 | in every interleaving of jobs and marks no run is started, each has one audit event and one intent of its transaction, which names it iff it succeeded, and no text is empty |
| InboundExecution.MarkKeepsIntent | backend/src/kuuna_backend/domain/outbound/service.py:58-63 | text, reply reference and named run of an intent survive every later mark |
| InboundExecution.JobIsItsSteps | backend/src/kuuna_backend/jobs/ingest.py:227-294 | the job is its commit step followed by its own mark when queueing fails |
| InboundExecution.UnsuccessfulRunIsKeptIff | backend/src/kuuna_backend/jobs/ingest.py:463-490 | an unsuccessful run is kept exactly when the commit is accepted and no fallback candidate raises before one answers |
| InboundReplies.AgentsAnswerIsSent | backend/src/kuuna_backend/jobs/ingest.py:446-461 | after a success of the runtime agent the committed intent carries the stripped service text, its models and its run, which has succeeded |
| InboundReplies.CandidatesAnswerIsSent | backend/src/kuuna_backend/jobs/ingest.py:463-479 | after an unsuccessful run it carries the stripped text of the first candidate that answers, the candidates asked, and no run |
| InboundReplies.FallbackIsSent | backend/src/kuuna_backend/jobs/ingest.py:491-496 | only when none answers, or none may be asked, it carries the fallback and the first candidate |
| InboundReplies.FallbackQuotes | backend/src/kuuna_backend/jobs/ingest.py:785-800 | the fallback quotes the user's words, cut after 240 characters, and tells the number of hits |
| InboundReplies.AgentsFailureIsKept | backend/src/kuuna_backend/jobs/ingest.py:420-443 | an unsuccessful run is kept as failed, or timed out, with the reason |
| InboundReplies.ConfirmationIsSent | backend/src/kuuna_backend/jobs/ingest.py:325-371 | a message without a text, or a deleted one, is confirmed without a run |
| InboundReplies.CommandIsAnswered | backend/src/kuuna_backend/jobs/ingest.py:756-782 | a tool command is answered by its tool if the template has it, without a run |
| InboundReplies.IntentIsAddressed | backend/src/kuuna_backend/jobs/ingest.py:239-270 | the intent names trace, group, message, agent, binding and image of the job |
| InboundReplies.IntentWaits | backend/src/kuuna_backend/jobs/ingest.py:272-294 | the intent is pending with no attempt, or failed with the reason when its dispatch could not be queued |
| InboundReplies.JobCommitsIff | backend/src/kuuna_backend/jobs/ingest.py:331-496 | a job commits exactly when it reaches the agent, the database takes its rows, the retrieval for a text worked, and a question for the agent got a reply; otherwise it leaves nothing, and raises exactly when it reached the agent |
| Retrieval.SortIsStable | backend/src/kuuna_backend/domain/retrieval/service.py:81 | the sort orders the hits, keeps them all and keeps the order of equal keys |
| Retrieval.BuildKnowledgeHits | backend/src/kuuna_backend/domain/retrieval/service.py:365-395 | the loop keeps the non-blank rows, stripped, in order |
| Retrieval.RetrieveKnowledgeHits | backend/src/kuuna_backend/domain/retrieval/service.py:136-205 | the merge sort moves nothing: group hits, then common hits, cut to the limit |
| Retrieval.MergeIsTopIff | backend/src/kuuna_backend/domain/retrieval/service.py:155-205 | per-scope limits and merge give the best of the union exactly when blank chunks use up no place that is needed |
| Retrieval.MergeIsTopWithoutBlanks | backend/src/kuuna_backend/domain/retrieval/service.py:155-205 | without blank chunks among the fetched rows they always do, and nothing left out ranks above anything kept |
| Retrieval.BlankChunksHideOthers | backend/src/kuuna_backend/domain/retrieval/service.py:377-379 | four blank chunks hide an eligible one at a limit of 1 |
| Retrieval.RetrieveRecentMessageHits | backend/src/kuuna_backend/domain/retrieval/service.py:85-133 | the hits of the latest messages; a blank one still uses up a rank |
| Retrieval.RecentIsSorted | backend/src/kuuna_backend/domain/retrieval/service.py:113-133 | recent hits come in descending order and above every other scope |
| Retrieval.CollectHits | backend/src/kuuna_backend/domain/retrieval/service.py:61-80 | the hits of the latest messages of their share (four of a limit of eight or more, half of a smaller one, at least one), then the knowledge that the remaining places hold |
| Retrieval.ContextOfVisibleRows | backend/src/kuuna_backend/domain/retrieval/service.py:61-82 | without blank rows the context is written out: hits of the share's messages, then of group and common chunks, as far as limit and scopes reach |
| Retrieval.HitOfRow | backend/src/kuuna_backend/domain/retrieval/service.py:365-395 | there is one hit per non-blank row, in order, with its scope, score, time, stripped content and source |
| Retrieval.HitOfMessage | backend/src/kuuna_backend/domain/retrieval/service.py:113-133 | there is one hit per non-blank message, in order, with its rank's score, time, stripped content and source |
| Retrieval.RetrieveContext | backend/src/kuuna_backend/domain/retrieval/service.py:52-82 | for every limit the result is that context, unmoved by the final sort and cut, within the limit |
| Failover.BuildFailoverPlan | services/runtime-agent/src/failover.py:15-28 | the loop and the slice compute the plan that the laws below describe |
| Failover.DistinctLaws | services/runtime-agent/src/failover.py:17-23 | the distinct models are exactly the stripped non-blank ones, once each, ordered by first mention |
| Failover.PlanLaws | services/runtime-agent/src/failover.py:15-28 | for every hop count the plan is a prefix of the path's distinct models, or of the default model when there are none, of at most one model more than hops; a negative count drops models from the end |
| AgentLoop.AnswerCalls | services/runtime-agent/src/runner.py:205-238 | each answerable call adds its result and its tool message, in call order |
| AgentLoop.RunRounds | services/runtime-agent/src/runner.py:194-247 | outcome and requests of the loop over a bounded number of completions |
| AgentLoop.RunOpenAiAgent | services/runtime-agent/src/runner.py:179-247 | the first request is system message, context message if there is one, and user message; each next one appends the assistant's reply and the answers to its calls; the outcome is what the last completion says, which asks for tools only after four |
| AgentLoop.AnswerOfCall | services/runtime-agent/src/runner.py:205-238 | each answerable call runs its tool with its arguments; its tool message carries its id and the output, or the error |
| AgentLoop.LoopConverses | services/runtime-agent/src/runner.py:194-247 | the same of every run of the loop |
| AgentLoop.RoundKeepsWellFormed | services/runtime-agent/src/runner.py:198-238 | after a round every tool message still answers a call of the nearest assistant message, in call order |
| AgentLoop.RequestsGrow | services/runtime-agent/src/runner.py:194-247 | every request is well formed and extends the ones before it; a round adds at most one |
| AgentLoop.ResultsAreWhatTheModelSaw | services/runtime-agent/src/runner.py:226-242 | the returned results are, in order, the contents of the tool messages of the last request |
| AgentLoop.AnswersAreNotBlank | services/runtime-agent/src/runner.py:240-247 | an answer is stripped and not empty |
| AgentLoop.RunPlan | services/runtime-agent/src/runner.py:282-321 | attempts follow the plan with each model's error, only the last can be a success, all failed iff every model fails, and then the error is the last one |
| AgentLoop.RunAgent | services/runtime-agent/src/runner.py:250-321 | at most three attempts and four completions each; the attempts are a prefix of the deduplicated plan |
| Base64.DecodeInvertsEncode | backend/src/kuuna_backend/jobs/media_processing.py:117-126 | both decoder modes give back what either alphabet encodes (sections 4 and 5 of RFC 4648) |
| Base64.PaddingIsRestored | backend/src/kuuna_backend/api/security.py:104-111 | the padding that the printer strips is what the reader puts back (section 3.2 of RFC 4648) |
| Base64.StrictRefinesLenient | backend/src/kuuna_backend/jobs/media_processing.py:245-251 | what the strict mode accepts the lenient mode reads the same way |
| Base64.StrictAcceptsIff | backend/src/kuuna_backend/jobs/media_processing.py:245-251 | the strict mode accepts exactly whole quadruples of digits with at most two padding characters at the end |
| Base64.LenientIgnoresOthers | backend/src/kuuna_backend/api/security.py:104-111 | the lenient mode reads nothing but digits and padding |
| Base64.DigitsAreTheAlphabet | backend/src/kuuna_backend/jobs/media_processing.py:117-126 | the digits are the two alphabets (tables 1 and 2 of RFC 4648) |
| AccessToken.GrantedLaws | backend/src/kuuna_backend/api/security.py:26-37 | a token grants exactly the non-empty names it was issued for, sorted and once each |
| AccessToken.UrlRoundTrip | backend/src/kuuna_backend/api/security.py:104-113 | an unpadded segment decodes to its bytes and contains no dot |
| AccessToken.DecodeInvertsIssue | backend/src/kuuna_backend/api/security.py:26-68 | an issued token is accepted exactly when its role is not empty and it has not expired, and returns user, role and granted scope |
| AccessToken.AcceptedIsSigned | backend/src/kuuna_backend/api/security.py:46-96 | an accepted token carries the signature of its payload, a user, a role, no empty name, and has not expired |
| AccessToken.SignedIsAccepted | backend/src/kuuna_backend/api/security.py:46-68 | every correctly signed token with a valid payload is accepted exactly until it expires |
| AccessToken.RejectedBefore | backend/src/kuuna_backend/api/security.py:46-56 | a second part that is no base64, or not the signature of the first, is rejected as such |
| AccessToken.RejectedFormat | backend/src/kuuna_backend/api/security.py:46-49 | a token that is not two parts around one dot is rejected for its format |
| AccessToken.ValidateIff | backend/src/kuuna_backend/api/security.py:71-96 | a payload is valid exactly when user and role are texts, the scope is a list of texts and the times are integers; it is returned as it stands, without empty names |
| DataUrl.DecodeDataUrl | backend/src/kuuna_backend/jobs/media_processing.py:226-253 | the header loop and the two bodies compute the content that the laws below describe |
| DataUrl.ReadInvertsPrint | backend/src/kuuna_backend/jobs/media_processing.py:226-253 | a printed URL reads as its type and the bytes of its text, or not at all when the text is no valid base64 |
| DataUrl.PlainUrlRead | backend/src/kuuna_backend/jobs/media_processing.py:226-253 | a URL that does not ask for base64 reads as its type and its percent-decoded text |
| DataUrl.NoThumbnailUrlIff | backend/src/kuuna_backend/jobs/media_processing.py:117-126 | there is no URL exactly for a missing and an empty thumbnail |
| DataUrl.ThumbnailRoundTrip | backend/src/kuuna_backend/jobs/media_processing.py:117-126 | a thumbnail's URL reads back as its JPEG bytes (section 3 of RFC 2397) |
| FocusTracker.Tracker.SyncFocusState | devtools/cursor-open-time-tracker/extension.js:162-199 | sessions, counter, timer and log after a focus or folder change |
| FocusTracker.Tracker.EndRemoved | devtools/cursor-open-time-tracker/extension.js:193-196 | sessions of folders that are gone are closed, the others stay |
| FocusTracker.Tracker.WriteCheckpoint | devtools/cursor-open-time-tracker/extension.js:132-160 | elapsed time becomes a logged interval and the session starts anew |
| FocusTracker.Tracker.EndAllSessions | devtools/cursor-open-time-tracker/extension.js:101-130 | every session becomes a logged interval |
| FocusTracker.Tracker.FlushNow | devtools/cursor-open-time-tracker/extension.js:211-213 | a manual flush is a checkpoint |
| FocusTracker.Tracker.DisposeAll | devtools/cursor-open-time-tracker/extension.js:273-278 | disposal closes every session and stops the timer |
| FocusTracker.EventKeeps | devtools/cursor-open-time-tracker/extension.js:101-199 | every event keeps logged plus open time of every root, and opens or closes its session as the focus says |
| FocusTracker.FocusTimeIsConserved | devtools/cursor-open-time-tracker/extension.js:101-199 | for every root logged durations plus open time equal its focused time, and its intervals do not overlap |
| FocusLog.LogIsSound | devtools/cursor-open-time-tracker/extension.js:101-199 | for every sequence of events and every clock each session number is started once; its intervals follow one another without a gap; all are checkpoints but one final, which is there, last, exactly when the session is over |
| FocusLog.TimerIff | devtools/cursor-open-time-tracker/extension.js:162-199 | the checkpoint timer runs exactly after a synchronisation with focus and a folder, until one without, or disposal |
| Clusters.ClusterDurations | scripts/kuuna_daily_report.py:139-175 | credited span of each cluster and the overall span, in seconds |
| Clusters.ClusteringIsUnique | scripts/kuuna_daily_report.py:151-159 | the clusters are the only partition with inner gaps within and boundary gaps above the threshold |
| Clusters.SpansAndGapsAddUp | scripts/kuuna_daily_report.py:164-172 | raw spans and gaps make up the time from the first commit to the last |
| Clusters.CreditedTime | scripts/kuuna_daily_report.py:161-174 | credited time and left-out gaps cover the span and exceed it by at most one minimum per cluster |
| MediaReconcile.MediaStore.CleanupBogus | backend/src/kuuna_backend/jobs/media_processing.py:831-853 | deletes the limit's worth of failed assets without a media id and nothing else |
| MediaReconcile.MediaStore.EnqueuePending | backend/src/kuuna_backend/jobs/media_processing.py:769-793 | queues the oldest pending assets up to the limit and changes no row |
| MediaReconcile.MediaStore.RetryFailed | backend/src/kuuna_backend/jobs/media_processing.py:796-828 | the failed assets that have waited longest become pending without their error and are queued; a refused job leaves all rows as they were |
| MediaReconcile.MediaStore.Act | backend/src/kuuna_backend/api/routers/internal.py:85-102 | the three actions in order and their balance, or what a refused job leaves |
| MediaReconcile.MediaStore.Reconcile | backend/src/kuuna_backend/api/routers/internal.py:71-104 | numbers before and after balance, other groups are untouched, a dry run changes nothing |
| MediaReconcile.Select | backend/src/kuuna_backend/jobs/media_processing.py:779-783 | an ordered query with a limit: distinct rows, ascending, none left out that comes before one kept |
| MediaReconcile.CleanupCounts | backend/src/kuuna_backend/jobs/media_processing.py:831-853 | failed and bogus fall by the deleted assets, pending and ready stay |
| MediaReconcile.RetryCounts | backend/src/kuuna_backend/jobs/media_processing.py:814-825 | failed falls and pending grows by the retried assets, ready stays |
| MediaReconcile.RetriedAsset | backend/src/kuuna_backend/jobs/media_processing.py:814-825 | a retried asset is pending and without its error; its other metadata and every other asset stay |
| MediaReconcile.FirstUpdated | backend/src/kuuna_backend/jobs/media_processing.py:807-811 | no failed asset that is left out was changed before one that is retried, which come in that order |
| MediaReconcile.ScopeOfRequest | backend/src/kuuna_backend/jobs/media_processing.py:801-806 | a request is about the assets of its group, or about all for no name and the empty name |
| MediaRetryRuns.JobsAreConserved | backend/src/kuuna_backend/jobs/media_processing.py:528-549 | in every interleaving of a retry with workers the jobs of an asset that were there or are queued are those left or ended |
| MediaRetryRuns.StrandedIff | backend/src/kuuna_backend/jobs/media_processing.py:814-825 | a retried asset is left pending without a job iff before the commit as many of its jobs ended as it had, and one more |
| MediaRetryRuns.EveryRetriedHasAJobIff | backend/src/kuuna_backend/jobs/media_processing.py:814-825 | when the assets have no other jobs, none is left pending without a job iff no worker reads one of them before the commit |
| MediaRetryRuns.FastWorkerStrands | backend/src/kuuna_backend/jobs/media_processing.py:544-549 | a worker that reads a failed asset between its queueing and the commit drops the only job |

## Left out

- Chunker.SplitText: a limit of 0 is not a run of the method, because the source's loop does not end there; ProgressIffPositiveLimit states that.
- Chunker, Text: characters are Unicode scalar values and whitespace is Python's set; other Unicode details are not modelled.
- Indexing.EmbedChunks: the vectors are what the provider returns; the arithmetic of the pseudo embedding is not modelled.
- Login.User.LoginUser: the lookup of the account, token issue and audit rows belong to other parts.
- Login.LockoutBound: holds of logins that do not overlap; LoginSessions.LockoutBoundIffSerial says that this is needed.
- LoginSessions.LockoutBoundIffSerial: a session that ends before its commit counts as one whose commit is refused; how far more than two overlapping sessions exceed the bound is not stated.
- Login.PasswordPolicyViolations: the six conditional appends are calls of one method, `Check`; `lower`, `upper`, `isdigit` and `isalnum` are parameters.
- Indexing.ReindexedRows: holds of runs that do not overlap; IndexingRuns.RowsAreExactIff says when it holds of those that do.
- Messages.Session.PersistInboundEvent: row ids are positions, the constraints are checked at the commit, and the trigger decision and the queueing after the commit are left out.
- Bindings.Session.CreateBinding: row ids are positions; the queueing after the commit and the model path in the activation message are left out.
- Outbound.OutboundStore.MarkIntent: the four mark functions are one method with the mark as its argument; a truthy `_dispatch` that is no mapping counts as a type error, also where Python would accept a list of pairs; an intent created by one session is read afresh by each mark (Apply covers sessions that hold an older copy).
- DeliveryRuns.UndisturbedRun: the queue runs one job per intent at a time, and the sessions of the status endpoint make one mark each.
- Delivery.HandleReply: the `try` block's rest and its handlers are a method of their own, and so is the part for a reply that arrives (`HandleResponse`); the retry delay is a parameter.
- InboundExecution.Session.ProcessInboundMessage: lookups are given as their results; prompts, retrieval references, the execution record, allowed tools and template ids in rows and metadata are left out, and the pattern that recognises a tool command and `upper` are parameters; the two tool handlers do not raise. The extraction of model candidates from a template is left out.
- InboundExecution.Session.CreateIntent: the intent's trace id and timestamps are parameters.
- Retrieval.RetrieveContext: scores are reals without rounding, and the knowledge queries are given as the ordered rows they would return.
- Failover.BuildFailoverPlan: `iter_model_path` and the plan object are left out.
- AgentLoop.RunAgent: runs in a template's container, the tools requested by the caller, HTTP and the parsing of tool arguments are left out; `RunRounds`, `AnswerCalls` and `RunPlan` are loops of larger functions.
- Base64.DecodeInvertsEncode: the decoders follow the state machine of CPython's `binascii.a2b_base64`, which is not part of the repository.
- AccessToken.DecodeInvertsIssue: JSON, UTF-8 and the signature are parameters, and JSON must give back what was dumped; numbers that are no integers are not modelled; time is in whole seconds.
- DataUrl.ReadInvertsPrint: media types are printed with a slash and without comma or semicolon; `lower` changes ASCII letters only, and percent decoding is a parameter.
- FocusTracker.Tracker.SyncFocusState: every callback reads the clock once; activation and flush notices in the log, the timer's period and the daily totals command are left out.
- Clusters.ClusterDurations: seconds instead of floating-point hours; cutting and crediting clusters are methods of their own (`CutCommits`, `CreditClusters`).
- MediaReconcile.MediaStore.Reconcile: no worker runs between the steps of a request (MediaRetryRuns has the retry beside workers), the first action has a method of its own (`CleanIfAsked`), transcripts of deleted assets are not modelled, and `Select` stands for the database's query.
- MediaRetryRuns.EveryRetriedHasAJobIff: media processing is enabled, no other request queues jobs, and no asset is deleted meanwhile.
- Processing of one media asset, preview backfill, knowledge and template publishing, template builds, the dashboard, the gateway's message mapping, log scrubbing and the report's text are left out: input and output or case tables with little to prove.
