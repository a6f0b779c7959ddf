# Verified model of the scanner's stateful core

This project models, in Dafny 4.11, the parts of the scanner whose behaviour spans many steps or
many functions, and proves what they promise. The model takes the source's form: the loops that
change fields are classes with methods, proved against step functions on values; the laws about
whole runs are lemmas about those functions.

| files | what they model |
|---|---|
| `Basics` | the small vocabulary the models share |
| `DependencyGraph`, `Scheduler*` | the bounded job scheduler: admission, merging of jobs that share an idempotency key, dispatch under five limits, retries, blocking, the report, and its independence of the schedule |
| `InFlightPool`, `PoolLaws` | the pool that joins identical reads in flight, as atomic steps of the event loop |
| `FlowGraph`, `FlowSearch`, `FlowPaths`, `FlowResiduals`, `FlowAnalysis`, `FlowOrder`, `FlowReports` | the flow-graph candidate finder: loading, the budgeted search, residuals, shortest paths, the pipeline, what the order of the edge file decides, and what a report shows |
| `SubmissionModel`, `Submissions`, `SubmissionRuns`, `SubmissionWitness`, `SubmissionLaws` | recording a human-confirmed submission on a document and committing it to a shared database |
| `CandidateModel`, `CandidateVerifier`, `CandidatePromotion`, `CandidateEdits`, `CandidateWitness`, `CandidateLaws`, `CandidateRecords` | building a candidate, replaying it independently, the promotion gate, and what may have changed in between |
| `SourceAttempts`, `AttemptLedger`, `SourceCache`, `SourceAnswers`, `SourceLaws`, `CacheLaws` | retry and fallback over sources, the append-only attempt ledger, the immutable cache over content-addressed artifacts, and when a caller gets an answer |
| `TraceEvidence`, `TraceEffects`, `TraceAmounts` | the two trace dialects, the inflow evidence they are normalised to, which of it took effect, and what amounts are read |

The files named `...Laws`, `CandidateRecords`, `FlowReports` and `TraceAmounts` say what the operations
do in the fields of the records they are given and return, apart from the functions that model them.

What the source leaves to chance is universally quantified: the iteration order of sets, which
tasks finish first, what every worker, adapter or source answers (a function parameter), jitter
draws, the order in which operators work, and damage to stored files.

## How the source's values appear

- Identifiers, addresses, hashes, keys and times are naturals: only their equality and order are
  used. Addresses and call types are taken up to letter case.
- Stored times are microseconds, and sort as their text does: a whole second ends in `Z` and so sorts
  after every fraction of that second (`SubmissionModel.TextRank`).
- SHA-256, request fingerprints, cache keys and the canonical answer text are injective: they are
  datatype constructors. A freshly derived submission suffix is a parameter and need not be fresh.
- A job has at most one task, so the scheduler's `active` table of tasks is the set of their jobs;
  that it never holds a job twice is part of the invariant.
- An exception is an error value; a failed transaction leaves the tables as they were.
- Equality of two canonical edge digests is equality of the two multisets of edges.
- Delays are reals; all other numbers are unbounded integers, as in Python.
- The fields of a JSON object stand in key order.

## Where the code and the expectation part

Each of these has its exact condition as a lemma and a concrete input on which the expectation fails.

- What is promoted need not be what was built, nor what was replayed. The gate checks identifiers
  against the verification record and the answer against the analyses it is called with. So a result
  dropped after verification, with the answer rewritten to match, gets through, and so does a
  candidate whose uncertainties were removed; and so does a value that no replay ever gave, when the
  promotion is called with a changed analysis. Exactly what is promoted on a recorded verification,
  whatever the candidate and the analyses: `CandidateEdits.PromotedIff`. When the promoted answer,
  results and evidence are the replayed ones: `CandidateEdits.PromotedIsReplayedIff`. Over the verified
  analyses: `CandidateEdits.EditIsPromotedIff`, and when the promoted candidate is the built one
  `CandidateEdits.PromotedIsBuiltIff`. The inputs: `CandidateWitness.DroppedResultIsPromoted` and
  `CandidateWitness.ForgedValueIsPromoted`.
- The drafts do not depend on the order of the edge file, but the reported candidates do, because only
  the one shortest path found is confirmed. When they do not: `FlowOrder.KeptForEveryOrderIff`; input:
  `FlowOrder.OrderDecides`.
- A recorded document commits on an unchanged database only if no stored submission or event sorts
  after the new ones, because the read-back compares lists ordered by time text with the appended
  ones: an operator whose clock is behind a stored event cannot commit, and neither can one whose clock
  is ahead of it within the same second when the event stands on the whole second. Condition:
  `Submissions.RecordedCommitsIff`, with `SubmissionModel.TextOrder` for what sorting by text means;
  inputs: `SubmissionWitness.ClockBehindIsRefused` and `SubmissionWitness.EarlierEventRefuses`.
- A nested trace also counts value sent by contract creation or self-destruct, whose flat entries have
  no `to`. Condition: `TraceEvidence.DialectsAgreeIff`; input: `TraceEffects.SelfDestructSplitsDialects`.
- Only a call's own error is looked at, so a transfer inside a reverted call is listed as a successful
  inflow. Condition: `TraceEffects.EvidenceTookEffectIff`; input: `TraceEffects.RevertedCallersAreReported`.
- Two sources of one provider in one execution clash in the ledger, and the execution raises after its
  sources have answered. Condition: `AttemptLedger.SaveSucceedsIff`, and for the caller beforehand
  `SourceAnswers.AlwaysStoredIff`; input: `SourceAnswers.SharedProviderIsRefused`.
- Once a fixed-block response is cached from one source, a policy that excludes that source can get no
  answer from another one, not even the same bytes. Condition: `SourceAnswers.AnswersIff`, and for the
  caller beforehand `SourceAnswers.SomeWorldAnswersIff`; input: `SourceAnswers.SecondSourceConflicts`.

One check is shown to be needed and another to be idle.

- `DependencyGraph.MergingUnlikeJobsCanCloseACycle`: the scheduler's test that duplicates have
  equivalent dependencies is what keeps the merged graph acyclic; with it, the second acyclicity
  check never fails (`DependencyGraph.MergedStaysAcyclic`).

## Model

| member | source | states |
|---|---|---|
| DependencyGraph.RequireAcyclic | src/scan_tool/application/scheduler.py:398-414 | accepts a dependency map exactly when it has no cycle |
| DependencyGraph.CycleSearch.Visit | src/scan_tool/application/scheduler.py:402-411 | a visit that succeeds leaves the job visited and the stack of visits as it was; one that fails proves a cycle |
| DependencyGraph.Unroll | src/scan_tool/application/scheduler.py:228-240 | a cycle of the merged graph is followed in the original graph for any number of steps |
| DependencyGraph.MergedStaysAcyclic | src/scan_tool/application/scheduler.py:228-241 | merging duplicates with equal canonical dependencies keeps an acyclic graph acyclic, so the re-check cannot fail |
| DependencyGraph.MergingUnlikeJobsCanCloseACycle | src/scan_tool/application/scheduler.py:236-241 | without that agreement merging can close a cycle |
| Scheduler.ValidateJobs | src/scan_tool/application/scheduler.py:365-371 | accepts exactly jobs with unique identifiers that are all queued, and indexes them |
| Scheduler.CheckDependencyList | src/scan_tool/application/scheduler.py:384-393 | reports a fault exactly when a job's dependency list repeats, leaves the jobs, crosses problems or names the job itself |
| Scheduler.ValidateDependencies | src/scan_tool/application/scheduler.py:373-396 | accepts exactly well-formed acyclic dependency maps, normalised over all jobs; reports a cycle exactly when that is the only fault |
| Scheduler.DeduplicationMap | src/scan_tool/application/scheduler.py:416-431 | fails exactly when jobs of one key differ in scope; otherwise maps every job to the first job of its key in dispatch order |
| Scheduler.CheckDuplicates | src/scan_tool/application/scheduler.py:232-240 | passes exactly when jobs with one key depend on the same set of keys |
| SchedulerLaws.AcceptedIff | src/scan_tool/application/scheduler.py:222-241 | exactly which inputs are accepted, in the jobs' fields: unique queued jobs; known, distinct dependencies on other jobs of the same problem, without a circle; and one scope and equally keyed dependencies per idempotency key |
| SchedulerLaws.PlanMeans | src/scan_tool/application/scheduler.py:224-231 | the jobs run are the first of each key, as given, and each waits for the jobs that stand for its dependencies |
| SchedulerModel.NoCapacityIsMonotone | src/scan_tool/application/scheduler.py:475-489 | a job that does not fit still does not fit after another admissible job is admitted, for all five limits |
| SchedulerSteps.StartKeepsInv | src/scan_tool/application/scheduler.py:243-260 | the state before the loop satisfies the invariant |
| SchedulerSteps.DispatchKeepsInv | src/scan_tool/application/scheduler.py:275-296 | a dispatch keeps the invariant (partition of jobs, exact attempts and counters, limits, true maxima, linear order) and uses up work |
| SchedulerSteps.BlockKeepsInv | src/scan_tool/application/scheduler.py:463-473 | blocking a dependent keeps the invariant; a blocked job was never dispatched |
| SchedulerSteps.FinishKeepsInv | src/scan_tool/application/scheduler.py:309-329 | a finished task, retried or not, keeps the invariant and uses up work |
| SchedulerSteps.StrandKeepsInv | src/scan_tool/application/scheduler.py:298-306 | the fallback keeps the invariant when nothing left is ready |
| SchedulerSteps.CapacityKeepsLimits | src/scan_tool/application/scheduler.py:475-484 | a job admitted by the capacity test leaves every limit respected by the recomputed loads |
| SchedulerSteps.FitsIff | src/scan_tool/application/scheduler.py:475-484 | the counters' capacity test holds exactly when starting the job keeps all five loads, counted afresh over the active jobs, within their limits |
| SchedulerSteps.ObservedMaxima | src/scan_tool/application/scheduler.py:284-296 | the maxima updated at a dispatch are the true maxima over all active sets so far |
| SchedulerSteps.IdleFitsEverything | src/scan_tool/application/scheduler.py:298-306 | with nothing active every job fits |
| SchedulerSteps.ToFailedAncestor | src/scan_tool/application/scheduler.py:298-306 | with nothing active and nothing ready, a pending job has a chain of dependencies to one that ended without completing |
| SchedulerPass.Sorted | src/scan_tool/application/scheduler.py:448-448 | a permutation of the jobs in priority, queue time and identifier order |
| SchedulerPass.BeforeMeans | src/scan_tool/application/scheduler.py:448-448 | the order is that of urgency, critical before high before normal before deferred, then of queue time, then of identifier |
| SchedulerPass.PassStartsInOrder | src/scan_tool/application/scheduler.py:269-296 | a pass appends the jobs it starts to the dispatch order, the more urgent and then the earlier queued first |
| SchedulerPass.WorkConserving | src/scan_tool/application/scheduler.py:269-296 | a ready job is passed over exactly when starting it at its turn would have broken one of the five limits, and then it still would at the end of the pass |
| SchedulerPass.PassKeepsInv | src/scan_tool/application/scheduler.py:269-296 | a whole pass keeps the invariant and adds no work |
| SchedulerRun.Run.SkipUnrunnable | src/scan_tool/application/scheduler.py:253-260 | cancelled jobs and jobs of paused problems, and only those, get their result |
| SchedulerRun.Run.ResolveBlocked | src/scan_tool/application/scheduler.py:450-473 | every pending job with a dependency that ended badly gets a result, for any iteration order; results already there are kept |
| SchedulerRun.Run.ReadyJobs | src/scan_tool/application/scheduler.py:433-448 | all and only the pending jobs whose dependencies completed, in dispatch order |
| SchedulerRun.Run.DispatchPass | src/scan_tool/application/scheduler.py:269-296 | equals the pass function over the ready list, and afterwards starting any ready pending job would break one of the five limits |
| SchedulerRun.Run.StrandRemaining | src/scan_tool/application/scheduler.py:298-306 | every job the fallback gives up has a transitive dependency that ended without completing |
| SchedulerRun.Run.Settle | src/scan_tool/application/scheduler.py:309-329 | equals the finish step: retry within the allowance, or the result of this attempt |
| SchedulerRun.Run.AwaitCompletions | src/scan_tool/application/scheduler.py:308-329 | any nonempty set of finished tasks is settled, each job being retried or given its worker's answer, nothing else changes, and the work left strictly falls |
| SchedulerRun.Run.Drain | src/scan_tool/application/scheduler.py:262-329 | the loop ends, with nothing pending or active, reports the workers' outcomes, and is a sequence of rounds, each of which starts all that can be started before it waits |
| SchedulerRun.NeverIdle | src/scan_tool/application/scheduler.py:262-308 | in every round of a run, when the run waits, starting any ready job would break one of the five limits |
| SchedulerOutcomes.FinishFaithful | src/scan_tool/application/scheduler.py:312-329 | settling a task with its worker's answer keeps results equal to last attempts and retries equal to requests |
| SchedulerOutcomes.PassFaithful | src/scan_tool/application/scheduler.py:269-282 | so does a dispatch pass |
| SchedulerExecution.Admit | src/scan_tool/application/scheduler.py:222-241 | accepts exactly the well-formed inputs; the second acyclicity check is passed by every input that reaches it |
| SchedulerExecution.FinishedRun | src/scan_tool/application/scheduler.py:262-329 | at the end a job was dispatched exactly when it was not held back and all its dependencies completed; dispatches respect dependencies through all retries |
| SchedulerExecution.MaximaWithinLimits | src/scan_tool/application/scheduler.py:351-354 | the reported maxima are within the limits |
| SchedulerExecution.AttemptsAddUp | src/scan_tool/application/scheduler.py:331-350 | attempts over all returned results, duplicates counting none, add up to the length of the dispatch order |
| SchedulerExecution.ReportIsSound | src/scan_tool/application/scheduler.py:331-355 | one result per input job in input order, duplicates copied from the job that stands for them, idle jobs explained, nothing stranded |
| SchedulerExecution.ReportOutcomes | src/scan_tool/application/scheduler.py:312-350 | each dispatched job reports its last attempt's outcome, all earlier attempts asked for a retry, and the last was final or used up the allowance |
| SchedulerExecution.Execute | src/scan_tool/application/scheduler.py:193-355 | all of the above from the call, for any workers, completion order and iteration order |
| SchedulerDeterminism.LastAttemptIsUnique | src/scan_tool/application/scheduler.py:312-329 | the workers' answers and the allowance determine a dispatched job's number of attempts and result |
| SchedulerDeterminism.ResultsIgnoreSchedule | src/scan_tool/application/scheduler.py:262-329 | two finished runs of the same jobs with the same workers end with equal results and dispatch every job equally often, whatever finished first and whatever the limits |
| SchedulerDeterminism.ExecutionsAgree | src/scan_tool/application/scheduler.py:193-355 | so do two executions of one input: plan and list of results are equal, and the dispatch orders are permutations of each other |
| InFlightPool.RunKeepsInv | src/scan_tool/application/scheduler.py:74-125 | every interleaving keeps table, counters, permits and answers consistent |
| InFlightPool.ReachablePool | src/scan_tool/application/scheduler.py:74-125 | at most one unfinished task per capability and request; running operations equal the tracked count and stay within the limit |
| InFlightPool.OnlyOwnTaskForgets | src/scan_tool/application/scheduler.py:116-125 | an entry leaves only in its own finished task's callback, and the identity check there never fails |
| InFlightPool.IdenticalCallsJoin | src/scan_tool/application/scheduler.py:86-97 | a call for a request still in the table starts nothing and waits on that task |
| PoolLaws.CallWaits | src/scan_tool/application/scheduler.py:74-97 | a call waits on the one current task of its capability and request, and one new task is made exactly if there is none |
| PoolLaws.MayStartIff | src/scan_tool/application/scheduler.py:105-110 | a waiting task may start exactly when fewer operations of its capability run than its limit |
| PoolLaws.CallsMove | src/scan_tool/application/scheduler.py:97-97 | a caller that returns has its task's outcome, one that leaves has none, and no step touches another caller |
| PoolLaws.OutcomeIsTheOperations | src/scan_tool/application/scheduler.py:105-114 | over any run a finished task's outcome is what its operation ended with, or a cancellation before it began |
| InFlightPool.JoinedCallersAgree | src/scan_tool/application/scheduler.py:86-97 | all callers of one task that have an answer have that task's one outcome, at any later time |
| InFlightPool.CancellationDisturbsNobody | src/scan_tool/application/scheduler.py:97-97 | removing all cancellations of one caller from any run changes nothing but that caller's own state |
| InFlightPool.MaximaAreExact | src/scan_tool/application/scheduler.py:105-110 | the observed maximum is the true peak of the count over the run |
| InFlightPool.NobodyIsStuck | src/scan_tool/application/scheduler.py:97-114 | while a caller waits, some acquisition, completion or return is possible |
| InFlightPool.StepsUseWork | src/scan_tool/application/scheduler.py:99-125 | every step but a new call uses up work, so waiting callers are answered once operations end |
| InFlightPool.EveryoneIsAnswered | src/scan_tool/application/scheduler.py:97-125 | from any reachable state, a run without new calls and cancellations that cannot be continued has answered every caller still waiting, and every such run is bounded |
| InFlightPool.Pool.Open | src/scan_tool/application/scheduler.py:59-69 | an empty table of limits or a limit below one is refused; otherwise the pool starts empty |
| InFlightPool.Pool.Execute | src/scan_tool/application/scheduler.py:74-97 | joins or creates as the step says, and rejects unknown capabilities and empty keys |
| InFlightPool.Pool.Begin | src/scan_tool/application/scheduler.py:105-110 | takes a permit, counts the operation and updates the maximum as the step says |
| InFlightPool.Pool.End | src/scan_tool/application/scheduler.py:111-114 | uncounts the operation whatever its outcome |
| InFlightPool.Pool.ForgetTask | src/scan_tool/application/scheduler.py:116-125 | the callback removes the task's own entry |
| FlowGraph.LoadEdges | scripts/contest/flow_final_candidates.py:113-182 | fails exactly when two rows in scope with one transaction, log index and trace address differ; otherwise the distinct rows in scope, with unique locators |
| FlowReports.LoadedInOrder | scripts/contest/flow_final_candidates.py:113-182 | the loaded edges are the rows in scope in file order, each at its first place |
| FlowSearch.DiscoverRelatedEdges | scripts/contest/flow_final_candidates.py:211-264 | budgets respected, everything found within the hop limit, the flag false exactly when the search is complete, and exactly when the graph fits the three budgets, nothing missing but for a spent budget, and per account the first of its edges in file order |
| FlowSearch.FlagIsExact | scripts/contest/flow_final_candidates.py:226-263 | with unique locators the flag is unset exactly when `visited` is what the seed reaches and `related` what leaves it |
| FlowSearch.FoundWithinHops | scripts/contest/flow_final_candidates.py:226-263 | every address of a found edge has a path from the seed inside the found edges within the hop limit, truncated or not |
| FlowSearch.TooFar | scripts/contest/flow_final_candidates.py:232-237 | in a search not cut short so far, an account with outgoing edges popped at the hop limit really is that far, so the graph does not fit |
| FlowSearch.CompleteFits | scripts/contest/flow_final_candidates.py:211-264 | a complete search shows that accounts, edges and distances fit the budgets |
| FlowPaths.FindPathEdges | scripts/contest/flow_final_candidates.py:285-326 | a path exactly when seed and target differ and one exists within the hop limit, and then a node-simple one of least length; when some shortest path takes the first edge at every account, that one |
| FlowPaths.DepthIsDistance | scripts/contest/flow_final_candidates.py:301-313 | no path within the edges is shorter than the depth at which the search first met its end |
| FlowPaths.FollowLed | scripts/contest/flow_final_candidates.py:308-313 | following an edge keeps to a leading path: its accounts head their levels of the queue, and its prefixes are the recorded paths |
| FlowPaths.PathFinder.Walk | scripts/contest/flow_final_candidates.py:315-326 | the predecessor walk ends and spells the path the search found |
| FlowResiduals.AggregateResiduals | scripts/contest/flow_final_candidates.py:267-282 | the table holds every touched address with its exact inflow and outflow |
| FlowResiduals.Conservation | scripts/contest/flow_final_candidates.py:267-282 | inflows and outflows both add up to the value of the edges and residuals to zero |
| FlowResiduals.TotalsIgnoreOrder | scripts/contest/flow_final_candidates.py:267-282 | the totals depend on the multiset of edges only |
| FlowReports.ReceivedIs | scripts/contest/flow_final_candidates.py:267-282 | an account's inflow is the value of the transfers to it |
| FlowReports.NothingLeaves | scripts/contest/flow_final_candidates.py:267-282 | an account's outflow is zero exactly when every transfer from it moves nothing |
| FlowResiduals.SelectCandidates | scripts/contest/flow_final_candidates.py:354-415 | exactly the accounts that keep the amount within tolerance and send nothing are drafts, in address order, and exactly the near misses are excluded, each with the reason its totals give |
| FlowAnalysis.Examine | scripts/contest/flow_final_candidates.py:466-560 | a draft is kept with everything that establishes it, or refused for a reason that holds; never for want of a path |
| FlowAnalysis.RunAnalysis | scripts/contest/flow_final_candidates.py:418-603 | rejects exactly configurations out of range; candidates are borne out by both edge sets, every exclusion is justified, every draft is decided, and the missing-path exclusion is never used |
| FlowReports.CandidateShows | scripts/contest/flow_final_candidates.py:418-543 | a reported account is not the seed, both sets of found edges end there with nearly the amount, and its path is a shortest one within the hop limit, each of whose movements the second set has with the same transaction, parties, amount and asset and no other known locator |
| FlowReports.UnseenStaysOut | scripts/contest/flow_final_candidates.py:468-505 | a draft account whose leading path has a movement that the second set lacks is excluded with exactly the transactions of these movements, and is no candidate |
| FlowReports.AmountDecides | scripts/contest/flow_final_candidates.py:329-351 | a transaction that the second set shows with less: every report excludes the account and names it |
| FlowAnalysis.CutIgnoresOrder | scripts/contest/flow_final_candidates.py:211-264 | whether a search is cut short does not depend on the order of the edges |
| FlowAnalysis.DraftsIgnoreInputOrder | scripts/contest/flow_final_candidates.py:211-415 | if one listing of the edges is searched in full, so is every other, with the same drafts |
| FlowOrder.LeadDecides | scripts/contest/flow_final_candidates.py:466-543 | where a shortest path takes the first found edge at every account, the account is reported exactly when it is a draft, both edge sets agree on it and that path is confirmed |
| FlowOrder.PathFirstDecides | scripts/contest/flow_final_candidates.py:211-543 | putting the edges of a shortest path first in the file makes its confirmation decide every report |
| FlowOrder.KeptForEveryOrderIff | scripts/contest/flow_final_candidates.py:418-543 | where no budget cuts a search, an account is reported for every order of the file if both edge sets agree on it and every shortest path to it is confirmed, and otherwise there is an order for which no report has it |
| FlowOrder.OrderDecides | scripts/contest/flow_final_candidates.py:468-505 | two parallel transfers of which one is confirmed: the account is in every report with that one first in the file, and in none with it second |
| SubmissionModel.TextOrder | src/scan_tool/adapters/sqlite_operations.py:1020-1058 | of two times the later sorts later as text, unless the earlier is a whole second and the later falls within it |
| SubmissionLaws.ListingOrder | src/scan_tool/adapters/sqlite_operations.py:1020-1058 | listings go by the text of the time and then by identifier |
| SubmissionModel.LoadIsUnique | src/scan_tool/adapters/sqlite_operations.py:386-410 | the tables have one document |
| SubmissionModel.ListsAppend | src/scan_tool/adapters/sqlite_operations.py:1020-1058 | appending a record to a listing is the listing of the grown table exactly when it sorts last |
| Submissions.ApplyIsLegal | src/scan_tool/adapters/sqlite_operations.py:412-485 | whatever the document, a commit that succeeds is one legal submission step from the database as it is, and the database then reads as that document |
| SubmissionLaws.RecordedIff | src/scan_tool/application/submission.py:64-180 | exactly when a command is recorded - competition active, candidate and problem ready, not submitted before, identifiers free, clock not behind - and exactly which records it makes and which rows it moves |
| SubmissionLaws.SecondCommitIsRefused | src/scan_tool/adapters/sqlite_operations.py:450-478 | a commit that went through fails its precondition when repeated |
| SubmissionLaws.AppendIff | src/scan_tool/adapters/sqlite_operations.py:378-384 | an event is appended exactly when its identifier is free and what it refers to exists, and nothing else changes |
| Submissions.RecordedFacts | src/scan_tool/application/submission.py:64-132 | a recorded document comes from an active competition, a ready candidate and a ready problem, with fresh records |
| Submissions.RecordedCommitsIff | src/scan_tool/application/submission.py:64-180 | a recorded document commits exactly when the database is the loaded one up to the three overwritten stamps and the new records sort last |
| SubmissionWitness.UnchangedDatabase | src/scan_tool/adapters/sqlite_operations.py:450-485 | on the database it was loaded from, a recorded document commits if its records sort last and otherwise fails the read-back |
| SubmissionWitness.ClockBehindIsRefused | src/scan_tool/adapters/sqlite_operations.py:480-485 | a recorded document refused by an unchanged database that holds a later event |
| SubmissionWitness.EarlierEventRefuses | src/scan_tool/adapters/sqlite_operations.py:480-485 | one refused by an unchanged database whose only event is half a second earlier, on the whole second |
| SubmissionRuns.RunKeeps | src/scan_tool/adapters/sqlite_operations.py:378-485 | over any run of commits and audit events nothing recorded is lost or altered, a candidate is submitted at most once, and rejected operations change nothing |
| SubmissionRuns.CommitsAfterRunIff | src/scan_tool/adapters/sqlite_operations.py:412-485 | after others have worked, a recorded document commits exactly when none of them changed anything and its records sort last |
| SubmissionRuns.Repository.LoadDocument | src/scan_tool/adapters/sqlite_operations.py:386-410 | every row once, in order |
| SubmissionRuns.Repository.AppendEvent | src/scan_tool/adapters/sqlite_operations.py:378-384 | one event more, or nothing on a repeated identifier or a missing reference |
| SubmissionRuns.Repository.UpdateRows | src/scan_tool/adapters/sqlite_operations.py:451-478 | three rows are changed exactly when the candidate and problem are ready and the competition is active |
| SubmissionRuns.Repository.InsertRecords | src/scan_tool/adapters/sqlite_operations.py:480-481 | both records are inserted exactly when keys and references allow it |
| SubmissionRuns.Repository.ApplySubmission | src/scan_tool/adapters/sqlite_operations.py:412-485 | equals the commit function, and every failure restores all tables |
| SourceAttempts.DelayInBounds | src/scan_tool/application/source_orchestration.py:227-251 | every delay lies between zero and the maximum, for hints and for jittered backoff |
| SourceAttempts.LadderHasRungs | src/scan_tool/application/source_orchestration.py:170-225 | attempts 1..k with k at most the maximum; only the last lacks a wait; all but the last are retryable failures |
| SourceAttempts.ResponseIsFirstAnswer | src/scan_tool/application/source_orchestration.py:75-135 | of the usable sources, a response is the first's that answered, all before it failed and are named; none exactly when policy forbids or none answered |
| SourceLaws.DelayMeans | src/scan_tool/application/source_orchestration.py:227-251 | a hint is followed up to the maximum, a past one at once; otherwise the base delay is doubled per attempt, stretched by the draw's share of the jitter, and capped |
| SourceLaws.LadderMakesCalls | src/scan_tool/application/source_orchestration.py:170-225 | each call to a source is recorded with its answer; all but the last failed by timeout, rate limit or a transient fault; the last answered, failed for good, or was the last allowed |
| SourceLaws.RunAsks | src/scan_tool/application/source_orchestration.py:75-135 | where the rules allow, exactly the known and permitted sources of the policy's order are asked, in order, only its first without fallback, until one answers; response, fallbacks, attempts and error code follow |
| SourceLaws.GatedAsksNobody | src/scan_tool/application/source_orchestration.py:137-168 | restricted rules, then offline mode, then unconfirmed rules end an execution with their own code and no attempt |
| SourceLaws.WithoutFallback | src/scan_tool/application/source_orchestration.py:84-86 | without fallback every attempt and any response is of the first source of the policy's order |
| SourceLaws.ResponderInOrder | src/scan_tool/application/source_orchestration.py:93-121 | the responder stands in the policy's order, known and permitted, and every known and permitted source before it was asked, failed and is named |
| SourceLaws.GaveUpAskedAll | src/scan_tool/application/source_orchestration.py:93-135 | an execution that gives up under an open gate has asked every known and permitted source |
| SourceAttempts.Orchestrator.ExecuteSource | src/scan_tool/application/source_orchestration.py:170-225 | the retry loop returns exactly the attempts and last answer of the ladder |
| SourceAttempts.Orchestrator.Execute | src/scan_tool/application/source_orchestration.py:75-168 | the fallback loop equals the specified execution, policy gates first |
| AttemptLedger.SaveSucceedsIff | src/scan_tool/adapters/sqlite_storage.py:462-544 | an execution's attempts are stored exactly when its analysis exists and the tried sources have distinct providers |
| AttemptLedger.SavedSlots | src/scan_tool/adapters/sqlite_storage.py:483-531 | storing adds, per source, as many numbers as attempts right above the provider's highest, and loses or changes nothing |
| CacheLaws.SavedRow | src/scan_tool/adapters/sqlite_storage.py:483-531 | each call of each source asked is stored as it happened under the next number of its provider |
| AttemptLedger.SaveKeepsGapFree | src/scan_tool/adapters/sqlite_storage.py:483-544 | the ledger stays gap-free |
| AttemptLedger.StoredNumbers | src/scan_tool/adapters/sqlite_storage.py:483-498 | in a gap-free ledger the stored numbers of an analysis, request and provider are exactly 1..n |
| SourceAnswers.AlwaysStoredIff | src/scan_tool/application/source_orchestration.py:75-135 | the attempts are stored whatever the sources answer exactly when the policy lets none be asked, none is usable, or the analysis is known and the usable sources have distinct providers |
| SourceAnswers.SharedProviderIsRefused | src/scan_tool/adapters/sqlite_storage.py:533-544 | two failing sources of one provider whose attempts are refused |
| SourceCache.AfterKeeps | src/scan_tool/application/storage_orchestration.py:40-164 | over any interleaving the ledger is gap-free and no entry, artifact or attempt is lost or changed |
| SourceCache.ResponsesAgree | src/scan_tool/application/storage_orchestration.py:40-164 | over any interleaving of lookups and completions, all responses for one chain and fixed-block request, hit or miss, carry one source, provider and body, under changing policies and damaged files |
| SourceCache.HitsAskNobody | src/scan_tool/application/storage_orchestration.py:49-108 | a hit happens exactly for a permitted entry with an intact file, asks no source and stores nothing; a missing artifact record cannot occur |
| CacheLaws.LookUpMeans | src/scan_tool/application/storage_orchestration.py:49-108 | a hit exactly for an entry of a permitted source whose file holds its bytes, with the entry's source, provider, bytes and fallbacks; a permitted entry that cannot be read raises |
| CacheLaws.AnswerStores | src/scan_tool/application/storage_orchestration.py:58-164 | an answer after a miss is the sources', its attempts numbered on; bytes, ledger and, for a fixed block without an entry, the entry are stored, and nothing else |
| CacheLaws.FailureStores | src/scan_tool/application/storage_orchestration.py:58-164 | an execution that does not answer adds no entry; which failure it reports and what is stored follow from the sources, the file, the ledger and the entry |
| CacheLaws.StoredIsReadBack | src/scan_tool/application/storage_orchestration.py:40-164 | a fixed block's first answer is read back by every later permitted lookup, whatever happened in between, while its file holds the bytes |
| SourceCache.ExcludedSourceBlocks | src/scan_tool/adapters/sqlite_storage.py:610-655 | with an entry from an excluded source no answer is possible |
| SourceAnswers.AnswersIff | src/scan_tool/application/storage_orchestration.py:49-164 | exactly when an execution answers: on a hit an intact file; otherwise a source that answers, an undamaged file, storable attempts, and for a fixed block no entry |
| SourceAnswers.SomeWorldAnswersIff | src/scan_tool/application/storage_orchestration.py:49-164 | whether any answer of the sources can lead to a response, from cache, policy, usable sources and known analyses |
| SourceAnswers.SecondSourceConflicts | src/scan_tool/adapters/sqlite_storage.py:610-621 | a permitted second source answers with the same bytes and the execution raises a conflict |
| SourceCache.CachedExecutor.ReadCached | src/scan_tool/application/storage_orchestration.py:49-108 | a permitted entry is read back and verified, or the lookup misses |
| SourceCache.CachedExecutor.CompleteMiss | src/scan_tool/application/storage_orchestration.py:58-164 | store and answer after a miss, whatever was stored since the lookup |
| SourceCache.CachedExecutor.SaveAttempts | src/scan_tool/adapters/sqlite_storage.py:462-544 | equals the renumbering and the all-or-nothing insert |
| SourceCache.CachedExecutor.WriteArtifact | src/scan_tool/adapters/artifacts.py:32-91 | writes once; an existing file is verified instead |
| SourceCache.CachedExecutor.PutCache | src/scan_tool/adapters/sqlite_storage.py:561-621 | the first entry stays, and another provenance is refused |
| SourceCache.CachedExecutor.Execute | src/scan_tool/application/storage_orchestration.py:40-164 | store and answer equal the specified execution, failures at each stage included |
| CandidateModel.IndexMeaning | src/scan_tool/application/candidate_verifier.py:759-773 | the lookup exists exactly when no identifier repeats, and then holds every record under its own |
| CandidateModel.AnalysisMaps | src/scan_tool/application/candidate_verifier.py:759-773 | the loops fill exactly those lookups, across all documents |
| CandidateModel.NamedIff | src/scan_tool/application/candidate_verifier.py:850-872 | a named value is found exactly when some field at some depth matches |
| CandidateRecords.NeedsIff | src/scan_tool/application/candidate_verifier.py:812-848 | five checks are always needed, the others exactly when a selected value shows an address, cited evidence a transaction, a key ends in `_raw`, or is `decimals` |
| CandidateVerifier.RunVerifier | src/scan_tool/application/candidate_verifier.py:226-301 | outcome and number of adapter calls of the replay loop, the first failure ending it |
| CandidateVerifier.ReplayAll | src/scan_tool/application/candidate_verifier.py:238-265 | the replays one by one, ended by the first that fails or is invalid |
| CandidateLaws.ReplaysMean | src/scan_tool/application/candidate_verifier.py:238-265 | every run is replayed by one call each, or the first whose body is not the approved one or whose answer is missing, reused, invalid or another analysis's ends it |
| CandidateVerifier.PassIffReproduced | src/scan_tool/application/candidate_verifier.py:657-750 | passes exactly when nothing is missing and every check holds, and exactly when the replay reproduced results, evidence, chains and answer |
| CandidateLaws.VerifyAsks | src/scan_tool/application/candidate_verifier.py:472-506 | exactly when the policy rejects a verification, in the fields of the records |
| CandidateRecords.VerifyOutcome | src/scan_tool/application/candidate_verifier.py:226-301 | then exactly when the scope is rejected and when no record can be made |
| CandidateRecords.VerificationSays | src/scan_tool/application/candidate_verifier.py:657-750 | what the record says: the checks needed, each with whether it holds against the replayed documents, the evidence not found again, the conflicts, the independent jobs, and the status that follows |
| CandidatePromotion.BuiltEvidence | src/scan_tool/application/candidate_verifier.py:787-798 | a built candidate cites exactly the evidence of its results |
| CandidateLaws.BuildAsks | src/scan_tool/application/candidate_verifier.py:453-469 | exactly when the policy rejects a build, in the fields of the records |
| CandidateLaws.BuiltIff | src/scan_tool/application/candidate_verifier.py:138-178 | a candidate is then built exactly when the runs hold every record once, the selection is known and without repeats, it cites some evidence and all of it is known, and no uncertainty repeats |
| CandidateLaws.BuiltFields | src/scan_tool/application/candidate_verifier.py:150-176 | its fields: the selected results as the answer, their evidence, each once, a draft of the problem and its author |
| CandidateLaws.DedupKeepsOrder | src/scan_tool/application/candidate_verifier.py:787-798 | evidence is cited in the order of its first mention |
| CandidatePromotion.ChainIsReadyIff | src/scan_tool/application/candidate_verifier.py:138-750 | a built and verified candidate becomes submission-ready exactly when the replay agreed, all runs are complete, nothing is uncertain and every selected result is a confirmed fact |
| CandidateLaws.PromotionAsks | src/scan_tool/application/candidate_verifier.py:509-551 | exactly when the policy rejects a promotion, in the fields of the records |
| CandidateRecords.PromotionDecides | src/scan_tool/application/candidate_verifier.py:376-427 | what the gate makes of any other: rejected outside its runs, no record when evidence or uncertainties repeat, ready exactly when it deserves to be, sent to review otherwise, and which fields change |
| CandidateRecords.PartialIsReviewed | src/scan_tool/application/candidate_verifier.py:604-613 | a partial job or a partial analysis sends the candidate to review without a recommendation to submit |
| CandidatePromotion.AnswerAndResultsAgree | src/scan_tool/application/candidate_verifier.py:604-654 | a promoted candidate with the built answer has the built results and values, and one with the built results of unchanged values has the built answer, whatever the verification and the analyses |
| CandidateEdits.RequiredOfFewer | src/scan_tool/application/candidate_verifier.py:812-832 | fewer results and less evidence never need a check that more did not |
| CandidateEdits.PromotedIff | src/scan_tool/application/candidate_verifier.py:376-654 | exactly what is promoted on a recorded verification, for any candidate and any analyses: the policy and scope checks hold, the verification passed, results and evidence are drawn from the verified ones, the runs are of known jobs, no check is needed that was not needed before, and the answer is canonical over the promotion's own analyses, which are complete and say confirmed facts without uncertainty |
| CandidateEdits.PromotedIsReplayedIff | src/scan_tool/application/candidate_verifier.py:376-750 | the promoted answer is that of the replayed results exactly when the promotion's analyses give the selected results the verified kinds and values, and selected results and cited evidence are the replayed records exactly when these analyses hold the verified ones |
| CandidateEdits.EditIsPromotedIff | src/scan_tool/application/candidate_verifier.py:376-654 | over the verified analyses, exactly which edits of a verified candidate are promoted: same candidate, results and evidence drawn from the verified ones, canonical answer for its own results, confirmed facts of complete runs, no uncertainty; the checks need no clause |
| CandidateEdits.PromotedIsBuiltIff | src/scan_tool/application/candidate_verifier.py:138-654 | over the verified analyses, a promoted edit of a built candidate has the built answer exactly when it has the built results, and all the built content exactly when evidence and format are kept and nothing was uncertain |
| CandidateWitness.DroppedResultIsPromoted | src/scan_tool/application/candidate_verifier.py:604-654 | a built and verified candidate that is promoted after a result is dropped and the answer rewritten |
| CandidateWitness.ForgedValueIsPromoted | src/scan_tool/application/candidate_verifier.py:376-654 | a built and verified candidate that is promoted with a changed analysis and a value that no replay gave |
| CandidatePromotion.PromotedDrawsOnVerified | src/scan_tool/application/candidate_verifier.py:376-654 | on a promotion the recorded verification's replay agreed with the verified candidate, and the promoted one names only results and evidence of that candidate; it says nothing of their values |
| TraceEvidence.VisitsAreThePreOrder | src/scan_tool/application/task_012_trace.py:138-157 | the calls visited are exactly the calls of the tree, each once, in order of address |
| TraceEvidence.FlatEvidence | src/scan_tool/application/task_012_trace.py:101-124 | for every tree the flat form gives the evidence of its plain calls, raising exactly when theirs raises |
| TraceEvidence.DialectsAgreeIff | src/scan_tool/application/task_012_trace.py:88-187 | nested and flat form give the same result, evidence or error, exactly when only plain calls are evidence, or the nested form raises because of a plain call |
| TraceEffects.LiveIsAddressed | src/scan_tool/application/task_012_trace.py:138-157 | the flag handed down a walk says exactly whether a call above the address failed |
| TraceEffects.EvidenceByAddress | src/scan_tool/application/task_012_trace.py:138-187 | the evidence is that of all addresses of successful transfers to the subject; the evidence that took effect, of those with no failed call above |
| TraceEffects.EvidenceTookEffectIff | src/scan_tool/application/task_012_trace.py:138-187 | the two are equal exactly when no address that counts has a failed call above it |
| TraceEffects.RevertedCallersAreReported | src/scan_tool/application/task_012_trace.py:138-187 | a tree in which a reverted transfer is listed |
| TraceEffects.SelfDestructSplitsDialects | src/scan_tool/application/task_012_trace.py:88-187 | a tree whose self-destruct pays the subject and whose dialects differ |
| TraceEvidence.Collector.CollectDebug | src/scan_tool/application/task_012_trace.py:138-157 | the recursive walk appends exactly the evidence of the tree, or raises exactly when a value is no number |
| TraceEvidence.Collector.ScanParity | src/scan_tool/application/task_012_trace.py:101-119 | the scan appends exactly the evidence of the entries, with its two errors |
| TraceEvidence.Decode | src/scan_tool/application/task_012_trace.py:88-135 | the evidence of a result in a dialect, shape errors included |
| TraceAmounts.ReadsWhatIsPrinted | src/scan_tool/application/task_012_trace.py:174-174 | reading a number printed in base sixteen gives the number, in either case, with either prefix or none |
| TraceAmounts.WeiReads | src/scan_tool/application/task_012_trace.py:174-174 | text is refused exactly when no digits remain or a character is none, and what is read has these digits |
| TraceAmounts.NestedLists | src/scan_tool/application/task_012_trace.py:138-187 | a nested result lists exactly the calls that pay the subject without an error, by address, with their fields and the number their value stands for, and is refused exactly when a value that would be listed is no number |
| TraceAmounts.FlatLists | src/scan_tool/application/task_012_trace.py:101-124 | a flat result lists exactly the entries that do, in order, and is refused at the first that is no object or whose value is no number |
| TraceAmounts.PaidIsListed | src/scan_tool/application/task_012_trace.py:138-187 | a call of a tree that sends the subject n wei, more than none and without an error, is listed under its address with n |
| TraceAmounts.PaidEntryIsListed | src/scan_tool/application/task_012_trace.py:101-187 | so is such an entry of a flat result |
| TraceAmounts.Shapes | src/scan_tool/application/task_012_trace.py:88-135 | which bodies a dialect decodes at all |

## Left out

- Command line, rendering, HTTP adapters, live replay scripts and fixture replays pinned to fixed values: no unbounded behaviour.
- Document schemas, the sensitive-data guard, backup, migration and SQL text: taken as preconditions, maps and atomic steps.
- Start and finish times of jobs, attempts, artifacts and candidates in reports: they carry clock readings only.
- The scheduler's refusal of a second concurrent `execute` on one instance (scheduler.py:201-212): one flag.
- Task cancellation inside asyncio beyond the caller, waiting-task and operation steps of the pool.
- FlowGraph.LoadEdges: takes parsed rows; JSON parsing, hexadecimal parsing and address lower-casing are not modelled.
- The report digests of the analysis: sorting edges for a digest can raise on a missing and a present log index in one transaction, which the model does not show.
- FlowSearch.DiscoverRelatedEdges: for edge lists with repeated locators, which loading excludes, only budgets and reachability are stated.
- SubmissionRuns.Repository.LoadDocument: one competition per database, and the parts of a document that a submission never touches are one opaque field.
- Submissions.ApplyIsLegal: the optional note artifact of a submission is not checked against the artifact table.
- TraceEvidence.Decode: hexadecimal text with signs, spaces or underscores, which Python also reads, is treated as no number; the flat form of a nested trace is taken from the Parity trace format, where creations and self-destructs carry no `to`.
- SourceCache.CachedExecutor.Execute: expiring and negative cache entries, which this path never writes, and response metadata such as media type and status code.
- SourceAttempts.Orchestrator.Execute: Retry-After text is a parsed optional number of seconds (section 10.2.3 of RFC 9110); an adapter error that is not a source failure propagates unmodelled.
- CandidateVerifier.RunVerifier: confidence, events and error records are not modelled; the parts of the request and result contract beyond the analysis identity are one boolean of the reply.
- Checkpoints, exports, Bitcoin verification, negative-oracle tables and rule documents: decision tables or simple stores that would only add easy members.
