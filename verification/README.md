# Course discovery, verified

A Dafny 4.11 model of the protocols and algorithms of the course discovery service, with proofs that hold for every
input, every run and every interleaving. `dafny verify dfyconfig.toml` checks all of it.

The modules follow the service's components:

- **Privacy flows** (`Flow`, `FlowCheck`, `FlowRuns`). The taint analysis of node declarations: the chaotic iteration
  with its back-pointers, the traces, and the checker. `FlowRuns` gives the declarations a meaning of their own, runs
  in which nodes execute in any order and values carry their provenance, and shows that the static check is silent
  exactly when every run is safe.
- **Outbox** (`Outbox`, `OutboxWorker`, `OutboxRuns`, `OutboxTimely`, `OutboxRetry`, `Gateway`). The leased queue as a
  store class, one worker's rounds, the step relation of any number of workers that crash, overrun their leases and
  settle late, when a record may be claimed again, and what holds in addition when no claim takes a key that some worker
  still holds, as with timely settles or with a single worker.
- **Chat inbox** (`Chat`, `ChatFields`, `ChatRuns`, `ChatTakeover`). Idempotent ingest, per-user leases, batches that
  survive crashes and are taken over, owner-checked completion and attempt counting.
- **Review and research graph** (`Planning`, `ReviewGraph`, `ReviewAnswers`, `ReviewPlans`, `ReviewBounds`,
  `ReviewGaps`, `ReviewLedger`, `ReviewEffects`, `ReviewStaging`, `ReviewOutbox`, `ReviewRuns`). The outer graph and the
  research graph as one step machine, what each answer of a reviewer leads to, its potential, the gap plans of a pass,
  the query ledger, and the effects on the outbox and the course tables when any node may be cut short after any of its
  effects and run again.
- **Catalogue** (`Courses`, `Catalogue`, `CatalogueRows`). Staging, promotion, upsert and discard of courses, and what
  each column holds afterwards.
- **Deduplication and validation** (`Dedup`, `Validation`, `ValidationFields`, `ReviewValidation`). The greedy loop with
  three tests against the simple filter, verdicts that are looked up by URL, what they say about a course, and what both
  hand to the graph.
- **Profile patches** (`Memory`, `Profile`). Merging, applying, and folding a session's proposals.
- **Tagging** (`Tagging`, `TaggingRuns`, `Keywords`). Scheduling under content keys, the hash-guarded write, and the
  keyword tagger.
- `Text` holds string order, sorting, joining and decimal rendering.

What the proofs found about the code:

- A settle does not check who holds the lease. A late transient failure puts a delivered effect back into the queue
  (`OutboxTimely.LateSettleUndoesDelivery`). A delivery survives a step exactly if the step neither prunes it nor settles
  a record of its key to something else (`OutboxTimely.DeliveredStays`); a worker that settles only while the row is
  still the one it claimed never undoes a delivery (`OutboxTimely.GuardKeepsDelivery`).
- A pass makes at most max(1, max_research_iterations) gap plans (`ReviewGaps.GapPlansPerHonestPass`), unless a research
  run that took its input answers with another pass number; then it can make twice as many
  (`ReviewGaps.GapPlansPerPass`, `ReviewGaps.PassCapIsReached`).
- Without a model, feedback that begins with "reset" augments instead if "more" occurs anywhere in it
  (`ReviewGraph.ResetUnlessMore`).
- The fingerprint of deduplication joins title and host with two colons. If a host contains a colon, as an IPv6 address
  does, two courses with different titles can collide and the second is lost (`Dedup.ColonInHostLosesCourse`), for
  instance "a" at http://[::1]/ and "a::" at http://1/ (`Dedup.LoopbackLosesCourse`); the loop equals the simple filter
  exactly when no course collides in its fingerprint alone (`Dedup.RefinesExactly`).
- Folding proposals loses an item that one proposal removes and a later one adds back, and nothing else
  (`Profile.FoldOfList`). Notes within the limit fold exactly if no new note comes twice (`Profile.FoldOfNotes`); a note
  proposed twice is stored twice when folded (`Profile.RepeatedNoteStaysTwice`). At the limit a known note that is pushed
  out comes back one by one but not in the fold (`Profile.LimitForgets`).
- The content hash joins title and description with a newline. Up-to-date rows have the topics of their own texts in
  every run exactly if the topics depend on no more than the hash (`TaggingRuns.OwnTopicsExactly`), and those of the
  keyword tagger do not: a two-word topic broken over two lines of a description stays missing when the first line moves
  to the title (`Keywords.BrokenTopicStaysMissing`).
- A selected row gets a pending effect exactly if its text is not on record as settled
  (`TaggingRuns.SelectedIsPending`). So a text that is edited away and back is eligible but keeps the topics of the other
  text (`TaggingRuns.TextComesBack`) until it is edited again or its old effect is requeued or pruned
  (`TaggingRuns.ReturnedTextWaits`).
- An acceptance in chat neither promotes nor drops the staged courses of the run: they stay staged exactly then, if there
  are any (`ReviewRuns.CatalogueAfterRun`), and they are the web courses of the rounds shown
  (`ReviewRuns.AcceptanceStagesShown`). A run that gives up with an error leaves them staged too
  (`ReviewRuns.StagedAtRest`).

Assumptions. A database transaction is one atomic step. Hashes (SHA-256, MD5, the URL hash of a tagging key) are
injective: they are free constructors. A graph node is atomic except for its effects, which may be cut short at any
point and repeated. Times are reals. Human answers, models, searches, handlers, screens, taggers, clocks and crashes are
arbitrary. Telegram update ids are natural numbers. Feedback that is not blank does not redact to nothing. No outbox
row of a run is pruned, no staged course of a run is pruned and nobody else writes the catalogue while the run lasts.

## Model

| member | source | states |
|---|---|---|
| Flow.Propagate | course_discovery/privacy/flow.py:95-115 | terminates for every order of the declarations, and a label is on a channel exactly when an unredacted, undeclassified read/write path from a seed carries it; the back-pointers are well founded |
| Flow.Visit | course_discovery/privacy/flow.py:103-114 | one node's turn: afterwards the node's inputs, as they were before the turn, are on all its written channels; progress is a strictly smaller set of missing labels |
| Flow.Offer | course_discovery/privacy/flow.py:107-114 | the loop over the written channels serves each of them while `labels` grows inside the loop |
| Flow.Give | course_discovery/privacy/flow.py:108-114 | one channel gets exactly the incoming labels it lacks; back-pointers written before stay as they are |
| Flow.Record | course_discovery/privacy/flow.py:111-112 | every new label gets a back-pointer to a read channel that carries it at that moment |
| Flow.LeastClosedMap | course_discovery/privacy/flow.py:95-115 | the result is contained in every label map that contains the seeds and is closed under all nodes |
| Flow.OrderIndependent | course_discovery/privacy/flow.py:103-103 | two iteration orders of the same declarations give the same labels |
| Flow.Trace | course_discovery/privacy/flow.py:118-129 | the walk ends, at a seed of that label, and every hop printed is a real flow that neither redacts nor declassifies it |
| FlowCheck.CheckCoverage | course_discovery/privacy/flow.py:142-143 | reports the graph nodes without a declaration, each once and in sorted order |
| FlowCheck.CheckChannels | course_discovery/privacy/flow.py:145-148 | reports the declarations that name an unknown channel, each once and in their order, with the sorted names |
| FlowCheck.UnknownExactly | course_discovery/privacy/flow.py:145-148 | a declaration is reported exactly if a channel that it reads, writes, redacts or declassifies is unknown, with all of these |
| FlowCheck.CheckSink | course_discovery/privacy/flow.py:154-174 | reports the labels a sink must not accept, sorted, and then whether erasure misses the store |
| FlowCheck.CheckFlows | course_discovery/privacy/flow.py:132-175 | the list of reports, in its order, is that of the least labelling; its reports are exactly what paths in the declarations warrant, and each printed trace is a genuine path |
| FlowRuns.RunPredicted | course_discovery/privacy/flow.py:95-115 | in every run, of any length and schedule, with writes that overwrite or append, no value carries a label that was not predicted |
| FlowRuns.PathRun | course_discovery/privacy/flow.py:95-115 | every predicted label is put on its channel by some run |
| FlowRuns.CleanIsSafe | course_discovery/privacy/flow.py:152-174 | if no sink rule is violated, no run delivers a rejected label to a sink or a subject label to a store that erasure misses |
| FlowRuns.WarrantedIsUnsafe | course_discovery/privacy/flow.py:152-174 | whatever the sink rules report really happens in some run |
| FlowRuns.CheckIsExact | course_discovery/privacy/flow.py:152-174 | the sink rules are silent if and only if every run is safe |
| FlowRuns.SilentMeansSafe | course_discovery/privacy/flow.py:132-175 | the same for the result of the checker: no sink or erasure violation in it if and only if every run is safe |
| Outbox.InMemoryOutboxStore.Enqueue | course_discovery/effects/memory_store.py:15-28 | inserts under a new key, keeps the existing record otherwise, and returns the record that is there |
| Outbox.InMemoryOutboxStore.Claim | course_discovery/effects/memory_store.py:30-58 | leases the first due records in the stable order of `next_attempt_at`, each with a fresh attempt, and no others; `ClaimAgreesWithSql` says in columns which these are |
| Outbox.InMemoryOutboxStore.Update | course_discovery/effects/memory_store.py:126-128 | changes one record, whoever holds its lease, and no other; a missing key is an error |
| Outbox.InMemoryOutboxStore.MarkDelivered | course_discovery/effects/memory_store.py:60-67 | the new state of the record, its lease and error cleared |
| Outbox.InMemoryOutboxStore.Release | course_discovery/effects/memory_store.py:69-76 | queues the record again for the given time and clears its lease |
| Outbox.InMemoryOutboxStore.MarkDead | course_discovery/effects/memory_store.py:78-79 | the record is dead, its lease cleared, its attempts kept |
| Outbox.InMemoryOutboxStore.Requeue | course_discovery/effects/memory_store.py:90-98 | only a dead record is queued again, with no attempts |
| Outbox.InMemoryOutboxStore.PruneDelivered | course_discovery/effects/memory_store.py:100-111 | removes exactly the records delivered before the given time and counts them; `OutboxRetry.PrunesExactly` says in columns which these are |
| Outbox.ClaimAgreesWithSql | course_discovery/effects/postgres_store.py:46-66 | a row is taken exactly if it is queued with its time come or in progress with its lease run out, and fewer than LIMIT such rows come before it by next_attempt_at and row number |
| OutboxWorker.Worker.Process | course_discovery/effects/worker.py:77-143 | which of the six outcomes a record gets, by its attempts, its kind and what the handler does; no outcome changes the attempts; `OutboxRetry.OutcomesAre` says in columns what each leaves |
| OutboxWorker.Worker.RunOnce | course_discovery/effects/worker.py:60-69 | one round claims and processes every claimed record; the counts are those of the outcomes |
| OutboxWorker.BackoffBound | course_discovery/effects/worker.py:26-30 | n delays sum to at most base * (2^n - 1) and to at most n * cap |
| OutboxWorker.RoundLowers | course_discovery/effects/worker.py:60-143 | a round lowers the sum of `max_attempts + 1 - min(attempts, max_attempts)` over live records by at least the number of claimed ones |
| OutboxWorker.DrainSettles | course_discovery/effects/worker.py:60-143 | after as many late-enough rounds as that sum, every record is delivered or dead, whatever the handlers do |
| OutboxRuns.AfterValid | course_discovery/effects/memory_store.py:30-128 | every step of every interleaving keeps the store valid, late settles and crashes included |
| OutboxRuns.CallsBounded | course_discovery/effects/worker.py:79-104 | in every interleaving the handler calls for a key number at most max_attempts times its inserts and requeues |
| OutboxTimely.NeverTwoHandlers | course_discovery/effects/memory_store.py:30-58 | as long as no claim takes a key that a task holds, no two workers ever hold the same key |
| OutboxTimely.SettledRowsStay | course_discovery/effects/memory_store.py:60-111 | under the same condition DELIVERED changes only by pruning and DEAD only by requeueing that key |
| OutboxTimely.NoCallAfterDelivery | course_discovery/effects/worker.py:131-139 | under the same condition no handler call for a key follows its delivery |
| OutboxTimely.TotalBackoffBounded | course_discovery/effects/worker.py:26-143 | under the same condition the backoff of a record since its last insert or requeue is at most base * (2^(max_attempts-1) - 1) and at most (max_attempts-1) * cap |
| OutboxTimely.OneWorkerBackoffBounded | course_discovery/effects/worker.py:26-143 | the same for a single worker, however long its handlers take, without any condition on leases |
| OutboxTimely.TimelyIsCareful | course_discovery/effects/memory_store.py:30-58 | settling before the lease runs out is enough for that condition |
| OutboxTimely.SoleWorkerIsCareful | course_discovery/effects/worker.py:60-69 | so is having one worker only |
| OutboxTimely.LateSettleUndoesDelivery | course_discovery/effects/memory_store.py:126-128 | a reachable state in which a late settle puts a delivered record back into the queue |
| OutboxTimely.DeliveredStays | course_discovery/effects/memory_store.py:60-128 | in every valid world a delivered record stays delivered across a step exactly if the step neither prunes it nor settles a record of its key to another state |
| OutboxTimely.GuardKeepsDelivery | course_discovery/effects/worker.py:106-143 | if workers settle only rows that still equal what they claimed, no delivery is undone in any run |
| OutboxRetry.RetryWaits | course_discovery/effects/worker.py:111-128 | after a transient failure at time T with attempt a, in every schedule without a settle of that key, no claim takes it before T + backoff(a) |
| OutboxRetry.LeaseWaits | course_discovery/effects/memory_store.py:30-58 | a leased record is not claimed again before its lease runs out, in every schedule without a settle of that key, crashes included |
| OutboxRetry.ClaimedInTime | course_discovery/effects/postgres_store.py:46-66 | once its time has come it is claimed exactly if fewer than the limit of due records come before it |
| Gateway.OutboxGateway.Submit | course_discovery/effects/gateway.py:38-42 | enqueues and reports the status of the record that is then under the key |
| Gateway.OutboxGateway.StatusOf | course_discovery/effects/gateway.py:44-46 | the status of the key's record, none for an unknown key; `Gateway.StatusMeans` says which status is which |
| Gateway.InlineGateway.Submit | course_discovery/effects/gateway.py:54-61 | enqueues, runs one round and reports the status of the record after it |
| Chat.ChatStore.Ingest | course_discovery/chat/store.py:40-59 | a new update gets one loose row for the chat's user, a known one changes nothing, a clash of fresh user ids rolls back |
| Chat.ChatStore.Claim | course_discovery/chat/store.py:68-82 | serves the first waiting user without a live lease; returns None exactly if every user with an unfinished message has a lease with `locked_until` not before now |
| Chat.ChatStore.ClaimUser | course_discovery/chat/store.py:84-126 | takes the lease if it is free, then the open batch or else all loose messages; without messages the lease goes again; `ServedExactly` says in columns when a batch is returned |
| Chat.ServedExactly | course_discovery/chat/store.py:84-126 | a batch is returned exactly if the user has an unfinished message and no lease row or one with `locked_until` before now |
| ChatFields.ClaimTakesAllDue | course_discovery/chat/store.py:98-126 | the batch has the user's open messages, or else all loose ones, in the order of their ids, and their texts one per line |
| ChatFields.ClaimMarksDue | course_discovery/chat/store.py:108-126 | just these rows are put in the batch and tried once more, and the lease runs from now |
| ChatFields.OneUserPerChat | course_discovery/chat/store.py:40-59 | two messages of one chat belong to one user |
| Chat.ChatStore.Renew | course_discovery/chat/store.py:128-136 | extends the lease of its owner and of nobody else; `ChatFields.RenewalExtends` says in columns what it changes |
| Chat.ChatStore.Complete | course_discovery/chat/store.py:138-150 | marks the batch done and frees the lease, for the owner of the lease only; `ChatFields.CompletionFrees` says in columns what it changes |
| Chat.LongestWaitingFirst | course_discovery/chat/store.py:70-76 | of two waiting users the one listed first has the older oldest message |
| Chat.ThreadIdInjective | course_discovery/chat/store.py:27-29 | different batches have different thread ids |
| ChatRuns.RunKeeps | course_discovery/chat/store.py:40-150 | in every run: done messages are batched, a batch is named after a member and finishes as a whole, each user has one open batch at most, claimed batches stay what they were, and an owner holds an unfinished batch |
| ChatRuns.ReclaimIsSame | course_discovery/chat/store.py:84-126 | every reclaim of a batch, by any worker after any crash, returns the same user, update ids, text and thread |
| ChatTakeover.ExpiredLeaseIsTakenOver | course_discovery/chat/store.py:84-126 | in every run, once no lease or an expired one is there, any free worker's claim returns the outstanding batch with the same id, ids and text, the next attempt number and a fresh lease |
| ChatTakeover.CrashedWorkerIsReplaced | course_discovery/chat/store.py:84-126 | when a worker crashes and time passes its lease, another worker gets its batch |
| ChatRuns.BatchesAreDisjoint | course_discovery/chat/store.py:84-126 | different batches of any users share no message and no thread |
| ChatRuns.OneOpenBatchPerUser | course_discovery/chat/store.py:98-119 | at most one open batch per user at any time |
| ChatRuns.EnteredOnce | course_discovery/chat/store.py:40-59 | a message in the inbox entered exactly once, whatever the redeliveries |
| ChatRuns.RowFate | course_discovery/chat/store.py:40-150 | one event never loses, rewrites, rebatches or reopens a message, and finishes it exactly when a worker owning the lease settles its batch |
| ChatRuns.RowsPersist | course_discovery/chat/store.py:40-150 | the same over any stretch of a run |
| ChatRuns.DoneOnce | course_discovery/chat/store.py:138-150 | a done message became done exactly once, through a worker owning the user's lease at that moment |
| ChatRuns.LiveLeaseIsSafe | course_discovery/chat/store.py:84-150 | nobody but its owner touches a lease that has not run out |
| ChatRuns.DisownedChangesNothing | course_discovery/chat/worker.py:44-47 | a worker whose lease was taken settles no message and removes no lease |
| ChatRuns.AttemptsCountClaims | course_discovery/chat/store.py:115-125 | the k-th claim of a batch carries attempt number k, and all its messages have been tried equally often |
| ChatRuns.NoticeAfterThree | course_discovery/chat/worker.py:36-42 | a failure notice goes out only for a batch claimed at least three times |
| ChatRuns.ChatWorker.RunOnce | course_discovery/chat/worker.py:27-48 | one turn is claim, run, then complete, leave for a retry, or notify and complete |
| Planning.BuildQueries | course_discovery/research_agent/planning/nodes.py:30-46 | the query list computed step by step is the specified one |
| Planning.GapQueriesAre | course_discovery/research_agent/planning/nodes.py:109-139 | a gap plan has exactly the wanted queries that were not run before, with one for missing evidence |
| Planning.PlannedIsFresh | course_discovery/research_agent/planning/nodes.py:49-70 | a first plan is free of duplicates, of completed queries and of empty queries, and has at most four |
| Planning.GapIsFresh | course_discovery/research_agent/planning/nodes.py:109-139 | the same for a gap plan |
| Planning.BlankTopic | course_discovery/research_agent/planning/nodes.py:30-42 | a request with no topic and no wishes searches for the words "online course course" |
| Planning.BaseSays | course_discovery/research_agent/planning/nodes.py:30-41 | the query is the stripped topic or its stand-in, course, and a word for each wish |
| Planning.WishesAreSaid | course_discovery/research_agent/planning/nodes.py:30-46 | for each wish every query has its word, whatever is added behind |
| Planning.PlannedInOrder | course_discovery/research_agent/planning/nodes.py:41-70 | a first plan has the plain query, the official page and the recent one, in this order, less what was run |
| Planning.GapSays | course_discovery/research_agent/planning/nodes.py:109-139 | which queries a gap plan has, in words |
| ReviewGraph.ResetUnlessMore | course_discovery/review/router.py:113-129 | without a model, feedback that begins with reset resets the run exactly if it does not contain "more", and augments otherwise |
| ReviewAnswers.ModelDecides | course_discovery/review/router.py:131-183 | with rounds left and a text that neither is blank nor approves, the model's answer is the decision, for every answer; a failing model discards |
| ReviewAnswers.WordsDecide | course_discovery/review/router.py:113-129 | without a model, for every such text: exactly when the decision is REWRITE, AUGMENT, RESET or DISCARD |
| ReviewAnswers.Gates | course_discovery/review/router.py:71-112 | without rounds left or without a text the run is discarded; the four approving texts publish |
| ReviewAnswers.RewriteKeepsLedger | course_discovery/workflows/research_graph.py:37-51 | a rewrite answer, by model or by word, starts the next pass at the profile with the queries and the iteration so far |
| ReviewAnswers.AugmentKeepsLedger | course_discovery/workflows/research_graph.py:37-51 | an augment answer starts it at the gap search, likewise |
| ReviewAnswers.ResetEmptiesLedger | course_discovery/workflows/research_graph.py:37-45 | a reset answer parses again and starts it with an empty ledger |
| ReviewPlans.PlansAreRun | course_discovery/workflows/research_graph.py:54-110 | a plan with anything in it is searched next, and its queries are then behind those completed |
| ReviewPlans.GapPlanIs | course_discovery/research_agent/planning/nodes.py:109-139 | the gap plan that the graph makes from its state, query by query, on the next iteration |
| ReviewPlans.FirstPlanIs | course_discovery/research_agent/planning/nodes.py:49-70 | the first plan likewise, with nothing to search if the cache has three courses |
| ReviewGraph.RunAnchored | course_discovery/workflows/outer_graph.py:40-72 | in every run: loop-backs are the recorded rounds, passes are numbered by them where it matters, a pass has at most one stale retry, and nothing asks for a discard before the final nodes |
| ReviewGraph.PausedInStep | course_discovery/workflows/outer_graph.py:54-59 | at every pause for human review the pass equals the recorded rounds and the discard reason is empty |
| ReviewGraph.LoopsAreBounded | course_discovery/workflows/outer_graph.py:40-136 | at most max_review_rounds loop-backs, at most two research runs per pass |
| ReviewGraph.LoopBackKeepsLedger | course_discovery/workflows/research_graph.py:37-51 | REWRITE and AUGMENT start the next pass with the completed queries and iteration so far; AUGMENT at the gap search |
| ReviewGraph.ResetClearsLedger | course_discovery/workflows/research_graph.py:37-45 | RESET parses again and starts the next pass with an empty ledger and iteration zero |
| ReviewGraph.SavedInTime | course_discovery/research_agent/validation/nodes.py:133-151 | research is saved only with enough valid courses or with the replan budget used up |
| ReviewBounds.StepLowers | course_discovery/workflows/outer_graph.py:75-136 | every step lowers a potential made of rounds left, stale retry left, replan budget left and place |
| ReviewBounds.RunsAreBounded | course_discovery/workflows/outer_graph.py:75-136 | every run, of any choices, has at most (max_review_rounds + 1) times the cost of a pass many steps |
| ReviewBounds.GapPlansAreBounded | course_discovery/research_agent/validation/nodes.py:133-151 | one research run makes at most max(1, max_research_iterations) gap plans, also when AUGMENT enters with a carried counter |
| ReviewGaps.GapPlansPerPass | course_discovery/workflows/outer_graph.py:40-59 | a whole pass, with stale answers, retries and carried counters, makes at most max(1, max_research_iterations) gap plans, or (1 + 1 retry) times as many if a whole research run was answered with another pass number |
| ReviewGaps.GapPlansPerHonestPass | course_discovery/workflows/outer_graph.py:40-59 | the single bound for every pass if research runs that took their input answer with its pass number |
| ReviewGaps.PassCapIsReached | course_discovery/workflows/outer_graph.py:44-59 | a reachable state with the doubled number of gap plans in one pass |
| ReviewLedger.LedgerHolds | course_discovery/research_agent/planning/nodes.py:49-139 | over all runs: no query is run twice, dispatched plans are fresh, and what was searched is what is recorded as completed since the last reset |
| ReviewLedger.CountAfterValidation | course_discovery/research_agent/validation/nodes.py:104-151 | after every validation of every run tavily_calls is the number of distinct queries since the last reset |
| ReviewLedger.OnlyResetForgets | course_discovery/workflows/research_graph.py:37-45 | completed queries and the iteration counter are kept by every step except a pass that starts without a routing decision |
| ReviewEffects.KeysAreDistinct | course_discovery/review/nodes.py:23-42 | no two of the digest, prompt and publish effects of any runs and passes share a key |
| ReviewOutbox.SubmitMirrors | course_discovery/effects/memory_store.py:15-28 | submitting under the rendered key to the leased queue does what the model's map of keys says: the first submission wins and other keys keep their effects |
| ReviewOutbox.StepMirrors | course_discovery/review/nodes.py:18-43 | after any step of a run, complete or cut short, the queue holds exactly the effects of the map under their rendered keys |
| ReviewOutbox.WorkersKeepMirror | course_discovery/effects/memory_store.py:30-98 | whatever workers do to the queue, late or crashing, that stays so |
| ReviewEffects.EffectsOnOutbox | course_discovery/review/nodes.py:18-43 | what a node's submissions, or any first few of them, leave in the outbox |
| ReviewEffects.EffectsOnDb | course_discovery/research_agent/cache/nodes.py:50-82 | what a node's table writes, or any first few of them, leave in the course tables |
| ReviewRuns.CommitsAreBounded | course_discovery/workflows/outer_graph.py:75-136 | however often nodes are cut short and repeated, a run completes no more nodes than its bound |
| ReviewRuns.OneDigestPerRound | course_discovery/review/nodes.py:18-43 | at every pause of a chat run, after any crashes and replays, there is exactly one digest effect per round shown, for the courses of that round |
| ReviewRuns.EffectsFitTheMode | course_discovery/review/nodes.py:19-20 | outside chat a run sends no digest and no prompt, in chat it never publishes |
| ReviewRuns.PublishMeansApproved | course_discovery/review/router.py:186-210 | the one publish effect is there exactly after an approval and lists the courses of the last round shown |
| ReviewRuns.CatalogueIsSafe | course_discovery/workflows/outer_graph.py:68-72 | a run changes the catalogue only outside chat and after an approving decision |
| ReviewRuns.CatalogueAfterRun | course_discovery/research_agent/cache/nodes.py:64-82 | after an approved run the catalogue has exactly the web courses of the last round shown on top, after any other run it is unchanged; courses of the run are still staged exactly if it was accepted in chat and had saved any |
| ReviewRuns.ApprovedCoursesAreStored | course_discovery/research_agent/cache/repository.py:152-325 | column by column: after an approved run each web course of the last round shown stands in its row, as valid |
| ReviewRuns.AcceptanceInChat | course_discovery/workflows/outer_graph.py:117-136 | an acceptance in chat leaves exactly the saved courses staged, among them all web courses shown, and those of the last round as shown and valid |
| ReviewRuns.AcceptanceStagesShown | course_discovery/research_agent/cache/nodes.py:50-61 | if no research run answers with another pass number, exactly the web courses of the rounds shown stay staged |
| ReviewRuns.StagedAtRest | course_discovery/research_agent/cache/nodes.py:50-82 | until a run is over, and after an error, exactly what it saved is staged |
| Catalogue.Repository.UpsertCourses | course_discovery/research_agent/cache/repository.py:152-255 | rows first and embeddings afterwards equal upserting course by course; `CatalogueRows.UpsertedHolds` says what the columns hold |
| Catalogue.Repository.StageCourses | course_discovery/research_agent/cache/repository.py:258-296 | the staging area after staging, earlier rows of the run overwritten by URL |
| Catalogue.Repository.PromoteStagedCourses | course_discovery/research_agent/cache/repository.py:299-325 | upserts the staged and approved courses, then drops all staged courses of the run, and counts the promoted ones |
| Catalogue.Repository.DiscardStagedCourses | course_discovery/research_agent/cache/repository.py:328-342 | drops the run's staged courses and no others |
| Catalogue.StagedRow | course_discovery/research_agent/cache/repository.py:258-296 | courses of distinct URLs are staged as given, everything else stays |
| Catalogue.UpsertedOne | course_discovery/research_agent/cache/repository.py:152-255 | each course of distinct URLs is stored in its own row over what was there, whatever the other courses are |
| Catalogue.TwoLoopsAreOne | course_discovery/research_agent/cache/repository.py:164-244 | writing all rows and then all embeddings is upserting course by course |
| Catalogue.PromotionByRow | course_discovery/research_agent/cache/repository.py:299-325 | promotion row by row: staged and approved courses are stored with their own verdicts, other rows stay; `CatalogueRows.PromotedHolds` says it in columns |
| CatalogueRows.UpsertedHolds | course_discovery/research_agent/cache/repository.py:152-255 | column by column: title, description, facts and verdict are the course's (uncertain without a verdict), topics stay, a missing duration is filled, evidence is the last of its source, the embedding is that of the row's own text; no other row changes |
| CatalogueRows.PromotedHolds | course_discovery/research_agent/cache/repository.py:299-325 | the same for every staged and approved course of a promotion |
| CatalogueRows.StagedHolds | course_discovery/research_agent/cache/repository.py:258-296 | each staged course is the course itself, with its verdict if it has one |
| Catalogue.PromotionIdempotent | course_discovery/research_agent/cache/repository.py:299-325 | promoting again what was promoted changes nothing |
| Catalogue.ReplaysConverge | course_discovery/research_agent/cache/repository.py:299-342 | any number of attempts cut short between upsert and delete, or completed without being recorded, give the catalogue of one promotion |
| Catalogue.EvidenceIdempotent | course_discovery/research_agent/cache/repository.py:214-236 | evidence is overwritten by source, so writing it again changes nothing |
| Dedup.RemoveDuplicates | course_discovery/research_agent/cache/dedup.py:34-126 | the loop keeps the specified courses, kept and removed ones add up to the input, and each counter is the number of courses dropped by its test |
| Dedup.RefinesSimpleFilter | course_discovery/research_agent/cache/dedup.py:50-101 | with colon-free hosts the three tests are the simple filter on URL and title; similarity need be neither symmetric nor transitive |
| Dedup.RefinesExactly | course_discovery/research_agent/cache/dedup.py:28-101 | the loop is the simple filter exactly when no course collides in its fingerprint alone |
| Dedup.ColonInHostLosesCourse | course_discovery/research_agent/cache/dedup.py:28-31 | whatever the string tools do otherwise, a course is lost if its title is another one's with two colons behind it and the hosts differ by two colons in front |
| Dedup.LoopbackLosesCourse | course_discovery/research_agent/cache/dedup.py:28-31 | the titles "a" and "a::" at the hosts ::1 and 1 are such courses |
| Dedup.FingerprintFixesTitle | course_discovery/research_agent/cache/dedup.py:28-31 | equal fingerprints with colon-free hosts mean equal titles |
| Dedup.Idempotent | course_discovery/research_agent/cache/dedup.py:34-126 | deduplicating a result changes nothing |
| Dedup.PrefixMonotone | course_discovery/research_agent/cache/dedup.py:50-101 | later courses never displace earlier ones |
| Dedup.DroppedConflict | course_discovery/research_agent/cache/dedup.py:55-97 | a course is dropped exactly when one kept before it matches by URL, fingerprint or title |
| Dedup.UrlsAreDistinct | course_discovery/research_agent/cache/dedup.py:55-66 | the URLs of a result are distinct |
| Dedup.KeptExactly | course_discovery/research_agent/cache/dedup.py:50-101 | each course is kept exactly if no course kept before has its normalised URL, its cleaned title and host, or a similar title |
| Dedup.NoneRepeats | course_discovery/research_agent/cache/dedup.py:50-101 | no two courses kept have the same normalised URL or repeat each other otherwise |
| Validation.ValidateCandidate | course_discovery/research_agent/validation/nodes.py:36-79 | the verdict computed step by step is the specified one; `ValidationFields.ReasonsMean` says it in columns |
| Validation.VerdictMeans | course_discovery/research_agent/validation/nodes.py:36-79 | rejected exactly if some objection holds, valid exactly if none does and no requirement is unmet; the objections are spelled out in `ValidationFields` |
| Validation.VerdictExplains | course_discovery/research_agent/validation/nodes.py:36-79 | reasons and missing evidence are exactly the objections and the unmet requirements |
| Validation.VerdictsAfterDedup | course_discovery/research_agent/validation/nodes.py:82-130 | after deduplication each course is listed by its own verdict although verdicts are looked up by URL, and the counts add up |
| Validation.Partition | course_discovery/research_agent/validation/nodes.py:85-101 | the three lists together are the validated courses, each as often as before |
| Validation.InOrder | course_discovery/research_agent/validation/nodes.py:87-101 | each list keeps the order of the courses |
| Validation.ValidCoursesAreSound | course_discovery/research_agent/validation/nodes.py:36-130 | courses called valid have distinct URLs, nothing against them and no unmet requirement |
| ValidationFields.ListedExactly | course_discovery/research_agent/validation/nodes.py:36-101 | in columns: a deduplicated course is valid exactly if it is new to the user, level, language and rating fit or are unknown, and free and certificate are marked or backed where asked for; rejected exactly if one of the former fails; else uncertain |
| ValidationFields.ReasonsMean | course_discovery/research_agent/validation/nodes.py:42-79 | each reason and each missing item says in columns just what it is called |
| ReviewValidation.ValidationFits | course_discovery/research_agent/validation/nodes.py:82-130 | deduplicated and validated courses always satisfy what the graph asks of the result of validation |
| Validation.LookupNeedsDistinctUrls | course_discovery/research_agent/validation/nodes.py:86-91 | without deduplication, for any two courses of one URL, the first is listed as valid whatever its own verdict if the second is valid |
| Validation.CachedAreNotDisplaced | course_discovery/research_agent/validation/nodes.py:21-33 | what is kept of the cached courses does not depend on what the web search found |
| Memory.MergeUnique | course_discovery/research_agent/memory/repository.py:72-76 | the list extended in place while it is tested for membership is the specified one |
| Memory.MergedNoDup | course_discovery/research_agent/memory/repository.py:72-76 | a list without duplicates stays so |
| Memory.MergedTwice | course_discovery/research_agent/memory/repository.py:72-76 | merging the same patch again changes nothing |
| Memory.SameUpToRemoved | course_discovery/memory_curator/tools.py:122-135 | one by one and folded give the same list, in the same order, up to items that some patch removes |
| Memory.FoldExactly | course_discovery/memory_curator/tools.py:122-135 | they give the same list exactly when no item removed by one patch is brought back by a later one |
| Memory.FoldWithoutConflict | course_discovery/memory_curator/tools.py:122-135 | in particular when no item is both added and removed |
| Memory.FoldLosesRevived | course_discovery/memory_curator/tools.py:122-135 | a removal followed by an addition is lost by folding |
| Profile.ApplyPatch | course_discovery/research_agent/memory/repository.py:79-90 | the profile after a patch: a scalar is the patch's value if it has one and else the old one, every touched list merged, new notes appended within the limit |
| Profile.PatchedList | course_discovery/research_agent/memory/repository.py:72-85 | which items a list has after a patch |
| Profile.PatchedNotes | course_discovery/research_agent/memory/repository.py:86-89 | new notes come behind the old ones and the oldest beyond thirty go |
| Profile.MergeProposals | course_discovery/memory_curator/tools.py:122-135 | the folded patch: later scalars win, additions, removals and notes are joined in order |
| Profile.FoldOfScalars | course_discovery/memory_curator/tools.py:126-126 | scalars come out the same for all proposals |
| Profile.FoldOfList | course_discovery/memory_curator/tools.py:122-135 | each list of a profile comes out the same, order included, exactly when nothing is revived in it |
| Profile.FoldOfNotes | course_discovery/memory_curator/tools.py:130-133 | within the limit, the notes of any number of proposals come out the same folded or one by one, order included, exactly when no new note comes in two of them |
| Profile.FoldOfNewNotes | course_discovery/memory_curator/tools.py:130-133 | proposals with nothing but new notes may be folded however many notes the limit cuts off |
| Profile.LimitForgets | course_discovery/research_agent/memory/repository.py:86-89 | at the limit a known note that is pushed out counts as new again one by one, but not in the fold |
| Profile.LimitHides | course_discovery/research_agent/memory/repository.py:86-89 | a repeated note makes no difference once enough new notes push it out |
| Profile.RepeatedNoteStaysTwice | course_discovery/research_agent/memory/repository.py:86-89 | a note proposed twice is stored twice when folded and once when applied one by one |
| Tagging.TopicsAgree | course_discovery/jobs/tagging_graph.py:26-83 | in every interleaving of edits, schedules and concurrent or repeated handlers, with titles of one line, an up-to-date row has exactly the filtered, deduplicated tags of its own text |
| Tagging.TopicsFitTheHash | course_discovery/jobs/tagging_graph.py:73-83 | with any titles, they are the tags of some text with the same hash |
| TaggingRuns.OwnTopicsExactly | course_discovery/jobs/tagging_graph.py:26-83 | in all runs every up-to-date row has the topics of its own text if and only if texts with equal hash have equal topics |
| TaggingRuns.EditGoesUnnoticed | migrations/013_course_tagging.sql:1-2 | whenever two texts share a hash but not their topics, a run leaves a row up to date with the topics of the other text |
| Keywords.BrokenTopicStaysMissing | course_discovery/jobs/tagging.py:21-31 | such texts of the keyword tagger: a topic of two words on two lines of the description, the first of which moves to the title |
| Keywords.TagsExactly | course_discovery/jobs/tagging.py:21-31 | the tagger's answer: the first five topics of the vocabulary whose words stand in the lower-case text, hyphens read as spaces |
| Keywords.MachineLearningStaysMissing | course_discovery/jobs/tagging.py:21-31 | for instance machine-learning under the title a |
| TaggingRuns.SelectedIsPending | course_discovery/jobs/tagging.py:42-72 | for every table, prefix and limit of every run, a selected row has a pending effect for its text after scheduling exactly if that text is not on record as delivered or dead |
| TaggingRuns.TextComesBack | course_discovery/jobs/tagging.py:38-72 | a run in which a text is tagged, replaced, tagged and restored: the row is eligible, shelved, and has the topics of the other text |
| TaggingRuns.ReturnedTextWaits | course_discovery/jobs/tagging.py:38-72 | a shelved row stays as it is over any run that neither edits it nor requeues or prunes its effect, however often it is scheduled |
| Tagging.HandlerIsFourSteps | course_discovery/jobs/tagging_graph.py:52-70 | the graph run without interruption is one handled effect |
| Tagging.ScheduleSubmits | course_discovery/jobs/tagging.py:42-72 | every selected row gets an effect for its current text, and effects submitted before stay as they are |
| Tagging.SelectionIs | course_discovery/jobs/tagging.py:48-62 | in columns: a row is selected exactly if it was never tagged and has no topics or was tagged for another text, its URL has the prefix, and fewer than the limit of such rows have a smaller id |
| Tagging.SchedulesExactly | course_discovery/jobs/tagging.py:42-72 | what is on record after scheduling: what was, and an effect for each such row |
| Tagging.AllowedInOrder | course_discovery/jobs/tagging_graph.py:43-45 | topics come in the order in which the tagger first names them |
| Tagging.TaggingJob.ScheduleTagging | course_discovery/jobs/tagging.py:42-72 | submits the selected rows in the order of their ids and counts them |
| Tagging.TaggingJob.Handle | course_discovery/jobs/tagging.py:75-89 | handles one effect as specified |

## Left out

- FlowCheck.CheckFlows: the wording of the rules beyond names, labels and traces is not modelled.
- Flow.Propagate: the declared sets are iterated in an arbitrary order, as the original iterates Python sets.
- Gateway.OutboxGateway.Submit: the trace context that is added to a payload is not part of the model.
- Gateway.InlineGateway.Submit: nor is it here.
- Outbox.ClaimAgreesWithSql: row locks held by concurrent claims (`SKIP LOCKED`) and isolation levels are not modelled; the insertion order stands for the row id.
- OutboxWorker.DrainSettles: is about one worker whose rounds come late enough for all due times, not about many workers.
- Chat.ChatStore.Claim: the list of waiting users and the tries are one atomic step, though each try is a transaction of its own.
- Chat.ChatStore.ClaimUser: identities, texts and the clock are parameters; SQL timestamps inside one transaction are one value.
- ChatRuns.ChatWorker.RunOnce: the heartbeat runs as separate events of `ChatRuns`, not inside the turn, and the notice is one submission under the key of the batch.
- ReviewAnswers.WordsDecide: the feedback text is taken as stripped and in lower case.
- ReviewLedger.LedgerHolds: the queries of one plan complete together; a transient search error is an interrupted step.
- ReviewRuns.CatalogueAfterRun: other runs and the tagging job do not write the same catalogue meanwhile.
- Catalogue.Repository.UpsertCourses: timestamps, use counts and the validation confidence are among the details that are overwritten; an embedding is represented by the text it is computed from.
- Dedup.RefinesSimpleFilter: URL parsing, lower-casing and the ratio of titles are parameters, with the assumptions stated as preconditions.
- Planning.BuildQueries: stripping covers ASCII white space only.
- Profile.FoldOfNotes: is stated for notes within the limit; `Profile.FoldOfNewNotes`, `Profile.LimitForgets` and `Profile.LimitHides` say what the limit changes.
- Profile.MergeProposals: notes carry text and scope, not the time they were learned and the run they come from.
- Keywords.BrokenTopicStaysMissing: lower case covers ASCII letters, word characters are letters, digits and the underscore.
- ReviewOutbox.StepMirrors: how a payload is encoded is a parameter; delivered effects are not pruned while the run lasts.
- Tagging.TaggingJob.ScheduleTagging: the URL hash of a key is taken to be injective although it is cut to sixteen digits.
- The listing of dead records and the statistics of the outbox, metrics, tracing and logging.
- Memory curation by a model, profile vectors, redaction and saving of profiles, and the feedback record at the end of a run.
- Search, extraction, ranking, embeddings and cache lookup: their results are arbitrary inputs.
- HTTP, Telegram, the command line, checkpoint storage, encryption, evaluation and data files.
