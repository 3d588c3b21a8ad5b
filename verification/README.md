# pglens, modelled and proved

pglens watches a fleet of PostgreSQL servers. Agents scrape databases on a schedule and push what
they find; a server evaluates alert rules and advisor rules, and notifies people. This project models
the parts of it that keep state, and proves what they promise over every run. It is written in Dafny
4.11; `dafny verify dfyconfig.toml` covers all of it.

Code that changes things in place is modelled by classes, methods and loops, each proved against a
specification on values. What goroutines or processes do together is a system of steps, and the
theorems are about every interleaving of the steps.

| files | what they model |
|---|---|
| `AlertEval`, `AlertRuns`, `AlertEngine` | alert episodes, the rows they are stored in, and the pass of the engine with its notifier |
| `Notifier`, `NotifierClaims` | the notifier's queue, and the claims that several servers share |
| `LeaderLock` | the advisory lock that makes one engine the leader |
| `AdvisorReconcile` | the advisor's pass over one instance and its findings table |
| `RootBlocker`, `RedundantIndexes` | two advisor rules that reason about graphs and orders |
| `Scheduler`, `Breaker` | the agent's check scheduler and its circuit breaker |
| `SqlComments`, `CallScanner` | the lexer that finds the function calls of a SQL text |
| `StatementText` | how the lexer reads a statement as it is written: words, literals, comments, letter case |
| `CallPrinter`, `CallReading`, `HiddenCalls` | expressions as PostgreSQL prints them, and what the lexer finds in them |
| `Selector`, `SelectorRuns`, `ScopedSelectors` | the bounded choice of series to report |
| `ConnPools`, `ConnPoolRuns` | the per-database connection pools |
| `DatabaseSchedule` | which databases a target's checks run for |
| `PushQueue` | the delivery queue to the server |
| `Sorting`, `Texts`, `Basics` | orders, the library sort, texts, options |

## Promises that hold under a condition

The code is modelled as it is. Where something it promises or relies on does not hold in every case,
the exact condition is proved.

- The firing episodes in memory and the firing rows agree after every operation if and only if no
  transition is written with its reply lost (`AlertRuns.SyncedExactly`). After a lost reply the
  episode is put back, and one alert can have two firing rows (`AlertRuns.LostReplyOrphansRow`).
- The acknowledged transitions of an alert alternate, throughout a run and whatever its terms go on
  with, if and only if every new term reloads the memory it replaces: the row of each alert that is read
  last is that of the episode then firing, and there is none where none fires
  (`AlertRuns.TransitionsAlternate`). A firing whose reply is lost is reloaded by the next term and can
  be resolved without ever having been acknowledged (`AlertRuns.LostReplyBreaksAlternation`).
- "A pass closes nothing it saw" (the comment on `Unsampled`) fails for a true sample if and only if the
  write of its transition fails and the episode was due to be closed before
  (`AlertEngine.SeenIsClosed`): the undo puts back the old time. `AlertEngine.PassClosesSeen` is the
  failing family.
- One envelope stalls at most five times if and only if it is taken from the queue at most once
  (`PushQueue.FiveStallsExactly`): a push that is cancelled starts the count anew, and the least limit
  for k takes is 4k + 1 (`PushQueue.StallLimit`).
- A scope's selection is independent of other scopes if and only if none of them is used while it has
  been idle for more than six hours (`ScopedSelectors.IndependentExactly`).
- A pass of the advisor leaves the rows of other instances alone if and only if every report names the
  instance of the pass (`AdvisorReconcile.KeepsToInstanceExactly`). The pass does not look at that; the
  registered rules see to it.
- The scanner finds exactly the calls of an expression if and only if none is hidden in what it reads as
  a type name (`HiddenCalls.ScanExact`). A hidden call follows a cast and a keyword such as `TO` or
  `WITH`, and its name begins with such a word too. The grammar of expressions here is wider than what
  PostgreSQL prints, and no expression that it prints is known to hide a call.

## Model

| member | source | states |
|---|---|---|
| `AlertEval.Evaluator.Restore` | internal/alert/eval.go:61-73 | a stored alert comes back as the episode it was, pending or firing, and no other episode changes |
| `AlertEval.Evaluator.Reset` | internal/alert/eval.go:77-81 | a new term starts from no episodes |
| `AlertEval.Evaluator.Step` | internal/alert/eval.go:83-118 | the episode of the sample's key becomes the one the specification of an episode gives, and the others stay |
| `AlertEval.Evaluator.End` | internal/alert/eval.go:124-145 | an ended episode is gone, and the transition says whether it had fired |
| `AlertEval.Evaluator.Checkpoint` | internal/alert/eval.go:150-163 | what is needed to put the key back as it was |
| `AlertEval.Evaluator.FiringEpisodes` | internal/alert/eval.go:168-178 | exactly the alerts of the firing episodes, each once |
| `AlertEval.Evaluator.Unsampled` | internal/alert/eval.go:185-196 | exactly the episodes of the chosen rules last sampled before the cutoff, each once, in the order of their keys |
| `AlertEval.Evaluator.Forget` | internal/alert/eval.go:212-226 | exactly the pending episodes unseen since the limit are dropped |
| `AlertEval.ComparatorLaws` | internal/alert/eval.go:9-25 | of two opposite comparators exactly one holds, equality holds at the threshold only, and a weak comparator is its strict one or equality |
| `AlertEval.ComparatorsMonotone` | internal/alert/eval.go:9-25 | above stays true as the value grows and below as it shrinks, and neither is true at the threshold |
| `AlertRuns.UndoRestores` | internal/alert/eval.go:150-163 | the undo of a failed write leaves the memory as it was before the step |
| `AlertRuns.SyncedExactly` | internal/alert/engine.go:321-362 | firing episodes and firing rows agree after every operation of a run, over every term, exactly when no transition is written with its reply lost |
| `AlertRuns.LostReplyOrphansRow` | internal/alert/engine.go:543-558 | the failing family: after a lost reply the next firing sample leaves two firing rows of one key |
| `AlertRuns.StepSync` | internal/alert/engine.go:417-444 | one operation keeps the agreement exactly when it loses no transition |
| `AlertRuns.NewTermSync` | internal/alert/engine.go:321-362 | reset and restore bring memory and rows into agreement |
| `AlertRuns.RunNotifiesStored` | internal/alert/engine.go:543-558 | in every run, whatever the store answers: an operation notifies exactly the acknowledged transitions that no silence covers, and when it does, the row of the alert shows the transition and its write was acknowledged just before |
| `AlertRuns.TransitionsAlternate` | internal/alert/eval.go:83-145 | over every run and whatever operation its terms go on with, the acknowledged transitions of each key alternate between fired and resolved with equal starts if and only if every new term reloads the memory it replaces; memory and record agree throughout exactly these runs |
| `AlertRuns.NewTermLog` | internal/alert/engine.go:331-362 | a new term keeps memory and record in agreement exactly when the rows it reads, the last of each key, are those of the episodes firing before |
| `AlertRuns.AlternatesNeedsLog` | internal/alert/eval.go:83-145 | if no next operation of a term can break the alternation, memory and record agree: a disagreement always has a continuation that does not alternate |
| `AlertRuns.ReloadTakesOldest` | internal/alert/store.go:153-210 | of several firing rows of one key, a new term takes up the one evaluated least recently |
| `AlertRuns.LosslessTerms` | internal/alert/engine.go:321-362 | a run that loses no reply is such a run |
| `AlertRuns.LostReplyBreaksAlternation` | internal/alert/engine.go:543-558 | the failing family: after any run, a firing whose reply is lost, a new term, and the end of the episode record a resolution without its firing |
| `AlertRuns.LeavesFiring` | internal/alert/eval.go:83-145 | a firing episode leaves memory only through a false sample, an end, or a new term |
| `AlertRuns.PendingHistory` | internal/alert/eval.go:83-118 | a pending episode was opened by a true sample and saw no false one since |
| `AlertRuns.FiresAfterFor` | internal/alert/eval.go:83-118 | a rule with a duration fires only that long after the opening sample, with no false sample in between |
| `AlertRuns.MetricFiresExactly` | internal/alert/eval.go:83-118 | after a sample of a metric whose write succeeds the alert fires if and only if the value is on the side of the threshold that the comparator names, and the episode fires already or is as old as the rule asks |
| `AlertRuns.EventFiresExactly` | internal/alert/eval.go:83-118 | the same for an event rule, which holds whatever the value; an inapplicable sample of any rule leaves no episode |
| `AlertRuns.FiredRow` | internal/alert/store.go:85-98 | the row of an alert that fires on its first sample holds the rule, the severity, the subject, the value, the summary and the times of the sample, each in its column |
| `AlertRuns.RefreshedRow` | internal/alert/engine.go:528-541 | a further sample of a firing alert keeps its row firing and brings value and time up to date |
| `AlertRuns.ResolvedRow` | internal/alert/store.go:85-98 | an ended alert has its row resolved at the time of the end, with the start it fired with |
| `AlertRuns.TruncKeeps` | internal/alert/store.go:85-98 | the start of a row is the start of the episode down to the microsecond |
| `AlertRuns.SeenNow` | internal/alert/eval.go:180-196 | a true sample leaves its episode sampled at this time exactly when the write of its transition did not fail or the episode was already sampled in this pass |
| `AlertEngine.SeenIsClosed` | internal/alert/engine.go:417-438 | after a true sample the end of the same rule closes the episode if and only if the write of its transition failed and the episode was due to be closed before |
| `AlertEngine.GraceExact` | internal/alert/engine.go:70-86 | an episode closes for want of a sample after ten minutes if its rule is on a metric, at once if on an event, and for an event that marks a spell a source is asked after two passes and two minutes |
| `AlertEngine.PassClosesSeen` | internal/alert/engine.go:417-438 | the failing family: an event rule without grace, a pending episode due to fire, a true sample whose write is refused, and the pass drops the episode |
| `AlertEngine.Shared.Write` | internal/alert/store.go:85-98 | a write may be refused, made, or made with its reply lost, and the table is in each case what that outcome says |
| `AlertEngine.Shared.Active` | internal/alert/store.go:153-210 | exactly the rows that are not resolved, the last evaluated first; no answer exactly when the table cannot be read |
| `AlertEngine.Engine.Evaluate` | internal/alert/engine.go:417-444 | evaluating one sample is one operation of the run, with publish, refresh or undo; the transition is silenced exactly when a silence covers its alert |
| `AlertEngine.Engine.Publish` | internal/alert/engine.go:543-558 | the notifier is told of a transition if and only if its write was acknowledged and no silence covers it; its row then shows it, every channel is asked for unless the pass has ended, and the call asks and sends only for that transition; a failed write is undone |
| `AlertEngine.Engine.EndUnsampled` | internal/alert/engine.go:492-512 | exactly the given episodes are closed, those of a spell only when a source confirms it, no other changes, and one stays open only where its write failed |
| `AlertEngine.Engine.EndRule` | internal/alert/engine.go:433-438 | only episodes of the rule unsampled for its grace are closed, and all of them unless the rule is of a spell or a write failed |
| `AlertEngine.Engine.EndGone` | internal/alert/engine.go:440-443 | only episodes of rules that are gone are closed, and all of them that were not sampled in this pass unless a write failed |
| `AlertEngine.Engine.NextRule` | internal/alert/engine.go:400-439 | the samples of a rule are evaluated in order, then its stale episodes are closed, and what the rules before it closed stays closed |
| `AlertEngine.RuleStaysEnded` | internal/alert/engine.go:417-444 | whatever else a pass samples, ends, forgets or puts back, an episode that a rule had to close stays closed unless its write failed |
| `AlertEngine.Engine.Reload` | internal/alert/engine.go:331-362 | the rows that are read back become the episodes of the new term, and the term is loaded exactly when the table answers |
| `AlertEngine.Engine.Tick` | internal/alert/engine.go:331-461 | a pass extends the run, leaves the memory of that run and ends no episode last sampled in it; it completes unless the table, the rules or the silences cannot be read or the pass is cancelled; a pass that completes evaluated every sample in order, closed what each fully observed rule had not sampled within its grace and what belongs to no rule, unless a write failed, and holds no pending episode unseen for an hour; last it makes failed deliveries again, and every claim and send of that step was given notice of and is, if FIRING, for an episode firing in the memory it leaves with the same start |
| `AlertEngine.Engine.FinishPass` | internal/alert/engine.go:452-459 | settle and retry with the evaluator's firing episodes: what is asked and sent was given notice of and is still owed, all that is owed and due is asked for unless the pass ends, and nothing is sent twice |
| `AlertEngine.SendsFollowStore` | internal/alert/engine.go:417-461 | over every pass of an engine, each claim and each send, at once or on a later pass, follows the acknowledged write and the notice of its transition |
| `AlertEngine.LosslessRetriesFireRows` | internal/alert/notifier.go:205-236 | in a run that loses no reply, a FIRING that is made again is for an alert that the table shows firing |
| `Notifier.ChannelNotifier.Claim` | internal/alert/notifier.go:125-137 | a cycle that has ended asks nothing and counts nothing; else one claim is asked, and it is won, taken or failed; a failed one counts as an attempt although it may have been written |
| `Notifier.ChannelNotifier.Notify` | internal/alert/notifier.go:79-116 | what is queued for the alert is dropped, one delivery per channel is made and asked for unless the cycle ends, in the phase RESOLVED exactly for a resolved alert; claims and sends are for these only; nothing is given up, and a delivery whose claim is taken is lost to it |
| `Notifier.ChannelNotifier.DropPending` | internal/alert/notifier.go:246-258 | the queue keeps its order, and what is dropped is on the book as superseded |
| `Notifier.ChannelNotifier.Settle` | internal/alert/notifier.go:213-236 | exactly the deliveries whose alerts have moved past them are dropped: a FIRING whose own episode does not fire, and whatever is older than an episode of its alert that fires |
| `Notifier.ChannelNotifier.Deliver` | internal/alert/notifier.go:262-288 | a delivery that was won is sent once, and is delivered, queued again or exhausted; when the cycle has ended it is queued again as it was |
| `Notifier.ChannelNotifier.Keep` | internal/alert/notifier.go:291-299 | a delivery is queued again while it has attempts left and otherwise exhausted |
| `Notifier.ChannelNotifier.KeepUnclaimed` | internal/alert/notifier.go:303-309 | a delivery whose claim failed is queued again or given up and counted |
| `Notifier.ChannelNotifier.GiveUp` | internal/alert/notifier.go:313-317 | a delivery given up is counted once |
| `Notifier.ChannelNotifier.Retry` | internal/alert/notifier.go:160-203 | exactly the deliveries that failed in an earlier pass are asked for again unless the cycle ends, each sent at most once; none becomes lost to another claim: one whose claim was never won and is taken or runs out of attempts is given up, and the counter grows by exactly these; the sends of one alert stay in the order of its notices |
| `Notifier.ChannelNotifier.SettleAndRetry` | internal/alert/engine.go:452-459 | claims are asked and messages sent exactly for the deliveries that failed before and that the given firing episodes have not moved past, unless the cycle ends; only such stay queued; the counter grows by exactly those given up |
| `Notifier.DeliveriesAccounted` | internal/alert/notifier.go:79-317 | the deliveries ever made are those queued, delivered, lost to another claim, exhausted, given up and superseded, each in one of these, and given up is what the counter says |
| `NotifierClaims.AtMostOneAccepted` | internal/alert/store.go:100-107 | with any number of processes, a message is sent only by the winner of its claim and never after it was accepted |
| `NotifierClaims.SendsBounded` | internal/alert/notifier.go:262-299 | over all processes, one episode, channel and phase is sent at most five times |
| `NotifierClaims.AttemptsBounded` | internal/alert/notifier.go:291-309 | failed claims plus sends of one delivery never exceed five |
| `NotifierClaims.NoWinnerNoSend` | internal/alert/notifier.go:79-137 | nothing is sent for a claim that is not on record |
| `LeaderLock.AtMostOneLeader` | internal/alert/engine.go:262-329 | in every run of any number of engines and dying sessions, an engine that believes it leads on a live session holds the lock, there is one such at most, and no session takes the lock twice |
| `LeaderLock.RunInv` | internal/advisor/engine.go:144-215 | who holds the lock, who believes it, and which sessions are in use agree after every step |
| `LeaderLock.AskDecides` | internal/alert/engine.go:308-320 | a lock query of a live session is granted exactly when no session holds the lock, and then it holds it |
| `LeaderLock.ReplyDecides` | internal/alert/engine.go:308-327 | in every run, a granted lock whose reply arrives on a live session makes the engine the leader; a refusal does not, and leaves it its session |
| `LeaderLock.PingKeeps` | internal/alert/engine.go:295-300 | a leader whose ping is answered leads on without a query |
| `LeaderLock.LostSessionDemotes` | internal/alert/engine.go:289-300 | a leader whose ping is not answered, or whose session is closed, gives the lead up |
| `LeaderLock.StopFrees` | internal/alert/engine.go:228-260 | a leader that stops frees the lock |
| `LeaderLock.FreeLockIsTaken` | internal/alert/engine.go:275-329 | from every reachable state with a free lock, an engine between its calls can come to lead |
| `LeaderLock.CanAlwaysLead` | internal/alert/engine.go:275-329 | from every reachable state any engine can come to lead: nothing that happens before locks it out |
| `AdvisorReconcile.IdOwner` | internal/advisor/rule.go:60-79 | an id names one rule and one instance |
| `AdvisorReconcile.Report` | internal/advisor/engine.go:317-348 | each finding is written or not, and each is recorded as seen either way |
| `AdvisorReconcile.RunRule` | internal/advisor/engine.go:299-391 | a rule's reports are written, and it counts as having run exactly when it gave an answer (what that is, `NoAnswerKeepsOpen` and `AnswerIsExact` say) |
| `AdvisorReconcile.RunInstance` | internal/advisor/engine.go:299-354 | the table after a pass, whatever calls of the store failed |
| `AdvisorReconcile.ReconcileExact` | internal/advisor/engine.go:299-354 | after a pass whose store calls succeed, the open rows of every rule that answered are exactly the ids it reported |
| `AdvisorReconcile.ReconcileKeeps` | internal/advisor/store.go:50-75 | whatever fails, rows of rules without an answer and findings seen in the pass stay open, and no row of another instance changes |
| `AdvisorReconcile.NoAnswerKeepsOpen` | internal/advisor/engine.go:299-391 | a rule whose tier is too low, whose input is missing, whose code panics, or that reports the whole instance degraded keeps its open rows open, whatever calls of the store fail |
| `AdvisorReconcile.AnswerIsExact` | internal/advisor/engine.go:299-391 | for every other rule, after a pass whose store calls succeed, the open rows are exactly the ids of the findings it returned |
| `AdvisorReconcile.CompleteFills` | internal/advisor/engine.go:317-341 | what a rule left open in a finding is filled in from the rule and the instance, what it said stays, and the object is never made up |
| `AdvisorReconcile.ObjectsHaveOwnRows` | internal/advisor/rule.go:60-79 | findings about objects share a row exactly when rule, instance, database and object are the same |
| `AdvisorReconcile.PassWrites` | internal/advisor/store.go:50-75 | the row of a reported finding is seen now, not resolved, muted exactly while its mute lasts, and keeps its first time; a resolved row changes in its state and time only; every other row stays |
| `AdvisorReconcile.KeepsToInstanceExactly` | internal/advisor/engine.go:299-354 | under every table and every pattern of failing calls no row of another instance changes or appears, if and only if every report names the instance of the pass |
| `RootBlocker.LockRootBlocker` | internal/advisor/rules_lock.go:56-81 | on every graph: the end of the nearest chain to a session that is not blocked or not sampled, shortest first and then lowest numbers first from the waiter on; if there is no chain, the waiter's lowest blocker, or the waiter itself when nothing blocks it |
| `RootBlocker.Search` | internal/advisor/rules_lock.go:61-76 | the walk ends, cycles included, at the nearest chain of all, and fails only when no chain leads to a root |
| `RootBlocker.ChainIsCovered` | internal/advisor/rules_lock.go:61-76 | every blocking chain ends at a session that was met by a chain no farther, or is farther than the head of the queue |
| `RootBlocker.WalkOn` | internal/advisor/rules_lock.go:61-76 | each turn of the loop keeps the queue in the order of its chains and everything behind it settled |
| `RootBlocker.NearestRootUnique` | internal/advisor/rules_lock.go:56-81 | there is one nearest chain, so the answer is determined |
| `RedundantIndexes.IndexColumns` | internal/advisor/rules_relation.go:71-113 | the loops find the matching parenthesis and split at the commas outside inner ones |
| `RedundantIndexes.ColumnsRoundTrip` | internal/advisor/rules_relation.go:71-113 | the columns read back are the list that was printed, for every list of trimmed, balanced columns, whatever stands before and after |
| `RedundantIndexes.IsPrefix` | internal/advisor/rules_relation.go:114-124 | a proper prefix, without regard to case |
| `RedundantIndexes.RedundantPrefixes` | internal/advisor/rules_relation.go:237-265 | every redundant index is reported once, in order, with the first that extends it, and no other |
| `RedundantIndexes.FindingsMean` | internal/advisor/rules_relation.go:237-265 | a finding names a non-unique index whose columns are, without regard to case, the first columns of another of the same table, method and predicate; and every index of which that is so has one |
| `RedundantIndexes.KeptIndexExtends` | internal/advisor/rules_relation.go:237-265 | every redundant index is extended by one that is not redundant |
| `RedundantIndexes.ReportedHaveKeptExtension` | internal/advisor/rules_relation.go:237-265 | so every reported index has an extending one, same database, table, method and predicate, that is not reported |
| `Scheduler.SafeInEveryRun` | internal/agent/scheduler.go:213-298 | in every interleaving, at most so many scrapes run as there are workers and one per entry, an entry between its ticks is busy exactly while a scrape of it runs, one outcome separates two grants of an entry, and nothing can send once the results are closed |
| `Scheduler.EntriesStep` | internal/agent/scheduler.go:241-298 | every step keeps at most one active scrape per entry, shown by its busy flag |
| `Scheduler.SlotsStep` | internal/agent/scheduler.go:241-298 | every step keeps each worker slot with one owner, and the wait group with the scrapes that are not done |
| `Scheduler.LogStep` | internal/agent/scheduler.go:353-405 | every step keeps grants and outcomes of an entry alternating |
| `Scheduler.TickCanScrape` | internal/agent/scheduler.go:241-298 | from every reachable state in which the entry waits for its tick, is idle and a worker is free, a tick that the breaker allows leads to a scrape of it |
| `Scheduler.BusyTickSkips` | internal/agent/scheduler.go:241-270 | a tick while a scrape of the entry runs starts nothing |
| `Scheduler.CanAlwaysClose` | internal/agent/scheduler.go:213-298 | from every reachable state the scheduler can be stopped: loops and scrapes can end and the results be closed |
| `Breaker.CalculateBackoff` | internal/agent/breaker.go:91-105 | the loop gives two to the n minutes, capped at fifteen, for all n |
| `Breaker.EntryBreaker.Allow` | internal/agent/breaker.go:36-47 | an open circuit allows again only after its backoff |
| `Breaker.EntryBreaker.RecordFailure` | internal/agent/breaker.go:72-87 | the third failure opens the circuit, and a failed trial opens it anew with a longer backoff |
| `Breaker.EntryBreaker.RecordSuccess` | internal/agent/breaker.go:50-59 | a success closes the circuit and clears its counts |
| `Breaker.CircuitExact` | internal/agent/breaker.go:36-87 | over every sequence of outcomes the circuit is open exactly from the third failure since the last success on, and every further failure lengthens the backoff by one step |
| `Breaker.AllowedExactly` | internal/agent/breaker.go:36-105 | an entry may run if and only if fewer than three failures followed the last success, or 1, 2, 4, 8 and then 15 minutes have passed since the last failure |
| `Breaker.TrialLadder` | internal/agent/breaker.go:36-105 | the earliest starts of the trials of an entry that always fails |
| `Breaker.TrialsBounded` | internal/agent/breaker.go:36-105 | at most 3 + T/15 trials start in the first T minutes |
| `SqlComments.BlockCommentEnd` | internal/agent/exec_explain.go:354-372 | the scan agrees with the other scanner on where a comment ends |
| `SqlComments.SkipBlockComment` | internal/agent/explain_guard.go:815-831 | the same end, or the end of the text when the comment is never closed |
| `SqlComments.CommentEndExact` | internal/agent/exec_explain.go:350-372 | the end found is the end of the properly nested comment that a grammar defines, and none is found exactly when there is none |
| `SqlComments.FirstSqlKeyword` | internal/agent/exec_explain.go:322-348 | the loop reads the keyword that the specification finds |
| `SqlComments.KeywordAfterTrivia` | internal/agent/exec_explain.go:318-348 | the keyword is the word after the blanks and comments, however many and however nested |
| `CallScanner.TokenEnd` | internal/agent/explain_guard.go:628-668 | on any text every token ends after it begins and within the text |
| `CallScanner.ReadNamePart` | internal/agent/explain_guard.go:701-734 | a quoted name with its doubled quotes undone, or an unquoted one, folded in statement text |
| `CallScanner.ReadQualifiedName` | internal/agent/explain_guard.go:673-699 | the last two parts of a dotted name, and whether the last one is a keyword |
| `CallScanner.SkipStringLiteral` | internal/agent/explain_guard.go:789-805 | the end of a literal with doubled quotes, and with backslashes when it is an escape literal |
| `CallScanner.SkipDollar` | internal/agent/explain_guard.go:834-853 | the end of a parameter or of a dollar-quoted string |
| `CallScanner.SkipTypeName` | internal/agent/explain_guard.go:748-775 | the end of a type name with its words, modifier and bounds |
| `CallScanner.SkipTypeModifier` | internal/agent/explain_guard.go:778-787 | a modifier is skipped only when it is numeric |
| `CallScanner.ScanToken` | internal/agent/explain_guard.go:628-668 | where the token at an offset ends, and the call it names if it names one |
| `CallScanner.ScanCalls` | internal/agent/explain_guard.go:628-668 | the calls of the whole text, each once |
| `CallScanner.DistinctExact` | internal/agent/explain_guard.go:618-668 | no call is lost, none is added, and they come in order of first appearance |
| `StatementText.CaseDoesNotMatter` | internal/agent/explain_guard.go:701-734 | in a statement without quoted names and dollar signs the calls found do not depend on the case of its letters |
| `StatementText.WrittenCallExact` | internal/agent/explain_guard.go:628-734 | a word written in a statement is one token, folded, and is a call exactly when an opening parenthesis is the first thing after it that is no blank |
| `StatementText.LiteralEndExact` | internal/agent/explain_guard.go:789-805 | a literal is skipped to the end of exactly the literal that a grammar of characters, doubled quotes and escapes gives, and to the end of the text when there is none |
| `StatementText.LiteralTokenExact` | internal/agent/explain_guard.go:628-645 | a quote begins an escape literal exactly when a lone E stands before it |
| `StatementText.DollarEndExact` | internal/agent/explain_guard.go:834-853 | a dollar-quoted string, tagged or not, ends at the first repetition of its opening, and at the end of the text when there is none |
| `StatementText.LineCommentExact` | internal/agent/explain_guard.go:628-650 | a line comment takes all up to the next line feed |
| `StatementText.ModifierExact` | internal/agent/explain_guard.go:778-787 | every modifier of digits, commas and spaces is skipped |
| `StatementText.KeywordSame` | internal/agent/exec_explain.go:322-348 | the first keyword of a statement is the same in any case |
| `StatementText.WordIsLetters` | internal/agent/exec_explain.go:322-348 | the keyword is all the letters at its place, in capitals |
| `CallPrinter.NamesAre` | internal/agent/explain_guard.go:673-734 | reading back a printed dotted name gives its parts, and no keyword |
| `CallPrinter.StringIs` | internal/agent/explain_guard.go:789-805 | a printed literal is skipped as a whole, whatever it contains |
| `CallPrinter.TypeIs` | internal/agent/explain_guard.go:748-787 | a printed type name is skipped as a whole, with every word, modifier and bound, and the scan goes on only over bounds and words that follow it |
| `CallReading.ScanFinds` | internal/agent/explain_guard.go:618-787 | for every printed expression, whatever follows its casts, which calls are found and under which names |
| `HiddenCalls.ScanExact` | internal/agent/explain_guard.go:618-787 | the calls found are exactly the calls of the expression, in order, if and only if no call with a short name that begins with a word of type names stands where a type name is open |
| `HiddenCalls.ScanPrinted` | internal/agent/explain_guard.go:618-668 | a scan of a printed plan expression that hides no call reports each of its calls once |
| `HiddenCalls.TypeWordHidesCall` | internal/agent/explain_guard.go:736-775 | a cast, a keyword and a call with any arguments: the call is read wrongly if and only if the keyword and the first part of its short name are words of type names |
| `Selector.SeriesSelector.Select` | internal/cardinality/selector.go:57-151 | the list of what the choice keeps, by descending first metric and then by key, without repeats, and the history with this cycle's fresh keys |
| `Selector.SeriesSelector.Forget` | internal/cardinality/selector.go:166-183 | exactly the keys outside the window are dropped, and counted |
| `Selector.SortByRank` | internal/cardinality/selector.go:155-162 | a sorted list of the same candidates |
| `Selector.HeadIsTop` | internal/cardinality/selector.go:74-100 | the first n of a sorted list are the candidates with fewer than n ahead of them |
| `Selector.ChooseExact` | internal/cardinality/selector.go:57-151 | with distinct keys the answer depends on the set of candidates alone: the leaders of both rankings and the rest fresh within the window, cut to the cap |
| `Selector.KeptExactly` | internal/cardinality/selector.go:57-151 | where the cap cuts nothing, a candidate is kept if and only if fewer than the top-N are ahead of it in one of the metrics or it was so within the hysteresis, and it is remembered exactly when the former is so |
| `Selector.CutByRank` | internal/cardinality/selector.go:57-151 | of two candidates that do not lead, the cap leaves the one with the larger first metric |
| `Selector.DefaultsAre` | internal/cardinality/selector.go:22-35 | what is not configured is 50 keys a ranking, 5 cycles, and a cap of 200 or of both rankings |
| `Selector.OrderDoesNotMatter` | internal/cardinality/selector.go:57-151 | two orders of one input give one answer and one history |
| `Selector.ListsUnique` | internal/cardinality/selector.go:155-162 | a set of candidates has one sorted list |
| `Selector.DefaultCapKeepsLeaders` | internal/cardinality/selector.go:22-35 | under a defaulted cap every leader is kept, only retained keys are cut, and truncation is reported exactly when the two exceed the cap |
| `SelectorRuns.ForgettingChangesNoAnswer` | internal/cardinality/selector.go:57-183 | over every run of non-decreasing cycles, every answer is the one the full history of last fresh cycles gives |
| `SelectorRuns.MemoryBounded` | internal/cardinality/selector.go:57-183 | with strictly increasing cycles at most (window + 1) times twice the top-N keys are held |
| `ScopedSelectors.Scopes.NextKind` | internal/check/scopesel.go:91-110 | a scope gets its own state and its own next cycle, and survives its own pruning |
| `ScopedSelectors.Scopes.PruneLocked` | internal/check/scopesel.go:112-121 | exactly the idle scopes go, and none while there is one scope only |
| `ScopedSelectors.IndependentExactly` | internal/check/scopesel.go:83-121 | a scope's state is the one it would have alone if and only if no other scope was used while it was idle too long |
| `ScopedSelectors.AnswersIndependent` | internal/check/scopesel.go:83-121 | a scope used at gaps within the limit gets the answers it would get alone, however other uses interleave |
| `ScopedSelectors.IdleScopeIsLost` | internal/check/scopesel.go:112-121 | one use of another scope after the limit loses the scope, and one at the limit does not |
| `ConnPools.Manager.Oldest` | internal/agent/conn.go:213-226 | the least recently used idle database, or none when all are busy |
| `ConnPools.Manager.MakeRoom` | internal/agent/conn.go:213-237 | only idle databases go, none used later than an idle one that stays, no more than needed, and enough unless the rest are busy |
| `ConnPools.Manager.Choose` | internal/agent/conn.go:204-266 | the caller's pool is the database's pool and the caller is counted in; what was closed was idle and no idle database that stays was used before it; after a pool is opened the map is within its bound or every other pool is busy; the same when opening failed after room was made |
| `ConnPools.Manager.Heard` | internal/agent/conn.go:268-274 | the caller is counted out, and a count of zero leaves no entry |
| `ConnPoolRuns.PickedPoolsStayOpen` | internal/agent/conn.go:204-283 | in every interleaving, the pool a caller picked is open and still its database's pool until the caller releases it |
| `ConnPoolRuns.RunInv` | internal/agent/conn.go:204-283 | pending counts, open pools and callers agree after every step |
| `ConnPoolRuns.BoundedByCallers` | internal/agent/conn.go:204-283 | in every interleaving the pools are within their bound, or no more than the most callers there have been at one time |
| `DatabaseSchedule.SelectDatabases` | internal/agent/conn.go:374-432 | the loops list the eligible databases, busiest first, with the budget's verdict |
| `DatabaseSchedule.SelectedExact` | internal/agent/conn.go:374-432 | exactly the databases that no exclude pattern and, if there are any, some include pattern matches are listed; as many as the budget allows are monitored, and each of those has more commits than each other one, or as many and an earlier name |
| `DatabaseSchedule.KeepDatabases` | cmd/pglens-agent/schedule.go:168-192 | scheduled databases stay while listed, and free slots go to the busiest monitored ones |
| `DatabaseSchedule.KeepExact` | cmd/pglens-agent/schedule.go:160-192 | every slot is filled, nothing still listed is dropped, and only monitored databases come in, in the order of the listing |
| `DatabaseSchedule.SameDatabases` | cmd/pglens-agent/schedule.go:194-204 | equality of the two sets |
| `DatabaseSchedule.NextGate` | cmd/pglens-agent/schedule.go:134-158 | the gate adopted after a read, and a rebuild exactly when its facts, its extensions or its databases changed or it is the first |
| `DatabaseSchedule.ReadIsAdopted` | cmd/pglens-agent/schedule.go:134-158 | over every sequence of reads, a failed one changes nothing, a usable one is adopted, and what it could not tell about pg_stat_statements stays as it was known |
| `DatabaseSchedule.UsableReadFillsBudget` | cmd/pglens-agent/schedule.go:134-192 | over every sequence of reads, after each usable one exactly min(budget, listed) databases are scheduled and every scheduled one still listed stays |
| `DatabaseSchedule.ReRankingChangesNothing` | cmd/pglens-agent/schedule.go:134-192 | a new ranking of the same names leaves the same databases scheduled |
| `DatabaseSchedule.ReportScheduled` | cmd/pglens-agent/run.go:719-741 | each verdict is rewritten in place to what the agent collects, with the reason for what it does not |
| `DatabaseSchedule.ReportReason` | cmd/pglens-agent/run.go:711-741 | for any schedule, a monitored database that is not scheduled is over the budget exactly when as many listed ones are scheduled as the budget takes, and else waits for its turn |
| `DatabaseSchedule.ReportExact` | cmd/pglens-agent/run.go:711-741 | a listed database is reported monitored exactly when it is scheduled, and after a reconcile none is said to wait for a slot |
| `PushQueue.AttemptTimeoutAfter` | internal/agent/pusher.go:498-504 | the waits are 10, 20, 40, 80 and then always 120 seconds |
| `PushQueue.Pusher.Queue` | internal/agent/pusher.go:130-160 | a full queue loses its oldest envelopes and counts them |
| `PushQueue.Pusher.PushOne` | internal/agent/pusher.go:265-414 | whatever the network answers and whatever is queued meanwhile, the attempts are steps of the run, and an envelope that is not consumed is one that has to wait |
| `PushQueue.Pusher.Decide` | internal/agent/pusher.go:309-412 | the verdict on every answer, each a step of the run (what it is, `AckedExactly`, `DroppedExactly` and `AnswerLeaves` say) |
| `PushQueue.Pusher.Push` | internal/agent/pusher.go:164-198 | the loop takes from the head, puts an envelope that has to wait back at the head, and stops for the reason it gives |
| `PushQueue.QueueIsSafe` | internal/agent/pusher.go:130-198 | in every run each envelope is acknowledged, dropped, in flight or pending, exactly one of these; acknowledged ones are in the order of queueing; at most 1025 are pending |
| `PushQueue.AckedExactly` | internal/agent/pusher.go:335-349 | in every run an envelope is acknowledged if and only if it was in flight at an answer of 202 |
| `PushQueue.DroppedExactly` | internal/agent/pusher.go:130-412 | in every run an envelope is dropped if and only if a full queue lost it, it could not be encoded, it stalled a fifth time since it was taken, or it met a status below 500 that is none of 202, 401, 404, 405, 408, 425 and 429 |
| `PushQueue.AnswerLeaves` | internal/agent/pusher.go:300-412 | 401, 404 and 405 put the envelope back at the head; 408, 425, 429, 500 and above, and a request that was not fully sent leave it in flight; only a stall counts against it |
| `PushQueue.StallsBounded` | internal/agent/pusher.go:265-350 | an envelope stalls at most four times each time it is taken, and once more when that drops it |
| `PushQueue.AtMostFiveStalls` | internal/agent/pusher.go:265-350 | an envelope that is taken at most once stalls at most five times, and five times only when it is dropped |
| `PushQueue.StallsWithoutLimit` | internal/agent/pusher.go:164-198 | for every n there is a run in which one envelope is taken n times, stalls 4n times and is still pending |
| `PushQueue.StallLimit` | internal/agent/pusher.go:265-350 | a number of stalls is a limit for all runs with k takes if and only if it is at least 4k + 1 |
| `PushQueue.FiveStallsExactly` | internal/agent/pusher.go:265-350 | the limit of five stalls holds of all runs with k takes if and only if k is at most one |

## Left out

- AlertEval.Evaluator.Step: sample values and thresholds are real numbers, so NaN is not modelled.
- Notifier.ChannelNotifier.Deliver: the mark that records the outcome of a send in its claim row is not modelled; only the purge of history reads it.
- Notifier.ChannelNotifier.Claim: whether a cycle has ended is asked where the code asks for it; a call that is cut short is one that fails.
- Scheduler.SafeInEveryRun: jitter, timeouts and the time between ticks are not modelled; an entry that shares its breaker with another entry is not modelled.
- PushQueue.Pusher.PushOne: backoff and Retry-After waits, the health state and the last error are not modelled; the attempts of a call are a finite list that ends when its context ends.
- PushQueue.Pusher.Push: a pusher that was stopped refuses at once; that flag is not modelled.
- PushQueue: the disk buffer (`pushFromBuffer`) is not part of this model.
- Selector.SeriesSelector.Select: metrics are real numbers, so NaN is not modelled; `MaxKeys` is not negative, since a negative one makes the code panic; where a key is given twice the order of equal elements is the model's own.
- ScopedSelectors.Scopes.NextKind: a selector is a value in the map, so a selector that a caller holds while its scope is pruned is not modelled; a use enters, selects and forgets in one step.
- AdvisorReconcile.ReconcileExact: assumes of the registered rules that their ids are distinct and hold no slash, and that each reports only open or degraded findings of its own about the instance of the pass; ReconcileKeeps assumes the same.
- ConnPools.Manager.MakeRoom: how many connections are checked out is read once and not in each round, so a connection given back in between is not seen.
- ConnPools.Manager.Choose: the database name is not empty, as its callers see to; `Close` of the manager is not modelled.
- DatabaseSchedule.NextGate: role, version and tier are one value, and patterns are predicates on names.
- CallScanner.ScanCalls: letters beyond ASCII are bytes that may stand in a name, and are not folded.
- CallScanner.ReadNamePart: letters beyond ASCII are not folded.
- HiddenCalls.ScanExact: comments and dollar-quoted strings do not occur in printed expressions; a cast is not subscripted without parentheses.
- RedundantIndexes.IndexColumns: blanks are the ASCII ones.
- RedundantIndexes.IsPrefix: case is ASCII case; `indexMethod` and `indexPredicate` are arbitrary functions of a definition.
- LeaderLock.AtMostOneLeader: a `Stop` whose unlock fails without an error, and engines without a pool, are not modelled; writes of a leader that loses its session in the middle of a pass are not modelled.
- AlertEngine.Engine.Tick: passes are sequential; an engine has a store and a notifier; the purge of history is not modelled, and the answers of sources, silences and channels are arbitrary. Of a spell rule it is proved that what a source confirms as cleared is closed, and nothing else.
- Breaker.TrialsBounded: there is one clock that does not go back, and a duration does not saturate.
- SQL text, scraping, HTTP, gzip, JSON, regular expressions, logging and configuration.
- The policy tables and catalog lookups of the EXPLAIN guard, and the advisor rules that compare one value with a threshold.
- ASH folding, version comparison, size parsing, mount parsing and the web interface.
