# A verified model of dappctrl

dappctrl is the controller of a marketplace in which agents sell services to clients and are paid
through state channels: the client signs cheques for ever larger amounts, the agent keeps the last one, and
a blockchain contract settles it. This project models the algorithms and protocols the controller is
built on and proves what they keep, for every input, every run and every interleaving.

`dafny verify dfyconfig.toml` checks the whole project.

| file | part of the controller | main results |
|---|---|---|
| `rating_sums.dfy`, `rating.dfy`, `initial_rate.dfy`, `rating_update.dfy` | account ratings, an integer PageRank over the multigraph of channel closings | a rank step conserves mass but for the residues of its divisions; over a whole run nothing overflows and the loss is bounded; the loop over two swapped buffers computes the iterated step; the ratings do not depend on the order of the closings |
| `queue.dfy` | the job queue: collector, sharded workers, retries, cancels | one handler at a time per related id; a finished job never runs again; the retry bound; when a cancel holds |
| `job_table.dfy` | the duplicate check of `Add` | which rows may not be in the table together, and exactly which saves and rounds put them there; a rescan adds nothing |
| `subscriptions.dfy` | subscriptions to job results | all or nothing; unsubscribing undoes subscribing |
| `service.dfy`, `agent_billing.dfy` | requests to change a service, the agent's billing round | never two active jobs of a channel; termination wins |
| `lifecycle.dfy` | every writer of a channel's service status | when a terminated service stays terminated |
| `sessions.dfy` | the calls of the service adapter | usage is never over-billed, and less than a unit is lost per report |
| `client_billing.dfy` | the client's billing round | what stays unpaid, what a posted cheque is worth, when the next one is due, alternating top-ups |
| `payment.dfy` | the payment protocol of both sides | receipts are ordered, covered by the recorded deposits and by the client's signatures in every reachable state; when the records match the chain |
| `scan.dfy` | the blockchain monitor's two cursors | every block exactly once, forward; the whole window, backward, pass after pass |
| `machine.dfy`, `jobs.dfy` | machine words, Go's and SQL's division, the status column of the jobs table | |

Each imperative part of the controller is a class or a method over the fields the Go code updates, proved against a
function of its inputs or of its old state; the theorems are about these functions and about runs of them.
Protocols are state machines with one action per committed transaction, handler or message.

## What the proofs found

* `Lifecycle.TerminatedForeverIff`: termination is not absorbing in general. A session that is stopped while the
  terminate job is queued leaves a completion behind that overwrites the termination
  (`Lifecycle.StopOverwritesTermination`), and so does the creation of a channel that its client terminated before
  it was mined. The lemma gives the exact condition under which a terminated service stays so.
* `Payment.RecordsMatchChainIff`: a side's record of the deposit can be too high or too low. The client's handler of a top-up
  saves the deposit and then adds a balance update of the account, which the queue refuses while one is active; the handler
  fails, is retried, and adds the deposit again (`Payment.SignsAboveChainExample`). A monitor that meets a top-up before its
  controller has the channel's row makes no job for it, for example when one round of the agent holds both the creation and the
  first top-up (`Payment.MissedTopUpExample`). The order of receipts, signed amounts and recorded deposits survives both.
* `Queue.CancelHoldsIff`: a cancel that commits between the worker's second read of the row and its save is undone
  by the save of a full row, and the job is retried. The same goes for a reactivation by the user, which reads, checks and saves
  the row in separate steps and can also bring back a job that was done in between (`Queue.DoneForeverIff`).
* `JobTable.DedupRunIff`, `Queue.StaleSaveExample`: the same save can put a job back beside the one that was added after the
  cancel, so that two active jobs of one type and related id exist. This is the only way to break the invariant of the duplicate
  check with single adds.
* `JobTable.RoundKeepsDedupIff`: the duplicate check reads committed rows, so jobs inserted by one transaction of the
  blockchain monitor are not checked against each other. In the first round of a client with unset cursors the forward and the
  backward query both ask for pop-ups of offerings (`bc/bc.go:166-180`, `bc/bc.go:218-228`) and share a block
  (`Scan.FirstRoundOverlapsIff`), so a pop-up in that block is met twice. An offering the client does not know gets a fresh id
  each time (`bc/jobsmaker.go:179-183`) and the jobs differ; the one of an offering it knows, because its cursors were set back to
  zero while its offerings were kept, is inserted twice (`JobTable.RepeatedLogExample`). The two queries of an agent share
  every transfer between two of its own accounts in any round (`bc/bc.go:94-119`); the shipped configurations do not check
  that job's type.
* `AgentBilling.TerminationIff`: a billed suspended channel whose unit price is zero makes the third check fail on a division, and
  an inactivity limit that is out of range makes the second fail. If the query fails before its first row, the deferred close of
  the missing rows panics (`agent/bill/monitor.go:286-290`): the round ends there, and channels suspended too long
  are not terminated.
* `ClientBilling.PostExceedsReceiptIff`, `ClientBilling.UnpaidBelowIntervalIff`, `ClientBilling.NextChequeIff`: the price wraps
  in `uint64` and the lag in `int64`; each property holds for all channels exactly under the stated condition on prices and consumption.
* `Scan.AgentAdvances`, `Scan.AgentNeverStarts`: an agent needs two confirmed blocks to move, and with a block limit below
  two an agent whose cursor is unset never scans anything.
* `bc/README.md` describes the range of a round by a formula that the code does not compute; the model follows
  the code (`bc/range_of_interest.go:24-34`).
* At the end of a backward pass the client queries block 0 and stores 0 (`bc/bc.go:217`), which
  restarts the search; a pass is therefore the rounds from one stored 0 to the next.

## Model

| member | source | states |
|---|---|---|
| `Rating.GroupByAddress` | proc/worker/client.go:1283-1287 | the adjacency lists: every address's closings in query order, a self-deal twice |
| `Rating.RankStep` | proc/worker/client.go:1301-1311 | one pass over the addresses, in any order of the map, overwrites the target with exactly the step of the source buffer; no divisor is zero |
| `Rating.Collect` | proc/worker/client.go:1302-1309 | the inner loop's sum over the far ends of an address's links, wrapping like a uint64 |
| `Rating.StepIsRankEquation` | proc/worker/client.go:1301-1311 | the rank equation: every address gets, wrapped, the sum over all addresses of the closings both are ends of times the other's rating divided by its number of ends, a self-deal counted twice |
| `Rating.InflowByMeetings` | proc/worker/client.go:1302-1309 | what an address collects along its links is what it gets from every address it met |
| `Rating.IterateSteps` | proc/worker/client.go:1300-1314 | no step keeps the ratings, each further one applies the step once more |
| `Rating.RankLoop` | proc/worker/client.go:1298-1314 | the loop that swaps two buffers, one of them aliased by the result, computes the step iterated `rankSteps` times, also for zero steps |
| `Rating.MassConserved` | proc/worker/client.go:1301-1311 | conservation: the total after a step plus the residues rating mod degree of all addresses is the total before |
| `Rating.InflowTotal` | proc/worker/client.go:1301-1311 | double counting: what all addresses collect is what crosses the edges |
| `Rating.OutflowTotal` | proc/worker/client.go:1301-1311 | double counting: what all addresses send is what crosses the edges |
| `Rating.DegreeTotal` | proc/worker/client.go:1283-1287 | the adjacency lists together hold every closing twice |
| `Rating.ResidueBound` | proc/worker/client.go:1308 | a step loses at most 2 * events - addresses |
| `Rating.DivisorsPositive` | proc/worker/client.go:1304-1308 | the far end of a link has a link itself, so the division is defined |
| `Rating.NoPartialOverflow` | proc/worker/client.go:1302-1310 | while the total fits a uint64 so does every partial sum of every address |
| `Rating.MachineStepExact` | proc/worker/client.go:1301-1311 | then the wrapping step is the step over the integers |
| `Rating.MassAfterSteps` | proc/worker/client.go:1298-1314 | after k steps the total is at most the initial one and at least that minus k * (2 * events - addresses) |
| `Rating.RunNeverWraps` | proc/worker/client.go:1298-1314 | if the initial total fits, the whole run equals the iterated exact step |
| `InitialRate.Accumulate` | proc/worker/client.go:1376-1383 | the loop's total cost and number of cooperative closings |
| `InitialRate.GetInitialRate` | proc/worker/client.go:1371-1387 | the rate is the sum of amount/2^i for i below the number of closings, times the cooperative ratio, truncated; zero without closings |
| `InitialRate.TwoClosingsRate` | proc/worker/client.go:1371-1387 | two closings, written out: one and a half times their cost times the cooperative ratio, rounded down |
| `InitialRate.ShiftValue` | proc/worker/client.go:1386 | the 64-bit shift is 2^n below 64 closings and zero from there on |
| `InitialRate.ClosedForm` | proc/worker/client.go:1385-1386 | the shift expression equals the series it abbreviates |
| `InitialRate.RateRange` | proc/worker/client.go:1386 | the rate lies between zero and twice the total cost |
| `InitialRate.RateMonotone` | proc/worker/client.go:1386 | it grows with the total cost and with the number of cooperative closings |
| `InitialRate.RateRespectsClosing` | proc/worker/client.go:1378-1386 | raising one closing's cost or making it cooperative never lowers it |
| `InitialRate.InitialRateUnordered` | proc/worker/client.go:1378-1386 | it does not depend on the order of the closings |
| `RatingUpdate.RateAddresses` | proc/worker/client.go:1289-1296 | every address with at least two list entries, and no other, gets its initial rate |
| `RatingUpdate.RatedAddresses` | proc/worker/client.go:1291-1294 | exactly the addresses at two or more ends of closings are rated |
| `RatingUpdate.RatedByClosings` | proc/worker/client.go:1283-1296 | an address's initial rating is the rate of any list of the closings it is an end of |
| `RatingUpdate.RatingsTable.UpdateRatings` | proc/worker/client.go:1271-1332 | the whole update leaves exactly the iterated ratings in the table |
| `RatingUpdate.RatingsUnordered` | proc/worker/client.go:1347-1351 | permuting the unordered result of the closings query changes neither the initial nor the final ratings |
| `Queue.JobRecord.ProcessJob` | job/queue.go:401-431 | the worker's copy after the handler, field by field: done, failed at the limit, or due again after the try period, with an 8-bit counter |
| `Queue.InvStep` | job/queue.go:233-302 | every action keeps ids in the buffer and at the worker of their shard, and rows at a worker active or canceled |
| `Queue.HeldRowKept` | job/queue.go:304-359 | nobody but its worker finishes a job that is being worked on |
| `Queue.MutualExclusion` | job/queue.go:233-236 | in every reachable state two workers never hold jobs of one related id |
| `Queue.FinishedIsRetired` | job/queue.go:315-321 | no worker holds a job that was saved as done or failed; it is retired unless the user read it before and saves it later |
| `Queue.RetiredForever` | job/queue.go:313-321 | however often its id is collected, a finished job's handler never starts again unless the job is reactivated |
| `Queue.DoneForeverIff` | ui/jobs.go:82-115 | a done job stays done and is never called again in any run if and only if no reactivation read it before it was done and has not saved it yet |
| `Queue.CancelHoldsIff` | job/queue.go:334-359 | a canceled job stays inactive in every run if and only if no worker has re-read it as active and is about to save it, nor a reactivation |
| `Queue.StaleSaveExample` | job/queue.go:313-359 | a run from the empty queue that ends with two active jobs of one type and related id, each added while no such job was active |
| `Queue.RetryBound` | job/queue.go:415-428 | a type limited to N tries: at most N handler calls, and failed exactly after N errors |
| `Queue.RetryWaits` | job/queue.go:313-321 | a job whose handler failed and that stays active is not called again, in any run without a reactivation, before the try period of its type has passed |
| `Queue.NotCollectedBeforeDue` | job/queue.go:258-276 | before a job is due the copies of its id that wait for a worker only get fewer |
| `JobTable.JobsTable.CheckDuplicated` | job/queue.go:104-130 | found exactly if some row duplicates the job, by transaction or by activity |
| `JobTable.JobsTable.Add` | job/queue.go:133-161 | the job is inserted as active, or refused and the table unchanged |
| `JobTable.LogAccepted` | job/queue.go:108-113 | a log job is accepted if and only if every row of its pair has a log of another transaction, whatever its status |
| `JobTable.JobAccepted` | job/queue.go:114-118 | any other job is accepted if and only if no row of its pair is active |
| `JobTable.UncheckedAccepted` | job/queue.go:135-140 | a type whose check is switched off is always accepted |
| `JobTable.JobsTable.CommitRound` | bc/monitor.go:137-151 | a round inserts the jobs that pass against the committed rows, and only those |
| `JobTable.NoClashMeaning` | job/queue.go:104-130 | the invariant read out: an active job without a log is alone in its pair, logged jobs of a pair differ in transaction |
| `JobTable.DedupStepIff` | job/queue.go:104-161 | one committed add, cancel or save of a full copy, by a worker or a reactivation, keeps it if and only if it is not a save that makes an inactive row active beside an active row it clashes with |
| `JobTable.DedupRunIff` | job/queue.go:104-161 | it holds in every state of a run if and only if no save of the run does that |
| `JobTable.DedupRun` | job/queue.go:334-359 | it holds after every run in which whoever saves an active copy finds the row still active |
| `JobTable.StaleSaveExample` | job/queue.go:334-359 | a job canceled between the worker's second read and its save, and added again, is active twice |
| `JobTable.RoundKeepsDedupIff` | bc/monitor.go:137-148 | a round keeps it if and only if no two of the jobs it offers pass against the committed rows, are of one pair and share a transaction (or one has no log, or the type ignores logs) |
| `JobTable.RepeatedLogExample` | bc/monitor.go:137-148 | a log of a checked type met twice in a round is inserted twice |
| `JobTable.RescanAddsNothing` | job/queue.go:104-118 | a log job offered once is refused ever after, whatever happens in between |
| `Subscriptions.Queue.SubscribeKey` | job/queue.go:487-499 | the entry goes to the end of the key's list, unless the id is there |
| `Subscriptions.Queue.UnsubscribeKey` | job/queue.go:521-540 | the id's entry leaves the list, the others keep their order |
| `Subscriptions.Queue.Rollback` | job/queue.go:511-513 | the keys served so far get their old lists back |
| `Subscriptions.Queue.Subscribe` | job/queue.go:504-519 | all or nothing, also with repeated keys: succeeds exactly if the keys are distinct and free, else no list changes |
| `Subscriptions.Queue.Unsubscribe` | job/queue.go:545-557 | every key loses the id, and the error says whether each had it |
| `Subscriptions.RemovedIsOthers` | job/queue.go:523-536 | removing an id keeps exactly the entries of the other ids, in order |
| `Subscriptions.UnsubscribeUndoesSubscribe` | job/queue.go:501-557 | unsubscribing the same keys restores every list |
| `Service.Processor.JobExists` | proc/channel.go:26-49 | found exactly if the channel has an active job, of the type if one is given |
| `Service.Processor.AlterServiceStatus` | proc/channel.go:60-105 | the reply of each guard in order; on success the new job is the channel's only active one; other channels unchanged |
| `Service.RequestOutcome` | proc/channel.go:11-24 | from which statuses and with which active jobs each request is queued, and what is active then |
| `Service.ReplyOutcome` | proc/channel.go:74-80 | the reply names the first guard that refuses |
| `Service.ActiveCanceled` | proc/channel.go:51-58 | canceling empties the channel's active jobs and touches no other channel |
| `Service.AtMostOneActive` | proc/channel.go:60-147 | no sequence of requests, under any statuses, gives a channel two active jobs |
| `Service.TerminateStays` | proc/channel.go:78-86 | a queued terminate job survives every further request of its role |
| `AgentBilling.ProcessEachChannel` | agent/bill/monitor.go:284-305 | one check requests its change for exactly the rows its query returns, all of them or those delivered before it fails; it breaks the round if it fails before the first |
| `AgentBilling.ProcessRound` | agent/bill/monitor.go:234-243 | the five checks in their order, up to the first that breaks, seen from every channel; it reports whether none did, and channels outside the rows keep their jobs |
| `AgentBilling.RoundOutcome` | agent/bill/monitor.go:109-243 | the outcome for a channel without active jobs, written out on its row: terminated, activated, suspended or left alone |
| `AgentBilling.TerminationWins` | agent/bill/monitor.go:109-243 | after a round every channel returned by a terminating check the round reaches has an active terminate job, alone if it is new |
| `AgentBilling.TerminationIff` | agent/bill/monitor.go:272-305 | whatever jobs the channel had and whatever a failing query delivers, termination wins if and only if the channel matches the first terminating check, or the second while no inactivity limit is out of range, or the third while moreover no billed suspended channel has a zero unit price |
| `AgentBilling.FailsMeaning` | agent/bill/monitor.go:180-213 | what makes the two queries before the last terminating check fail |
| `AgentBilling.ZeroPriceExample` | agent/bill/monitor.go:180-190 | a channel suspended too long is left alone because another suspended channel is free of charge |
| `AgentBilling.RoundKeepsOneActive` | agent/bill/monitor.go:234-243 | a round never leaves two active jobs where there was at most one |
| `AgentBilling.NoTerminationOtherwise` | agent/bill/monitor.go:109-243 | every other channel gets no terminate job |
| `Lifecycle.ChannelRecord.AgentUpdateServiceStatus` | proc/worker/agent.go:349-383 | the agent's three service jobs, by the job's type and the status found |
| `Lifecycle.ChannelRecord.Handle` | proc/handlers/job.go:10-47 | every handler that writes the status, by role and job type, leaves the status the state machine gives its job |
| `Lifecycle.UnsuspendEndsActive` | sess/session.go:31-39 | from suspended, the unsuspend job and the service reporting ready end active |
| `Lifecycle.SuspendEndsSuspended` | sess/session.go:223-235 | from active, the suspend job and the end of the session end suspended |
| `Lifecycle.TerminateEndsTerminated` | sess/session.go:223-235 | from active, the terminate job and the end of the session end terminated |
| `Lifecycle.InactiveNeedsNoSession` | proc/worker/agent.go:356-369 | a service that is not active is terminated at once, and suspended at once by the agent |
| `Lifecycle.SetupEndsActiveIff` | proc/worker/agent.go:501-507 | after the setup the service becomes active when it reports ready if and only if the agent does not ask to be paid before |
| `Lifecycle.SetupEndsSuspended` | proc/worker/client.go:432 | else it is suspended, the client's at once, the agent's once its session ends |
| `Lifecycle.ChannelsTable.RecoverServiceStatuses` | data/recover.go:21-42 | two bulk updates in sequence leave every channel pending, suspended or terminated as documented |
| `Lifecycle.Recovered` | data/recover.go:18-42 | only settled statuses survive a restart; terminating and terminated become terminated, nothing else does |
| `Lifecycle.RestartSettles` | data/recover.go:18-42 | what a restart makes of every status, of a running job and of the calls in hand |
| `Lifecycle.RequestsFollowProcessor` | proc/channel.go:60-105 | the lifecycle's requests change the active rows as the processor's transaction does |
| `Lifecycle.QuietForever` | proc/channel.go:11-24 | quiescent termination is absorbing over every run of requests, session calls, jobs and restarts |
| `Lifecycle.Unquiet` | sess/session.go:218-235 | from every terminated state that is not quiescent some run leaves termination |
| `Lifecycle.TerminatedForeverIff` | sess/session.go:218-235 | a terminated service stays terminated in every run if and only if no queued, running or decided job writes another status and the setup is over |
| `Lifecycle.StopOverwritesTermination` | sess/session.go:223-235 | a session stopped while a terminate job is queued leads to a termination that does not last |
| `Sessions.Handler.ServiceReady` | sess/session.go:15-41 | asks for the completion of an activation, and of nothing else |
| `Sessions.Handler.StartSession` | sess/session.go:77-143 | a new session at the end of the table, and the same request |
| `Sessions.Handler.UpdateSession` | sess/session.go:146-199 | refused for a non-active server channel or without a session; otherwise the current session's usage and time change and nothing else |
| `Sessions.Handler.StopSession` | sess/session.go:202-255 | the completion by status; the current session stops unless the channel is terminated |
| `Sessions.Current` | sess/misc.go:46-61 | the latest session that is not stopped |
| `Sessions.StoppedIsFinal` | sess/session.go:146-255 | no later call changes a stopped session |
| `Sessions.StartOpens` | sess/session.go:111-123 | a start opens one empty session |
| `Sessions.ReportOutcome` | sess/session.go:164-173 | when a report is refused, and that nothing changes then |
| `Sessions.ReportUpdatesLatest` | sess/session.go:175-189 | an accepted report changes the latest open session: its time, and its usage added or overwritten |
| `Sessions.StopEndsOne` | sess/session.go:218-252 | a stop ends one open session while there is one and the channel is not terminated |
| `Sessions.StopEndsLatest` | sess/session.go:237-252 | it is the latest, it keeps its usage, and all others are left alone |
| `Sessions.LastTotalCounts` | sess/session.go:179-183 | a product that reports totals is billed its last report, whatever it reported before |
| `Sessions.NeverOverBills` | sess/session.go:175-187 | over every run of calls the recorded units are at most the whole mebibytes of the bytes accepted, and short of them by less than the number of reports |
| `ClientBilling.ClientChannel.ProcessChannel` | client/bill/monitor.go:179-235 | one channel of a round: terminate, cap, top up and post, in this order; it panics where it divides by a zero unit price |
| `ClientBilling.BillOutcome` | client/bill/monitor.go:193-232 | the decision, written out on the channel, the prices and the consumption |
| `ClientBilling.PostsWhenBehind` | client/bill/monitor.go:228-232 | within the deposit a cheque is posted if and only if the consumption is an interval or more ahead of the receipt, below the range where the lag wraps |
| `ClientBilling.ClientChannel.CreateAutoIncreaseJob` | client/bill/monitor.go:237-295 | no second top-up while one is outstanding |
| `ClientBilling.TopUpCreatedIff` | client/bill/monitor.go:268-295 | a wanted top-up is created if and only if none is active and the last one was completed |
| `ClientBilling.ClientChannel.AfterChannelTopUp` | proc/worker/common.go:82-97 | the deposit is saved even when the handler then fails because a balance update of the account is active |
| `ClientBilling.ClientChannel.ChequeAccepted` | client/bill/monitor.go:391-396 | the conditional update of the receipt |
| `ClientBilling.Acked` | client/bill/monitor.go:391-396 | receipts only grow, and reach the acknowledged amount |
| `ClientBilling.LagsExactly` | client/bill/monitor.go:228-230 | when the lag test in wrapping int64 arithmetic fires, for every consumption |
| `ClientBilling.UnpaidBelowIntervalIff` | client/bill/monitor.go:207-232 | if no cheque is posted the unpaid amount is below one interval's price, for every channel and any consumption, if and only if the largest lag fits an int64 or the price as computed is above every deposit |
| `ClientBilling.PostWithinDeposit` | client/bill/monitor.go:216-221 | no posted cheque exceeds the deposit |
| `ClientBilling.PostExceedsReceiptIff` | client/bill/monitor.go:215-232 | posted cheques exceed the recorded receipt, for every billable channel and any consumption, if and only if the price as computed is not below a receipt at which the lag test fires |
| `ClientBilling.ExactPriceExceeds` | data/misc.go:219-222 | a price that does not wrap never is |
| `ClientBilling.WrappedPriceExample` | data/misc.go:219-222 | a wrapped price for which they do not |
| `ClientBilling.NextChequeIff` | client/bill/monitor.go:215-232 | after an uncapped cheque is acknowledged, for any price and consumption: exactly when the lag test agrees with one more interval having been consumed, by the units credited |
| `ClientBilling.CreditedUnitsValue` | data/misc.go:219-222 | the units credited are those paid if and only if the price does not wrap |
| `ClientBilling.NextChequeUnwrapped` | client/bill/monitor.go:228-232 | for a price that does not wrap they agree if and only if the unpaid units fit an int64 |
| `ClientBilling.NextChequeAlwaysIff` | client/bill/monitor.go:215-232 | they agree at every consumption from the paid units on that an int64 can tell from them if and only if the price does not wrap, or the units credited wrap along with it |
| `ClientBilling.RepeatedChequeExample` | client/bill/monitor.go:215-232 | a wrapped price whose cheque is posted again as soon as it is acknowledged |
| `ClientBilling.TopUpsAlternate` | client/bill/monitor.go:268-295 | in every run an after-top-up job lies between two pre-top-up jobs, whatever happens to their statuses |
| `ClientBilling.AtMostOneOutstanding` | client/bill/monitor.go:268-295 | so requests outnumber completions by at most one |
| `Payment.AgentChannel.UpdateWithPayment` | pay/misc.go:164-189 | the conditional update: balance and signature change together, or the balance is invalid |
| `Payment.AgentChannel.HandlePay` | pay/pay.go:21-50 | each reply exactly under its own conditions on the row and the cheque, in the order of the checks; the row changes exactly when the cheque is accepted, to its balance and signature |
| `Payment.ReceivedWhileLive` | pay/misc.go:58-84 | a request passes the checks only while the service is not terminated and the channel is active |
| `Payment.DeadTakesNoPayment` | pay/pay.go:38-45 | over every run in which the service stays terminated or the channel closed, no request passes the checks and nothing more is paid |
| `Payment.PaymentGoesThrough` | client/bill/monitor.go:341-396 | an undisturbed payment reaches both records, with the client's signature |
| `Payment.AgentChannel.AfterChannelTopUp` | proc/worker/common.go:82-86 | the agent's deposit grows by the top-up if the sum fits its column |
| `Payment.DepositsStep` | proc/worker/common.go:82-97 | each side's deposit plus its unfinished and missed top-ups is the chain's deposit plus what its retried handlers added, without wrap-around; deposits only grow |
| `Payment.Step` | pay/misc.go:146-190 | every action, with requests interleaved between check and update, keeps the whole invariant |
| `Payment.PaymentSafety` | pay/misc.go:146-190 | over every run the invariant holds and both receipts only grow |
| `Payment.ReceiptChain` | client/bill/monitor.go:207-221 | in every reachable state client receipt <= agent receipt <= an amount the client signed <= client deposit, and agent receipt <= agent deposit, also when handlers are retried |
| `Payment.RecordsMatchChainIff` | bc/jobsmaker.go:237-244 | a side's deposit plus its unfinished top-ups is the chain's deposit if and only if what its handlers added again is what it missed; without a missed top-up, if and only if no handler was run again after its update; without such a handler, if and only if none was missed |
| `Payment.CoveredByChain` | client/bill/monitor.go:207-221 | while no handler of the client was run again after its update, no signed amount and no receipt exceeds the channel's deposit on the blockchain |
| `Payment.SignsAboveChainExample` | proc/worker/misc.go:112-120 | one retry makes the client sign an amount above it |
| `Payment.MissedTopUpExample` | bc/jobsmaker.go:237-244 | a top-up the agent's monitor did not find the channel of: its record stays below the chain, and a cheque within the client's record is refused |
| `Payment.CloseHasSignature` | proc/worker/agent.go:255-320 | a cooperative close always finds the signature of a non-zero receipt and submits a cheque the client signed |
| `Scan.RangeOfInterest` | bc/range_of_interest.go:8-37 | the assignments compute the forward range in closed form, with wrapping increment |
| `Scan.ForwardRangeBounds` | bc/range_of_interest.go:24-34 | the range in plain arithmetic over cursor, head, confirmations and limit |
| `Scan.OfferingsRangeOfInterest` | bc/range_of_interest.go:39-80 | the saturating assignments compute the backward range in closed form |
| `Scan.BackwardRangeBounds` | bc/range_of_interest.go:60-79 | the range in plain arithmetic over the stored block, the window, confirmations and limit |
| `Scan.Monitor.RunAgent` | bc/bc.go:75-124 | an agent's round: nothing below two blocks, else jobs and cursor together |
| `Scan.Monitor.RunClient` | bc/bc.go:126-242 | a client's round: both ranges and both cursors in one transaction; the start block is recorded outside it |
| `Scan.Monitor.RunRound` | bc/monitor.go:88-152 | a failed round commits neither jobs nor cursor |
| `Scan.FailedRoundCommitsNothing` | bc/monitor.go:111-151 | a round that fails or finds no account in use commits no range and moves no cursor |
| `Scan.ForwardStep` | bc/monitor.go:137-151 | no round moves the cursor back |
| `Scan.ForwardScan` | bc/range_of_interest.go:8-37 | over every run with constant settings and non-decreasing heads the committed ranges are consecutive, cover exactly what lies between base and cursor, stay below the confirmed head and within the limit |
| `Scan.ForwardScanConfirmed` | bc/range_of_interest.go:30-34 | over every run no committed range and no set cursor goes above head - confirmations |
| `Scan.ScannedExactlyOnce` | bc/range_of_interest.go:8-37 | every block after the base and up to the cursor is scanned once, every other block never |
| `Scan.AgentAdvances` | bc/bc.go:78-123 | an agent moves exactly if more than one confirmed block is ahead, and the distance then shrinks |
| `Scan.AgentNeverStarts` | bc/bc.go:78-85 | with a limit below two an unset cursor stays unset for ever |
| `Scan.PassBlocks` | bc/range_of_interest.go:60-79 | the ranges of a backward pass are adjacent, disjoint and descending |
| `Scan.BackwardScan` | bc/range_of_interest.go:60-79 | a pass searches each block of its window once, and the window holds every fresh confirmed block |
| `Scan.BackwardScanConfirmed` | bc/range_of_interest.go:60-79 | a pass searches no block with too few confirmations, and every fresh block with enough, once |
| `Scan.BackwardDescends` | bc/range_of_interest.go:64-79 | the stored block strictly decreases until the pass ends |
| `Scan.BackwardRangeSize` | bc/range_of_interest.go:71-73 | no range holds more than limit + confirmations + 1 blocks, and the pass ends with a stored zero |
| `Scan.ZeroLimitSearchesNothing` | bc/range_of_interest.go:64-77 | with a zero limit nothing is searched |
| `Scan.RoundsRunThePass` | bc/bc.go:212-241 | whatever rounds fail in between, the committed ones search the pass range by range |
| `Scan.FreshClientRunsThePass` | bc/bc.go:182-211 | a client without a start block records the first head it meets with an account in use, and its rounds search that head's pass range by range |
| `Scan.RoundsRepeatThePass` | bc/bc.go:212-241 | committed rounds of n passes search the pass n times and leave a stored zero |
| `Scan.FirstRoundOverlapsIff` | bc/bc.go:143-229 | the forward and the backward query of a fresh client's first round share a block if and only if the limit is positive and the confirmed head is fresh; they then share that head |

## Left out

- Database, setting and network errors: a failed access is a round, handler or request that does not commit. A setting error swallowed by `bc/range_of_interest.go:15-17` is not part of this model.
- Full rows saved over concurrent changes: a handler is one read-modify-write of its channel, so the loss of an update between the read and the save of two handlers of different kinds is not modelled. The queue's own stale save is (`Queue.CancelHoldsIff`).
- Lifecycle.Next: the worker's second read of a job row and its save are one action, because the gap between them is the subject of `Queue.CancelHoldsIff`; jobs reactivated by the user are not part of it.
- Lifecycle.StopOverwritesTermination: assumes that completion jobs may repeat, as the shipped configurations say, or that none is queued.
- Queue: the crash of a worker (it is part of the lifecycle and payment machines), stopping the queue, and the order in which the collector lists due jobs (any choice is allowed). The hash is a function that is not interpreted.
- JobTable: the JSON of a job's data is reduced to its transaction hash.
- Subscriptions: callbacks and the goroutines that run them.
- InitialRate.GetInitialRate: floating-point numbers are exact reals, and the value of a conversion that Go leaves to the platform is a parameter, which also covers 64 and more closings, where the shift is zero.
- AgentBilling.ProcessRound: PostgreSQL's numeric quotient is an exact real, and whether an inactivity limit is out of its range is a field of the row; billing by seconds is commented out in the source.
- AgentBilling.TerminationIff: service statuses are fixed during the round.
- ClientBilling.UnpaidBelowIntervalIff: unit prices are positive, because the lag is undefined otherwise and the round panics (`ClientBilling.ClientChannel.ProcessChannel`).
- ClientBilling.PostExceedsReceiptIff: unit prices are positive, as above.
- ClientBilling.PostsWhenBehind: consumption plus setup price stays below 2^63; every consumption is covered by `ClientBilling.LagsExactly`.
- InitialRate.TwoClosingsRate: the rate fits a uint64, as the conversion is the platform's own beyond that.
- ClientBilling.NextChequeIff: unit prices are positive, as above.
- ClientBilling.NextChequeAlwaysIff: one more interval than was paid can be counted in a uint64.
- ClientBilling.ClientChannel.ProcessChannel: the threshold of automatic top-ups, a float computation, is a parameter.
- Payment: one channel; the fields a signature covers besides the amount, the lookup of a request's channel and the encodings are not modelled. Signatures are ideal: only the client makes one that verifies. Deposits on the blockchain fit the bigint column that records them. A log whose channel is not found, or whose job fails for good, is missed; why the lookup fails is not modelled, and such a job is not reactivated.
- Sessions: the order of sessions is the order of their start; storing a counter above the largest bigint, and the password check.
- Scan: decoding of logs into jobs; heads within one of the largest uint64; changing the settings during a run.
- Channel status on the blockchain, offerings, accounts, gas prices, endpoint messages, the user interface, Tor, migrations and configuration: plumbing, or dependent on the contract, which is not part of this model.
