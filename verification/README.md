# Panelist: a verified model of the grading platform

Panelist routes grading tasks to experts, scores their grades against a rubric, settles disagreements between several
graders, pays for accepted work and delivers the approved grades. This project models the service layer as one state
machine over its tables, the in-memory port of the same rules, the SHA-256 the port carries and the canonical JSON of
an export, and proves what these promise. Every statement is for all inputs, all reachable states or all runs.

## How the model is laid out

- `Model.dfy` has the rows, the settings and the `Session` a request works on; `Tables.dfy` the shared queries.
- `Routing`, `Grading`, `Consensus`, `Payouts`, `Attention`, `Calibration`, `Rubrics`, `Delivery`, `Ops` and `Experts`
  follow the service modules of the same names: for each operation a function that says what it does to the tables,
  and a method on the session, with the branches and loops of the original, proved to do exactly that.
- `Service.dfy` has the requests, `Handle` (dispatch, and rollback when a request is refused) and `Commit`.
- `TaskInvariant` and `Invariant` hold the inductive invariant of the task tables; `Ledger` and `Books` that of the
  payouts; `Leases`, `Versions` and `Scoring` that of serves, rubric versions and stored scores. `Runs.dfy` puts them
  together over any sequence of requests.
- `Statuses`, `Exports`, `Money`, `Tiers`, `Guard`, `Queue` and `Bounds` are the consequences; `Scores` and `Windows`
  the exact arithmetic below them.
- `Submissions`, `Pauses`, `Decisions`, `Claims`, `Creations`, `Picks`, `Agreement`, `Rescoring`, `Tallies` and `RowKeys`
  say what the operations mean apart from the functions that specify them: which rows a request writes and when it is
  refused, which grade a round picks, which signals move a tier, what is counted, and what stands under each key.
- `Unguarded.dfy` is one run of the service, step by step, after which the guard has left an expert below the threshold.
- `Port.dfy` models `web/src/sim/platform.ts` (rules and class); `LockStep` and `LockStepRuns` prove that it answers
  like the service on the domain the two share.
- `Numbers`, `Json` and `Jsonl` are the canonical text of an export as CPython and as JavaScript print it, its bytes and
  what verifying checks; `Rows` is one row as JSON; `Grammar` and `Legible` read the texts back by RFC 8259, `Encodings`
  has UTF-16, UTF-8, the order of keys and where exponents start; `Portability`, `Bodies` and `LockStepExports` prove for which values,
  rows and states the two print the same.
- `Floats` has the two languages' sums of doubles over any rounding, `Weighing` the weighted score each side stores with
  them, `Binary64` rounding to 53 bits (`Rounding` is to integers), `LastDigit` submissions that show the differences.
  `Tags` ties the tags a row prints to those the queue matches.
- `Fips` is SHA-256 by FIPS 180-4, `Sha256` the typed-array implementation; `Constants` derives the tables from the
  primes, `Words` says bit by bit what the operations do.

Modelling decisions. A row's id is its position in its table, so ids grow with insertion. A request is one atomic
transaction at a clock value later than all before it; a refused request leaves the tables as they were. A violated
uniqueness constraint is the error `Integrity`, a service error `Service(code)`. Scores, weights, rates and tolerances
are reals; rounding is modelled where an amount is rounded and where an export prints a double. The rules compare exact
reals; the weighted score in a delivered row is the double each side's own summation gives, over an arbitrary rounding of
reals and arbitrary digits of doubles that both sides share, as both follow IEEE 754. Settings stay the same during a run, and those that
count things are naturals. Columns that no rule reads (ids as text, prompts, responses, rationales) are functions of the
row, fixed when it is written (`Model.Columns`). A bulk request that creates tasks is several requests that create one.
`Task.history` is the audit trail of one task's lease, with the reclaims the service counts but does not audit;
`State.served` is the trail of assignments.

Where the code guarantees less than its documentation suggests, the code is modelled and the exact case is proved:

- A claim by name ignores an earlier grade of the same expert (`Queue.NamedClaimAgain`); the repeated submission is
  then stopped only by the constraint on (task, expert) (`Invariant.SubmitOutcome`), and the port has none
  (`LockStep.RepeatDiverges`, reached by `LockStep.RepeatAfterClaim`).
- A pause by an administrator withholds nothing (`Guard.PausedByHandIsPaid`), and only the step from paused straight
  to active releases (`Guard.OnlyDirectReinstatementReleases`).
- Queued tasks follow the newest version only if nothing has been received: after a publish of a version a task on it
  stays on it for good exactly when it was not queued with nothing received (`Runs.PublishDecides`), say because it was
  held and returned (`Versions.ReleasedStaysBehind`) or submitted and rejected (`Versions.RejectedStaysBehind`).
- A passed check that brings the total up to the minimum does not run the guard: for an expert no administrator touched
  whose rate is too low, being active and having passed every check since the minimum are the same thing
  (`Runs.GuardOnFailures`), and such a state is reached (`Unguarded.ActiveBelowThreshold`).
- The port's comment says its export is byte for byte the service's. `LockStepExports.RunBytes` says exactly when: when
  every row is portable and the two weighted scores stored for it print the same digits.
  - Portable rows (`Bodies.RowPortable`) have plain texts (up to tilde, or a surrogate without its other half), scores
    that are the positive zero, of a magnitude in [1e-4, 1e16) or below 1e-9, and ints that the port holds as doubles of
    the same digits. Between 1e-9 and 1e-4 and from 1e16 on one side prints an exponent, or pads it, and the other does
    not; a negative zero keeps its sign only on the service (`Bodies.ScoreDiffers`, `LastDigit.NegativeZero`). Every int
    up to 2^53 is portable (`Numbers.SafeInteger`); 2^60 and 2^53 + 1 are not (`Numbers.TwoToSixty`,
    `LastDigit.OddInteger`).
  - The service adds up with the compensated builtin, the port with a plain reduction. Weights 0.5, 0.3 and 0.2 scored 1,
    1 and 2 are stored as 1.2 and as 1.2000000000000002 (`LastDigit.ScoresDiffer`), and no export with such a row is the
    same bytes (`LockStepExports.LastDigitBytes`). The two stored doubles are equal where neither sum is corrected
    (`Weighing.UncorrectedAgree`), so where nothing is rounded, as with whole weights and scores whose products add up to
    no more than 2^53 (`Weighing.WholeScores`).
- The port's canonical text is not always JSON: it puts `.0` behind every whole number in a float field, so 1e21 becomes
  `1e+21.0` (`Grammar.HugeScore`). A row is read back from its line exactly when no such number reaches 1e21
  (`Legible.PortRowReads`); from the service's line it always is (`Grammar.ServiceLineReads`).

## Model

| member | source | states |
|---|---|---|
| `Invariant.CommitInv` | panelist/services/grading.py:25-166 | Every request, accepted or refused, keeps the invariant that ties each task row to its grades, reviews, round and lease, with one grade a (task, expert) and one review a grade |
| `Runs.StepSound` | panelist/db.py:45-50 | Every request, committed or rolled back, keeps the whole invariant together: tasks, payouts, serves, rubric versions and their chain, export numbers, stored scores and the order of timestamps |
| `Runs.StartSound` | panelist/models.py:228-299 | The empty database satisfies it, so every reachable state does |
| `Service.Handle` | panelist/main.py:49-52 | A request handled on the session has exactly the effect `Commit` gives it, so every theorem about runs speaks of it; a refused one reports its error and leaves all thirteen tables as they were |
| `Model.Session.Rollback` | panelist/db.py:45-50 | Sets all thirteen tables to those of the state it is given; `Service.Handle` gives it the one the request started from |
| `TaskInvariant.SubmitKeeps` | panelist/services/grading.py:73-82 | The row and round a submission leaves satisfy the task invariant for golden, single-grader and multi-grader tasks |
| `TaskInvariant.ReviewKeeps` | panelist/services/grading.py:139-166 | So do the row and round after a review, with the redelivery a rejection may cause |
| `TaskInvariant.ResolveKeeps` | panelist/services/consensus.py:159-206 | So do the row and round after an adjudication, which meets no reviewed grade |
| `TaskInvariant.RedeliveredPick` | panelist/services/consensus.py:95-127 | A redelivery picks a grade that is not rejected, an approved one if there is one, and none exactly when all are rejected |
| `Invariant.SubmitOutcome` | panelist/services/grading.py:25-90 | In a reachable state a valid submission by the holder is refused exactly when it names another rubric version (409) or the expert already graded the task (the constraint); the lease time is not looked at and the round constraint is never hit |
| `Grading.SubmitGrade` | panelist/services/grading.py:25-90 | A submission on the session changes the tables as the function `TaskInvariant.SubmitKeeps` and `Ledger.SubmitGuarded` are proved about says; it is refused as `Submissions.SubmitRefused` states |
| `Grading.StoredScore` | panelist/services/grading.py:55-56 | In doubles the stored score is the quotient of two builtin sums, a total of zero standing for one: the score `LastDigit.ScoresDiffer` compares with the port's |
| `Submissions.SubmitRefused` | panelist/services/grading.py:34-53 | In a reachable state a submission is refused with 404, 409, 409, 422 or the constraint for exactly these reasons in this order: no such task, not held by the expert, another rubric version than the leased one, scores that are not exactly the criteria each on its scale, an earlier grade by the expert |
| `Submissions.SubmitWrites` | panelist/services/grading.py:57-82 | An accepted one adds one grade of that task, expert, leased version, sheet and time, ends the lease, counts one received and leaves the task queued (golden, or graders missing), in adjudication (a round opened without agreement) or submitted; no other task and no other table changes but rounds, checks, experts, payouts and moves |
| `Submissions.SubmittedScore` | panelist/services/grading.py:55-64 | The grade stores the weighted score of its sheet under the criteria of the leased version |
| `Submissions.OneScoreMoves` | panelist/services/grading.py:55-56 | Moving one score moves the weighted score by that criterion's share of the total weight |
| `Submissions.EqualScores` | panelist/services/grading.py:55-56 | Equal scores weigh as much as each of them, and nothing where the weights add up to nothing; with `Submissions.OneScoreMoves` that determines the weighted score |
| `Grading.ReviewGradeNow` | panelist/services/grading.py:139-166 | A review on the session changes the tables as the function `TaskInvariant.ReviewKeeps` and `Books.ReviewUnpaid` are proved about says, errors in the code's order |
| `Decisions.ReviewRefused` | panelist/services/grading.py:130-145 | In a reachable state a review is refused for exactly these reasons: no such grade (404), reviewed already or a task waiting for graders or an adjudicator (409), an approval of a grade nobody set a rate for (422) |
| `Decisions.ReviewWrites` | panelist/services/grading.py:146-165 | An accepted one adds that review; its task is approved, sent back with one received less, rejected, or as it was; an approval adds one payout of the whole rate for that grade, a rejection none |
| `Consensus.EvaluateRound` | panelist/services/consensus.py:61-92 | Evaluating on the session opens the round `Picks.SubmissionPicks` characterises by counts and totals over the grades, or hits the one-round constraint |
| `Picks.SubmissionPicks` | panelist/services/consensus.py:56-92 | The round an accepted submission opens counts the grades of the task, has as spread the least distance all their scores are within, is agreed exactly if that is within the tolerance, and then delivers the grade d for which, with n grades and their scores' total, abs(n * score(d) - total) is least, ties to the earlier and then the lower id; otherwise it waits for an adjudicator |
| `Picks.MeanBalances` | panelist/services/consensus.py:57 | The deviations of the scores from a number add up to zero if and only if it is the mean the pick compares with |
| `Consensus.RedeliverRound` | panelist/services/consensus.py:95-127 | Redelivering on the session makes the pick `Picks.RedeliveryPicks` characterises, and only when the rejected grade was the selected one of an agreed round |
| `Picks.RedeliveryPicks` | panelist/services/consensus.py:95-127 | A rejection of the delivered grade of an agreed round picks, in the same sense, the nearest of the approved grades, or if there is none of the unreviewed ones, and none exactly when all are rejected; any other review leaves the pick alone |
| `Consensus.ResolveRound` | panelist/services/consensus.py:159-206 | The adjudication loop has the effect of the recursive function `Ledger.ResolvePayouts` and `Tiers.ResolveMoves` are proved about, and stops at its first error |
| `Books.ResolveNeverAborts` | panelist/services/consensus.py:174-189 | In every reachable state an adjudication never hits a uniqueness constraint |
| `Decisions.ResolveRefused` | panelist/services/consensus.py:159-169 | In a reachable state an adjudication is refused for exactly these reasons: no round (404), a round that is not waiting (409), a grade that is not one of the task (422), a grade it would pay without a rate (422) |
| `Decisions.ResolveWrites` | panelist/services/consensus.py:170-206 | An accepted one approves the task, settles the round on the grade named, gives every grade of the task one review that approves it exactly if it is that grade, and adds one payout for each that earns something under the outvoted rule, at that share of its rate, and no other |
| `Statuses.SingleGrader` | panelist/services/grading.py:93-108 | A regular single-grader task never has a round or the status adjudication or rejected, and grades_received counts its grades that are not rejected |
| `Statuses.RequeueExact` | panelist/services/grading.py:99-100 | Requeueing takes off exactly one grade: the clamp at zero never binds |
| `Statuses.GoldenTask` | panelist/services/grading.py:77-79 | Golden tasks are only queued or assigned, never have a round, and count every grade |
| `Statuses.MultiGrader` | panelist/services/grading.py:130-136 | The status of a multi-grader task is equivalent to a condition on its round and its reviews, for each status |
| `Statuses.BacklogIsAdjudication` | panelist/services/consensus.py:141-147 | The backlog counted over rounds equals the adjudication count of the queue summary over tasks |
| `Statuses.DeliveredGrade` | panelist/services/consensus.py:61-127 | Through any reviews a settled round delivers a grade of its task that is not rejected, and none if and only if all are |
| `Statuses.DeliveredApproved` | panelist/services/consensus.py:112-115 | Once every grade is reviewed and one approved, the delivered grade is approved |
| `Statuses.DeliveredWithinTolerance` | panelist/services/consensus.py:67-76 | The grade an agreed round delivers, first or after rejections, is within tolerance of every grade of the task |
| `Statuses.RoundOneVersion` | panelist/services/rubrics.py:32-40 | All grades of a multi-grader or golden task carry the task's rubric version under any interleaving with publishes |
| `Versions.AcceptedCurrent` | panelist/services/rubrics.py:32-40 | A task that was never assigned is on a version that is not superseded, and every request keeps it so; all other tasks are decided by `Runs.PublishDecides` |
| `Versions.PublishTakes` | panelist/services/rubrics.py:32-40 | A publish leaves a task on the version if and only if it is not queued with nothing received |
| `Versions.SupersededStays` | panelist/services/rubrics.py:17-40 | No accepted request puts a task on a superseded version or takes one off it |
| `Runs.PublishDecides` | panelist/services/rubrics.py:32-49 | After an accepted publish, a task on the version is on it in every later state of every run if and only if it was not queued with nothing received |
| `Versions.ReleasedStaysBehind` | panelist/services/routing.py:159-170 | Releasing a task held during the publish queues it, ungraded, on the superseded version |
| `Versions.RejectedStaysBehind` | panelist/services/grading.py:93-108 | Rejecting the grade of a single-grader task submitted before the publish queues it with nothing received on the superseded version |
| `Rubrics.PublishVersion` | panelist/services/rubrics.py:17-63 | Publishing on the session inserts, supersedes and retargets as the function `Runs.PublishDecides` rests on, and returns how many tasks follow and how many open ones stay behind |
| `Creations.PublishMeans` | panelist/services/rubrics.py:17-31 | A publish is a 422, 404, 409 or the constraint for exactly these reasons: no criteria, no such version, superseded already, a key twice; otherwise the new version has the criteria given, the same name and the number after the largest of that name, and the old one points to it and is otherwise as it was |
| `Tallies.VersionCounted` | panelist/services/rubrics.py:32-49 | Those two counts are the tasks on the version that are queued with nothing received, and those queued or assigned |
| `Creations.RubricMeans` | panelist/routers/rubrics.py:15-29 | A first version has the name, number and criteria given, or is a 422 without criteria, or the constraint if a key comes twice or the number is taken |
| `Creations.TaskMeans` | panelist/routers/tasks.py:17-35 | A created task is queued, ungraded and unleased with the columns of its input; it is refused with 422, 409, 422 or the constraint for exactly these reasons: no tag or not one to five graders, a superseded version, a golden task without expected scores, no such version |
| `Creations.ExpertMeans` | panelist/routers/experts.py:16-28 | A created expert is active, with the tags, tier and rate given, nothing served and nothing scored |
| `Rubrics.OpenSplits` | panelist/services/rubrics.py:32-49 | Those two counts add up to the open tasks the version had, and the open tasks of the new version are those that followed |
| `Rubrics.PublishNeverCollides` | panelist/services/rubrics.py:21-29 | A publish with distinct keys succeeds exactly when the previous version is not superseded: the next number is never taken |
| `Versions.AcceptedChain` | panelist/services/rubrics.py:25-31 | Every request keeps version numbers distinct within a name and every superseded version pointing to a later one with a larger number |
| `Versions.Newest` | panelist/services/rubrics.py:30-31 | Following the pointers from any version ends at one of the same name that is not superseded and not older |
| `Scores.WeightedWithinScale` | panelist/services/grading.py:55-56 | With non-negative weights of positive total the weighted score lies within any scale holding the scores |
| `Scores.WeightedDifference` | panelist/services/grading.py:55-56 | Two graders at most delta apart on each criterion are at most delta apart in the weighted score |
| `Scores.PickWithinHalfSpread` | panelist/services/consensus.py:56-58 | The picked grade is within half the spread of the mean |
| `Scores.PickOrderIndependent` | panelist/services/consensus.py:56-58 | The pick does not depend on the order the grades are read in |
| `Scores.SpreadIsLeast` | panelist/services/consensus.py:67-69 | The spread is at most delta if and only if every two scores are within delta |
| `Scoring.AcceptedScored` | panelist/services/grading.py:40-65 | Every stored grade stays valid for, and weighted by, the criteria of its version through all later requests |
| `Scoring.StoredWithinScale` | panelist/services/grading.py:48-56 | A stored score lies within the criteria scales |
| `Scoring.CloseGradersAgree` | panelist/services/consensus.py:61-78 | Graders pairwise within delta on every criterion have a round of spread at most delta, agreed if delta is within tolerance |
| `Calibration.UpdateExpert` | panelist/services/calibration.py:56-88 | Updating on the session moves the tier as `Agreement.UpdateCounts` states by counting reviews and checks, reports exactly whether it moved, and leaves the experts before it in the table alone |
| `Agreement.ReviewSignalsAre` | panelist/services/calibration.py:27-33 | For every time and outcome an expert has as many review signals as there are reviews of their grades at that time with that outcome, agreeing exactly if they approve |
| `Agreement.CheckSignalsAre` | panelist/services/calibration.py:34-39 | And as many check signals as they have checks at that time, agreeing exactly if passed |
| `Agreement.UpdateCounts` | panelist/services/calibration.py:56-88 | With the window reaching back to some time, a the approvals and passed checks since and n all reviews and checks since: the update moves junior to senior and senior to lead if n is at least the minimum and a >= promoteAt * n, lead to senior and senior to junior if a <= demoteAt * n instead, and else nobody; it stores a / n and n, records exactly that move and touches no other expert |
| `Rescoring.ReviewRescores` | panelist/services/grading.py:165 | An accepted review does that for the author of the grade, by the reviews and checks on record after it |
| `Rescoring.CheckRescores` | panelist/services/grading.py:85-89 | An accepted submission with a check does it for its expert |
| `Rescoring.ResolveRescores` | panelist/services/consensus.py:174-189 | An accepted adjudication does it for the author of every grade of its task, by what is on record after the whole loop |
| `Rescoring.TickRescores` | panelist/services/ops.py:166-170 | A tick does it for every expert |
| `Agreement.AllAgreed` | panelist/services/calibration.py:65-66 | A window of nothing but approvals and passes, enough of them, moves junior to senior, senior to lead and leaves lead |
| `Agreement.AllDisagreed` | panelist/services/calibration.py:67-68 | The mirror image for rejections and failures |
| `Agreement.CutoffExists` | panelist/services/calibration.py:40-41 | The window does reach back to some time where no two signals of the expert have the same time |
| `Windows.MergeSorts` | panelist/services/calibration.py:40 | The merge holds exactly the rows of both streams, newest first |
| `Windows.TruncatedMerge` | panelist/services/calibration.py:25-41 | Cutting both streams to the window before merging and again after gives the newest window of the full merge |
| `Tiers.WindowOfHistory` | panelist/services/calibration.py:25-41 | The flags `signals` reads are the newest window of the expert's whole merged history |
| `Tiers.HistoryOrdered` | panelist/services/calibration.py:40 | In every reachable state that history is ordered newest first and holds exactly the expert's reviews and checks |
| `Tiers.AcceptedTimes` | panelist/services/calibration.py:31-38 | Every request keeps reviews and checks stored in the order they were made |
| `Windows.BandDistance` | panelist/services/calibration.py:65-68 | Between clearing one edge of the band and the other at least (promote - demote) * min_samples signals arrive |
| `Tiers.AcceptedMoves` | panelist/services/calibration.py:56-88 | Every move any request records is one tier up at the promote edge or one down at the demote edge of the signals after it |
| `Tiers.UpdateSettles` | panelist/services/calibration.py:64-70 | With no fresh signal a second update never turns back and a third changes nothing |
| `Runs.HistoryGrows` | panelist/services/calibration.py:25-41 | Along any run an expert's signals only grow, at the newest end |
| `Runs.HysteresisDistance` | panelist/services/calibration.py:51-88 | Two opposite moves of one expert anywhere in a run lie at least (promote - demote) * min_samples fresh signals apart |
| `Ops.TickNow` | panelist/services/ops.py:162-209 | A tick on the session refines the specification and returns the reclaimed leases, the experts scored, exactly the moves recorded, and the counts of uncalibrated experts, unbilled payouts and cents, adjudication backlog, tasks rejected twice and approved tasks undelivered that the tables after it give |
| `Tallies.ExpiredCounted` | panelist/services/routing.py:42-53 | The reclaimed leases are as many as there are assigned tasks whose lease has run out |
| `Tallies.UncalibratedCounted` | panelist/services/ops.py:179-180 | The uncalibrated experts are as many as have fewer samples than the minimum |
| `Tallies.RejectedTwiceCounted` | panelist/services/ops.py:68-83 | The tasks rejected twice are as many as there are regular single-grader tasks with two different reviews rejecting grades of theirs |
| `Tallies.UndeliveredCounted` | panelist/services/ops.py:45-65 | The undelivered tasks are as many as there are approved regular tasks with a round whose pick is none or not approved |
| `Tallies.BacklogCounted` | panelist/services/consensus.py:141-147 | The backlog is as many as there are rounds waiting for an adjudicator |
| `Ops.ScoreExperts` | panelist/services/ops.py:166-181 | The tick's loop refreshes every expert as the recursive specification does, and lists exactly the moves it made |
| `Money.UnbilledIsPending` | panelist/services/ops.py:86-104 | In every reachable state the unbilled payouts a tick reports are the pending ones, in number and cents |
| `Tiers.TickRefreshes` | panelist/services/ops.py:162-180 | After a tick no lease is expired and every expert's stored score and sample count are those of their signals |
| `Attention.Evaluate` | panelist/services/attention.py:20-42 | The deviation loop computes the specified check and writes exactly that |
| `Attention.WithinMeansEach` | panelist/services/attention.py:25-30 | A check passes exactly when each expected score is met within tolerance, a missing key counting as zero |
| `Pauses.CheckMeans` | panelist/services/attention.py:20-42 | A submission leaves a check exactly on a golden task with expected scores; it is passed exactly if every expected score is met within the tolerance, a missing one counting as zero, and its deviation is the largest of the gaps |
| `Attention.EnforceGuard` | panelist/services/attention.py:60-90 | The guard on the session pauses and withholds as `Runs.GuardStep` states and returns true exactly when it paused |
| `Pauses.TripsMeans` | panelist/services/attention.py:45-72 | With the window reaching back to some time, the rate is too low exactly if there are at least the minimum of checks since then and fewer passes than the threshold times their number |
| `Pauses.GuardMeans` | panelist/services/attention.py:60-90 | A submission pauses its expert exactly if it failed its check, that holds after it and they were not paused; then exactly what was pending for them is withheld; no other expert and no other payout changes |
| `Windows.PassNeverLowers` | panelist/services/attention.py:45-57 | A passed check never lowers the rolling rate, whether the window grows or is full |
| `Runs.GuardOnFailures` | panelist/services/grading.py:85-89 | Over any run in which no administrator touches an existing expert, if they have enough checks and too low a rate then they are active if and only if every check since the minimum was reached was passed, and paused otherwise |
| `Unguarded.ActiveBelowThreshold` | panelist/services/grading.py:85-89 | A run from the empty tables, two failed checks and then a passed one under a minimum of three, ends with an active expert whose rate is below the threshold |
| `Runs.GuardStep` | panelist/services/attention.py:73-80 | The step in which the guard pauses an expert leaves them nothing pending |
| `Runs.FrozenUnpaid` | panelist/services/attention.py:60-90 | From there until an administrator sets their status nothing of theirs is pending and nothing is paid, whatever reviews, adjudications and closes happen |
| `Guard.PausedByHandIsPaid` | panelist/routers/experts.py:120-123 | After an administrator's pause a pending payout is paid by the next close |
| `Guard.OnlyDirectReinstatementReleases` | panelist/routers/experts.py:120-123 | A status change alters payouts if and only if it goes from paused straight to active and something is withheld |
| `Experts.SetExpertStatus` | panelist/routers/experts.py:109-133 | The status change on the session releases as `Guard.OnlyDirectReinstatementReleases` states, or is a 404 |
| `Tallies.StatusWrites` | panelist/routers/experts.py:109-123 | A status change is a 404 or sets the status, and makes pending exactly what was withheld from that expert if it goes from paused to active, and else nothing |
| `Books.AcceptedBooks` | panelist/services/payouts.py:40-89 | Every accepted request keeps the books: one payout a grade, for exactly the approved grades and those outvoted under a paying rule, paid if and only if in a period, and rows that change only as allowed |
| `Books.ReviewUnpaid` | panelist/services/payouts.py:44-46 | The branch returning an existing payout is never taken by a review |
| `Books.AdjudicationUnpaid` | panelist/services/payouts.py:44-46 | Nor by an adjudication |
| `Books.PairsDistinct` | panelist/models.py:316 | No two payouts share task and expert, so that constraint never aborts a request |
| `Ledger.ResolvePayouts` | panelist/services/consensus.py:174-189 | An adjudication pays what the state before it says, although its loop reviews and moves tiers meanwhile |
| `Ledger.EarnedRowsPermuted` | panelist/services/payouts.py:40-63 | The rows earned by a list of verdicts are the same multiset for any order of the list |
| `Books.LoopOrderIrrelevant` | panelist/services/consensus.py:174-189 | Two orders of the same unpaid, unreviewed grades: the loop succeeds on one if and only if on the other, and then the payouts are the same rows |
| `Books.AdjudicationOrderIrrelevant` | panelist/services/consensus.py:159-206 | In a reachable state the order in which an adjudication visits the grades of its task changes neither whether it succeeds nor what is paid |
| `Payouts.CreatePayout` | panelist/services/payouts.py:40-63 | Creating a payout on the session adds the row `Books.AcceptedBooks` accounts for, or none where one exists, or fails without a rate |
| `Decisions.VerdictPays` | panelist/services/payouts.py:30-63 | A verdict that earns something pays one row, unless there is no rate: for the grade's author and task, at their tier and type, withheld exactly while the author is paused, of the integer nearest to the share of the author's own rate, else their tier's for the type, else their tier's default |
| `Payouts.Close` | panelist/services/payouts.py:76-89 | Closing on the session pays the rows `Money.CloseMovesPending` totals, or refuses a label already used |
| `Tallies.CloseWrites` | panelist/services/payouts.py:76-89 | A close is a 409 for a label in use, and else pays exactly the payouts that are pending and in no period, into the new one |
| `Tallies.PayoutsCounted` | panelist/services/payouts.py:92-122 | A ledger count is the number of payouts in that status, period or both, or of that expert in that status |
| `Tallies.CentsOfOne` | panelist/services/payouts.py:92-122 | A total grows by the amount of every payout it counts and by nothing else |
| `Rounding.RoundIsNearest` | panelist/services/payouts.py:47 | The amount is the one nearest integer, ties to even |
| `Money.AmountBounds` | panelist/services/payouts.py:47 | For a fraction in [0, 1] it is between zero and the rate, within half a cent of the product, and the rate itself for fraction one |
| `Money.AmountMonotone` | panelist/services/payouts.py:47 | A larger fraction never pays less |
| `Money.EarnedRowMeans` | panelist/services/payouts.py:48-57 | The row of a verdict is for its grade's author and task, at their tier and type, in no period, withheld exactly while the author is paused |
| `Money.EarnedAmount` | panelist/services/payouts.py:47 | Its amount is the nearest integer to the rate times the share the verdict earns, between zero and the rate |
| `Money.CloseMovesPending` | panelist/services/payouts.py:76-89 | A close moves exactly the pending total and count into the new period, leaves the withheld total alone and keeps the grand total |
| `Money.GrandGrows` | panelist/services/payouts.py:110-140 | The grand total changes only by the rows a request adds: pauses, releases and closes preserve it |
| `Money.BooksAgree` | panelist/services/payouts.py:92-140 | Period totals sum to the paid total, expert rows to each status, and what is pending is in no period |
| `Runs.ReachableLedger` | panelist/services/payouts.py:92-140 | The same in every state any sequence of requests reaches |
| `Runs.PeriodsFinal` | panelist/services/payouts.py:92-107 | A closed period's label, count and total never change again |
| `Queue.PickLeast` | panelist/services/routing.py:76-90 | The pick goes before every other candidate in (priority, deadline, sequence) order, and is none exactly when there is no candidate |
| `Queue.DrainInOrder` | panelist/services/routing.py:111-133 | Undisturbed, repeated claims serve exactly the eligible regular tasks, each once, in queue order, and then nothing |
| `Queue.NamedClaim` | panelist/services/routing.py:136-156 | For an ungraded task a claim by name is accepted exactly when the queue would offer it |
| `Queue.NamedClaimAgain` | panelist/services/routing.py:136-156 | For a graded one the queue never offers it and a claim by name is accepted all the same |
| `Routing.ClaimNextTask` | panelist/services/routing.py:111-133 | A claim on the session has the outcome and effect `Claims.QueueClaimMeans` and `Claims.ClaimTiers` state in terms of the rows, the 423 of an expert who is not active included |
| `Claims.QueueClaimMeans` | panelist/services/routing.py:111-133 | Of the free tasks (queued, or on a lease that has run out) that share a tag with the expert, whose minimum tier they have and that they have not graded, a claim serves the first golden one if this serve prefers a check and there is one, else the first regular one, else nothing: by higher priority, then the earlier deadline with none last, then the older task; the task is theirs until the lease ends, on the version it had, other leases that have run out are returned, and nothing else changes |
| `Routing.ClaimTaskById` | panelist/services/routing.py:136-156 | A claim by name on the session has the outcome and effect `Claims.NamedClaimMeans` states in terms of the rows, errors in the code's order |
| `Claims.NamedClaimMeans` | panelist/services/routing.py:136-156 | A claim by name is 423 unless the expert is active, 404 without the task, 409 unless it is free, 403 without a shared tag, 403 if it needs a lead and they are none or a senior and they are a junior, and succeeds otherwise |
| `Claims.ClaimTiers` | panelist/services/routing.py:24-37 | After an accepted claim by queue or by name a lead task is held by a lead and a senior task by a senior or a lead |
| `Routing.ReleaseTask` | panelist/services/routing.py:159-170 | A release on the session clears the lease as `Leases.AcceptedLeases` counts it, or is a 404 or 409 |
| `Claims.ReleaseMeans` | panelist/services/routing.py:159-170 | A release is a 404 without the task and a 409 unless the expert holds it; else it puts that task back in the queue without a lease and changes nothing else |
| `Claims.ReclaimMeans` | panelist/services/routing.py:40-53 | A reclaim puts the tasks back whose lease has run out, counts it, and changes nothing else |
| `Leases.GradeFollowsGrant` | panelist/services/routing.py:40-73 | In a valid lease trail a grade comes directly after the assignment of the task to its author |
| `Runs.GradeHasGrant` | panelist/services/grading.py:37-38 | Every grade in a reachable state has such an assignment directly before it |
| `Leases.AcceptedLeases` | panelist/services/routing.py:56-73 | Every request keeps each expert's served_count and each task's assignments equal to the assignment rows |
| `Runs.ReachableLeases` | panelist/services/routing.py:40-73 | Holder, assigned_at and lease are set together, exactly while assigned; a task's assignments are its reclaims, releases and grades, plus one while held; over all tasks they sum to the served counts |
| `Bounds.WorkBounded` | panelist/models.py:228-250 | Reviews never exceed grades, grades never tasks times experts |
| `Bounds.RejectionsBounded` | panelist/models.py:228-250 | In a reachable state at most as many grades of a task are rejected as there are experts |
| `Runs.RequeuesBounded` | panelist/services/grading.py:93-108 | Along any run a reviewer rejects work of one expert on one task, and so sends it back to the queue because of them, at most once |
| `Runs.SubmissionsBounded` | panelist/services/grading.py:25-90 | A run ending with T tasks and E experts has accepted at most T * E submissions |
| `Exports.SelectedIsRow` | panelist/services/delivery.py:16-29 | A grade is selected exactly when it is the one row of its task |
| `Exports.RowsMember` | panelist/services/delivery.py:16-29 | The sorted rows are exactly the selected grades |
| `RowKeys.RowsAre` | panelist/services/delivery.py:18-29 | A grade has a row exactly when a review approved it, its task is not golden, and its round, if there is one, delivers it |
| `Exports.RowsAscend` | panelist/services/delivery.py:28 | Rows strictly ascend by task: at most one row a task |
| `Exports.RowsAccounted` | panelist/services/ops.py:45-65 | Rows plus undelivered approved tasks equal the approved regular tasks |
| `Runs.ReachableDeliveries` | panelist/services/ops.py:45-65 | The same, and the backlog equation, in every reachable state |
| `Runs.AcceptedNumbered` | panelist/services/delivery.py:125-142 | Every request keeps the export versions one, two, three and so on, and each delivery recorded as what it stores |
| `Delivery.BuildJsonl` | panelist/services/delivery.py:63-66 | The body on the session is the UTF-8 of one line a row, of the values `RowKeys.ServiceTaskKeys` and the rows after it look up by key, and the count is the number of rows `Exports.RowsAccounted` counts |
| `RowKeys.ServiceTaskKeys` | panelist/services/delivery.py:33-38 | Row i holds under "task_id", "external_ref", "task_type", "required_tags" (sorted), "prompt" and "responses" those columns of the task of the i-th grade selected |
| `RowKeys.ServiceGradeKeys` | panelist/services/delivery.py:44-52 | Under "expert_id", "expert_tier", "weighted_score", "rationale" and "time_spent_seconds" the author's and the grade's |
| `RowKeys.ServiceInnerKeys` | panelist/services/delivery.py:39-53 | In "rubric" the id, name and number of the grade's version, in "scores" under each key the score of that criterion and nothing else, and no consensus for a task without a round |
| `RowKeys.ServiceRoundKeys` | panelist/services/delivery.py:53-59 | In "consensus" the status, number of graders and spread of the task's round |
| `RowKeys.PortKeys` | web/src/sim/platform.ts:713-736 | The same keys of the port's rows hold the columns of its tables |
| `Delivery.ExportRows` | panelist/services/delivery.py:125-142 | An export on the session stores that body of the rows `RowKeys.RowsAre` selects under the next version with its checksum, row count and size |
| `Runs.AcceptedExports` | panelist/services/delivery.py:125-143 | Only an export adds a delivery, and it adds exactly one |
| `Runs.ReachableExports` | panelist/services/delivery.py:105-122 | In every reachable state every stored object verifies: reading it back finds the recorded SHA-256, the number of its rows and its size |
| `Runs.ExportsFinal` | panelist/services/delivery.py:78-95 | Along any run the deliveries before it stay as they were, objects and records included |
| `Port.Platform.ReclaimExpired` | web/src/sim/platform.ts:280-294 | The loop reclaims exactly the expired unlocked rows and returns their number |
| `Port.Platform.Claim` | web/src/sim/platform.ts:347-359 | A claim on the platform has the outcome and effect `LockStep.ClaimView` compares with the service |
| `Port.Platform.ClaimNamed` | web/src/sim/platform.ts:365-385 | A claim by name reclaims expired leases, refuses locked and taken rows and locks the row when asked to hold it |
| `Port.Platform.ReleaseTask` | web/src/sim/platform.ts:392-403 | A release on the platform has the effect compared with the service in `LockStepRuns.StepView`, or changes nothing |
| `Port.Platform.WeightedScore` | web/src/sim/platform.ts:438-442 | The two reductions compute the weighted score over exact reals |
| `Port.Platform.StoredScore` | web/src/sim/platform.ts:438-442 | Over doubles they compute the score `LastDigit.ScoresDiffer` compares with the service's |
| `Port.Platform.SubmitGrade` | web/src/sim/platform.ts:445-477 | A submission on the platform has the outcome and effect `LockStep.SubmitView` compares with the service |
| `Port.Platform.RestatePayouts` | web/src/sim/platform.ts:513-536 | The loop restates exactly the expert's payouts in the first status and returns their number |
| `Port.Platform.EnforceAttention` | web/src/sim/platform.ts:513-522 | The guard's loop withholds exactly the pending payouts of the paused expert, and returns true exactly when the status changed |
| `Port.Platform.Reinstate` | web/src/sim/platform.ts:525-536 | The loop releases exactly the withheld payouts and returns how many there were |
| `Port.Platform.ReviewGrade` | web/src/sim/platform.ts:576-594 | A review on the platform has the effect `LockStep.ReviewView` compares with the service; the decision stays when the payout throws for want of a rate |
| `Port.Platform.Close` | web/src/sim/platform.ts:601-614 | The close loop pays exactly the pending rows outside a period and returns the totals of the new period |
| `Port.Platform.SumPeriod` | web/src/sim/platform.ts:616-626 | The totals of a period are the number of its payouts, their sum and the number of different experts |
| `Port.Platform.Ledger` | web/src/sim/platform.ts:628-651 | One row for each expert and status with payouts, with their count and total; the totals and counts by status and the grand total are those of the table |
| `Port.Platform.BuildJsonl` | web/src/sim/platform.ts:739-747 | The body is one line a row, of the values `LockStepExports.ValuesView` compares with the service's, and the count is the number of rows |
| `Port.Platform.ExportDelivery` | web/src/sim/platform.ts:750-767 | The export takes the next version and the rows `LockStep.ExportView` compares with the service, and records the checksum, row count and UTF-8 size of its body |
| `LockStep.PickView` | web/src/sim/platform.ts:309-329 | Filtering, sorting and taking the first picks the row of the service's ordered query |
| `LockStep.ClaimView` | web/src/sim/platform.ts:347-359 | Claims agree in outcome and state |
| `LockStep.SubmitView` | web/src/sim/platform.ts:445-522 | Submissions that move no tier agree in outcome and state, with attention verdicts and pauses |
| `LockStep.ReviewView` | web/src/sim/platform.ts:552-594 | Reviews that move no tier agree in outcome and state, with payouts |
| `LockStep.ExportView` | web/src/sim/platform.ts:713-736 | Exports pick the same grades in the same order under the same version; `LockStepExports.BytesView` compares what they print |
| `LockStep.RepeatDiverges` | web/src/sim/platform.ts:445-477 | Outside the domain, a repeated submission is refused by the service's constraint and accepted by the port |
| `LockStep.RepeatAfterClaim` | web/src/sim/platform.ts:365-385 | One claim by name leads there, in both, from any shared state with a queued task the expert has graded |
| `LockStep.GoldenGoesBack` | panelist/services/grading.py:77-79 | And every accepted submission on a golden task leaves such a state |
| `LockStepRuns.StepView` | tests/test_port_conformance.py:201-243 | One request of the shared domain that moves no tier gets the same answer from both and leads to corresponding states in the domain |
| `LockStepRuns.PortRefinesService` | tests/test_port_conformance.py:201-243 | Under any settings, over every run of the shared domain in which no tier moves both give the same answers and end in corresponding tables: tasks, experts, grades, payouts, periods, checks and exports |
| `LockStepRuns.FixedTiersRefine` | panelist/services/calibration.py:56-63 | With a window shorter than the sample minimum no run moves a tier, so every run of the domain is covered |
| `LockStepRuns.SharedStart` | web/src/sim/platform.ts:186-202 | Both start from one rubric scored from one to five |
| `Fips.PaddedLength` | web/src/sim/sha256.ts:19-25 | The padded length is the least multiple of 64 that holds message, mark and length |
| `Fips.PaddingInjective` | web/src/sim/sha256.ts:19-25 | Different messages have different paddings |
| `Sha256.Pad` | web/src/sim/sha256.ts:19-25 | The typed-array padding is that of section 5.1.1 of FIPS 180-4, with the size rounded by 32-bit shifts |
| `Sha256.Rotate` | web/src/sim/sha256.ts:14-16 | The signed rotation is the rotation of the unsigned word |
| `Sha256.FillSchedule` | web/src/sim/sha256.ts:31-39 | The loop fills in the recursive message schedule |
| `Sha256.RunRounds` | web/src/sim/sha256.ts:40-52 | The loop over eight rotating variables is 64 rounds; every mixed-sign sum is an exact double before it is reduced |
| `Sha256.CompressBlock` | web/src/sim/sha256.ts:40-57 | One block is compressed as section 6.2.2 says |
| `Sha256.Sha256Bytes` | web/src/sim/sha256.ts:18-62 | The digest is that of FIPS 180-4 for every input below the 32-bit length limit; constants, functions and rounds are those the rows below derive |
| `Constants.RoundConstants` | web/src/sim/sha256.ts:3-12 | Section 4.2.2: K[i] is the first 32 bits of the fractional part of the cube root of the prime number i, primes being defined by divisors and numbered by how many there are |
| `Constants.InitialHash` | web/src/sim/sha256.ts:27-29 | Section 5.3.3: H0[i] is that of the square root |
| `Words.SigmaBits` | web/src/sim/sha256.ts:36-37 | Bit i of each sigma is the parity of the bits at i plus its three distances around the word, or past its end for the shifts by 3 and 10 |
| `Words.ChBit` | web/src/sim/sha256.ts:43 | Each bit of Ch is that of the second word where the first has a one and of the third where it has a zero |
| `Words.MajBit` | web/src/sim/sha256.ts:46 | Each bit of Maj is set exactly if it is in at least two of the three |
| `Words.BitsDecide` | web/src/sim/sha256.ts:14-16 | Words with the same bits are the same |
| `Words.RoundsAreRegisters` | web/src/sim/sha256.ts:40-52 | The eight working variables are the last four entries of two registers, each fed by one sum modulo 2^32 of earlier entries, the constant and the message word |
| `Words.PaddedIs` | web/src/sim/sha256.ts:19-25 | Byte i of the padded message is that of the message, then 128, then zeros, and in the last eight bytes that of the number of bits, the highest first |
| `Words.ScheduleIs` | web/src/sim/sha256.ts:32-39 | The first sixteen message words are those of the block, byte by byte; each later one is the sum modulo 2^32 of the words 16 and 7 before it, the small sigma 0 of the one 15 before and the small sigma 1 of the one 2 before |
| `Words.CompressIs` | web/src/sim/sha256.ts:53-56 | A block adds to each word of the hash value, modulo 2^32, one of the last four entries of the two registers |
| `Words.DigestBytes` | web/src/sim/sha256.ts:58-61 | Byte 4 i + k of the digest is byte k of word i, the highest first |
| `Words.WordAtIs` | web/src/sim/sha256.ts:32 | And a message word is read so |
| `Floats.SumFloats` | panelist/services/grading.py:55-56 | The loop of the builtin sum, which keeps what each addition loses and adds it at the end, computes the recursive specification |
| `Floats.SumsAgree` | web/src/sim/platform.ts:438-442 | The builtin sum is the plain one if and only if the correction is zero or lost |
| `Floats.ExactAgrees` | web/src/sim/platform.ts:438-442 | Where every item and partial sum is a double both sums are the exact total |
| `Binary64.Dyadic` | panelist/models.py:240 | Rounding to a double keeps every multiple of 2^-k, k up to 1074, of at most 2^53 times that |
| `Binary64.Rounds` | panelist/models.py:240 | It takes a number with its 53rd bit at 2^-k to the nearest multiple of 2^-k, ties to even |
| `Binary64.NearestKeepsIntegers` | panelist/models.py:240 | It keeps every integer up to 2^53 |
| `Weighing.UncorrectedAgree` | web/src/sim/platform.ts:438-442 | The two sides store the same double if neither sum of the service is corrected |
| `Weighing.ExactScores` | panelist/services/grading.py:55-56 | If no score, weight, product or partial sum is rounded, both store the exact weighted score of the rules, rounded once |
| `Weighing.WholeScores` | panelist/services/grading.py:55-56 | So they do for whole weights and scores whose magnitudes and products add up to no more than 2^53 |
| `LastDigit.ScoresDiffer` | web/src/sim/platform.ts:438-442 | With weights 0.5, 0.3, 0.2 and scores 1, 1, 2 the service stores 5404319552844595 / 2^52 and the port the next double |
| `LastDigit.LinesDiffer` | web/src/sim/platform.ts:144-152 | Whatever else the row holds, its two lines then differ, for any digits that read back as their doubles |
| `LastDigit.NegativeZero` | panelist/services/grading.py:55-56 | Weights 1 and -2 scored 2 and 1 are stored as a negative zero on both sides |
| `LastDigit.OddInteger` | web/src/sim/platform.ts:146 | The port prints the int 2^53 + 1 as 2^53 |
| `Numbers.NumberUnique` | web/src/sim/platform.ts:139-146 | In one runtime two numbers have the same text if and only if they are the same to it: an int or float of the service, a double of the port, where ints are held as their nearest doubles |
| `Numbers.NumberAgrees` | web/src/sim/platform.ts:136-146 | The two runtimes print a number alike exactly when it is an int of at most 21 digits outside the float fields that the port holds as a double of the same digits, or a float whose decimal point both write in the same form |
| `Numbers.SafeInteger` | web/src/sim/platform.ts:146 | An int up to 2^53, so every database integer, prints alike outside the float fields if the port holds it as itself |
| `Numbers.LongInteger` | web/src/sim/platform.ts:146 | An int of more than seventeen digits that does not end in a zero never does |
| `Numbers.TwoToSixty` | web/src/sim/platform.ts:146 | 2^60 is printed with its nineteen digits by the service, as 1152921504606847000 by the port |
| `Numbers.PointIsMagnitude` | web/src/sim/platform.ts:139-142 | Where the decimal point of the shortest digits stands is where the magnitude lies between the powers of ten |
| `Numbers.FloatFieldPortable` | web/src/sim/platform.ts:136-145 | A double in a float field prints alike exactly if it is the positive zero, of a magnitude in [1e-4, 1e16) or below 1e-9 |
| `Json.EscapedUnique` | web/src/sim/platform.ts:148 | A quoted string can be read back from any text it starts, whichever runtime escaped it, escapes as in section 7 of RFC 8259 |
| `Json.PrintUnique` | web/src/sim/platform.ts:145-152 | A printed value can be read back from any text it starts: equal texts of any two runtimes come from the same structure, keys and strings, with equal numerals |
| `Json.StringifyIsCanon` | web/src/sim/platform.ts:145-152 | Sorting keys while printing is printing the value with its keys sorted |
| `Json.StringifyInjective` | web/src/sim/platform.ts:145-152 | Two values have the same text if and only if the runtime sees them as the same up to the order of keys |
| `Json.SameIsEqual` | panelist/services/delivery.py:63-66 | To the service, which keeps ints, floats and the sign of zero apart, that is being equal |
| `Json.KeyOrderIrrelevant` | web/src/sim/platform.ts:150 | Objects are equal up to the order of keys exactly when they hold the same entries, whatever the insertion order, sorted by code point or by code unit |
| `Jsonl.LinesClean` | web/src/sim/platform.ts:739-742 | No line holds a raw control character |
| `Jsonl.BodyRoundTrip` | panelist/services/delivery.py:63-66 | Splitting a joined body gives the lines back, one newline each |
| `Jsonl.BodyInjective` | web/src/sim/platform.ts:739-747 | Two row lists have the same body if and only if the runtime sees them as the same row by row up to the order of keys |
| `Jsonl.AsciiUtf8` | web/src/sim/sha256.ts:64-71 | A text's UTF-8 is ASCII exactly when the text is, and then it is the text |
| `Jsonl.ExportAscii` | panelist/services/delivery.py:63-66 | The service's body is ASCII |
| `Jsonl.BytesEqual` | web/src/sim/platform.ts:739-759 | The bytes of a service and a port export are equal exactly when their texts are |
| `Jsonl.ExportVerifies` | panelist/services/delivery.py:105-122 | An untouched export verifies with its stored checksum, row count and size; nothing of another size or line count does |
| `Grammar.PrintReads` | panelist/services/delivery.py:63-66 | By the grammar of RFC 8259, whose characters are spelled out apart from the printers, the text of a value is read as that value and ends where the text ends, if and only if no number the port prints in a float field reaches 1e21; numbers have that sign and absolute value, strings those units, objects those keys in that order |
| `Grammar.ServiceLineReads` | panelist/services/delivery.py:63-66 | So every line the service exports is the JSON text of its row with the keys sorted |
| `Legible.PortRowReads` | web/src/sim/platform.ts:139-152 | A line of the port is if and only if neither its weighted score, its spread, nor a score or a number in a float field of its responses reaches 1e21 |
| `Grammar.HugeScore` | web/src/sim/platform.ts:139-142 | With 1e21 the port prints `1e+21.0`, and no reader of the grammar finds the row in the line |
| `Encodings.UnitsRoundTrip` | web/src/sim/platform.ts:144-152 | A string as UTF-16 is read back as its code points |
| `Encodings.BytesEncode` | web/src/sim/sha256.ts:64-71 | The bytes of a code point encode it in the ranges of RFC 3629, those of a lone surrogate U+FFFD |
| `Encodings.KeyOrderIs` | panelist/services/delivery.py:64 | Keys and tags are ordered lexicographically, by code point on the service and by code unit on the port |
| `Encodings.TagsSorted` | panelist/services/delivery.py:36 | Sorted tags are in that order, each as often as before |
| `Encodings.ExponentExactly` | web/src/sim/platform.ts:139-142 | The service prints an exponent exactly for magnitudes outside [1e-4, 1e16), the port outside [1e-6, 1e21), neither for a zero |
| `Portability.PortAgrees` | web/src/sim/platform.ts:144-152 | The port's text of any JSON value is the service's if and only if all its strings and keys are plain and all its numbers print alike where they stand |
| `Bodies.RowAgrees` | web/src/sim/platform.ts:718-736 | The two lines of a row with one stored score, each with its own order of the tags, are the same exactly when the service's value of it is portable |
| `Bodies.RowsAgree` | web/src/sim/platform.ts:718-736 | With a score stored by each side they are the same exactly when the service's row is portable and the port shows the digits of the service's score |
| `Bodies.RowPortable` | panelist/services/delivery.py:33-60 | A row is portable exactly when its texts are plain, its scores the positive zero, in [1e-4, 1e16) or below 1e-9, its counts ints that the port holds as themselves and its responses portable |
| `Bodies.SameTags` | panelist/services/delivery.py:39 | Plain tags are sorted alike |
| `Bodies.ScoreDiffers` | web/src/sim/platform.ts:139-145 | Whatever else a row holds, a weighted score of 1e16, 1e-5 or negative zero makes its two lines differ |
| `Bodies.LargeTexts` | web/src/sim/platform.ts:140-142 | 1e16 is `1e+16` to the service and sixteen zeros and `.0` to the port |
| `Bodies.SmallTexts` | web/src/sim/platform.ts:140-142 | 1e-5 is `1e-05` to the service and `0.00001` to the port |
| `Bodies.TinyTexts` | web/src/sim/platform.ts:140-142 | 1e-10 is `1e-10` to both |
| `Bodies.NegativeZeroTexts` | web/src/sim/platform.ts:140-142 | Negative zero is `-0.0` to the service and `0.0` to the port |
| `Bodies.LargeScore` | panelist/services/grading.py:55-56 | Valid scores of criteria weighted 1e16 and -1e16 have a weighted score of 1e16 |
| `Tags.RowTags` | panelist/services/delivery.py:39 | The texts a row prints as required tags are those of the task's tags, and an expert shares a tag with the task exactly when one of theirs is printed |
| `Tags.RunTags` | panelist/services/delivery.py:39 | Along any run whose tasks are created with their own tags that stays so: no request changes the tags of a task |
| `LockStepExports.ValuesView` | web/src/sim/platform.ts:713-736 | In a shared state the port's rows and the service's have the same contents, row for row and field for field, but for the weighted score, which each side has from its own sums |
| `LockStepExports.BytesView` | web/src/sim/platform.ts:144-152 | In a shared state the object the service stores is the body the port hashes if and only if every row delivered is portable and its two stored scores print the same digits |
| `LockStepExports.ScoresTold` | web/src/sim/platform.ts:438-442 | For a portable row, and digits that read back as their doubles, the scores print the same digits if and only if the two doubles are equal |
| `LockStepExports.SharedBytes` | web/src/sim/platform.ts:144-152 | Where both sides store one double a row, the bytes are the same if and only if every row is portable |
| `LockStepExports.WholeShared` | panelist/services/grading.py:55-56 | They do where every delivered row was weighed in whole numbers below 2^53 |
| `LockStepExports.LastDigitBytes` | web/src/sim/platform.ts:438-442 | An export of a shared state with a row weighted 0.5, 0.3, 0.2 and scored 1, 1, 2 is not the same bytes, whatever its texts |
| `LockStepExports.RunBytes` | tests/test_port_conformance.py:201-243 | After any run of the shared domain in which no tier moves the two exports are the same bytes on exactly the conditions of `LockStepExports.BytesView`, and of `LockStepExports.SharedBytes` where the stored doubles are shared |

## Left out

- PostgreSQL's isolation levels, SKIP LOCKED and the claim of a row another transaction holds: transactions are serial atomic steps.
- HTTP routing, API keys, scopes, request schemas beyond the fields that decide an operation, metrics and logging: plumbing.
- The texts of reviews, expert names and the CSV writers: they decide nothing that is stated here.
- Object storage and the name of an object: a delivery holds the bytes that were put under it; the name carries the
  version, so no two exports share one.
- `prefers_attention_check` is an arbitrary function of expert and serve number; its share over many serves is statistical.
- `analytics.py`, `queue_depth_by_tag`, `pending`, `_reminders` and the pseudo-random ids of the port: counts and
  presentation.
- Floating-point rounding in the rules: scores, means, spreads, rates and tolerances are exact reals there, so
  `LockStepRuns.PortRefinesService` compares exact weighted scores; only the doubles an export prints are rounded. A spread
  is printed as the double nearest to the exact one, and a negative zero submitted as a score as zero.
- The shortest digits of a double: a parameter both sides share; where it matters that they read back as the double, or
  that those of a whole number are its own, the lemma requires it. NaN, infinities and overflow are not part of this
  model.
- The hexadecimal rendering of the digest; for 2^64 bits and more, where FIPS 180-4 defines no digest, the recorded
  checksum is empty.
- Port.Platform.Ledger: the rows come in the order their first payout was made; the sort by expert name is left out with
  the names.
- Ops.TickNow: experts are visited in table order, which decides only the order of the moves listed; the label and age of
  the last period and the reminder texts are left out.
- LockStepRuns.PortRefinesService: claims by name, several graders, several rubric versions, requests that move a tier, missing rates and reinstatement of experts who are not paused are outside the domain both sides share.
