# What this project models

The parts of the system where a mistake would show only under a rare order of
events, or on an unlucky input, each as a state machine or a function with the
code that runs it beside it:

- how run items and test files are split over shards, and what a split costs and
  runs (`makespan`, `shards`, `runs`, `fileshards`);
- the local runner: its hold on its home, its ledger, its gate, its queue, and a
  streamed call's conversation with `codex app-server` (`homelock`, `ledger`,
  `gate`, `runner`, `oneledger`, `grammar`, `codexapp`, `linereader`);
- the CLI's credentials under interleaved saves and sign-outs (`credentials`);
- the live streams and presence (`follower`, `streamshares`, `board`,
  `presence`, `presencemaps`);
- the alert forwarder and its detector (`detector`, `forwarder`);
- the model agent's calls (`carrier`) and the recovery pass (`recovery`);
- the import closure and what it puts in scope, and git's output read back
  (`closure`, `scope`, `suitefiles`).

`lists`, `maps`, `orders` and `text` hold what these share.

Where the source changes fields in place, a class has the fields and its methods
equate the new state with the step the lemmas reason about. Where it waits (a
question, a write, another process), the wait ends one step and what comes
meanwhile are steps of their own, in any order. A run is a list of such steps;
the main results are over every run.

## What is assumed

- Home lock: a process that lives is always found alive, hold ids are never used
  twice, and a lock's text goes from empty to whole in one step.
- Credentials: epoch values never repeat.
- Runner: call ids are not used twice. A cut row does not read as a row. A process
  that is gone takes no further step.
- Board: a digest holds no space, so two of them joined by one are told apart.
- Forwarder: event ids at the sink are told apart by what they stand for, row ids
  come from a sequence, and a row's kind holds no separator.
- Recovery: the scope's keys are distinct, the clock never goes back, and each
  run begins some attempt before its deadline.

## What was found

- `want` in the follower reads `pending ?? owed` and deletes what is owed: with a
  check pending behind another delivery and a `resync` owed, the `resync` is
  dropped. So "every heard signal stays covered" holds exactly under the
  condition of `LiveFollow.CoveredExactlyWhenKept`; `LiveFollow.OwedResyncIsLost`
  is a run where it fails.
- A sign-out that dies between its new epoch and its removals, its lock then
  removed by hand, leaves an old value under the new epoch
  (`Credentials.DeadSignOutLeavesItsFile`). `Credentials.StaleWhenUnlocked` is the
  exact condition for any file, `Credentials.NamedFileIsStaleExactlyWhen` for one
  the sign-outs name.
- A server that answers the thread request unasked starts a turn with no check
  behind it (`CodexApp.UnaskedReplySkipsChecks`). Which replies start a turn, and
  which checks stand before it, is exact from any server
  (`CodexApp.TurnsSentExactly`, `CodexApp.CheckedExactlyWhenAnswered`). A child
  that errors after its turn was sent is charged nothing.
- The board's comment says a read refused because the bearer moved is asked again
  by the next run; when the join then answers the same person, the code does not
  put its signal back (`Board.RefusedReadLosesTheSignal`).
  `Board.HeardIsKeptOrDropped` says exactly which joins lose a signal.

## Model

| member | source | states |
|---|---|---|
| `Makespan.ChoicesAreGreedy` | scripts/db-shards.ts:119-123 | placing each weight in turn on the first shard with the least load is a greedy placement, from any loads the shards already carry |
| `Makespan.Conservation` | scripts/db-shards.ts:118-123 | for any placement, the shards together hold what they started with and every weight: nothing is lost or counted twice |
| `Makespan.LandsBelowAverage` | scripts/db-shards.ts:119-123 | the step of the (2 - 1/m) bound: m times the load a weight lands on is at most everything placed before it |
| `Makespan.HeavyWeightsFit` | scripts/db-shards.ts:114-123 | when the least weight so far is above a third of another split's heaviest shard, greedy placement of it stays within that shard's load: counted in slots, that split has two a shard at most |
| `Makespan.LongestFirstBound` | scripts/db-shards.ts:103-123 | weights in descending order, placed greedily on m empty shards: every shard is within 4/3 - 1/(3m) of the heaviest shard of any other placement |
| `Makespan.FourThirdsMeans` | scripts/db-shards.ts:103-107 | the bound as repeated sums says the same as the bound as usually written |
| `Makespan.GreedyFromLoads` | scripts/ci-shards.ts:162-174 | greedy placement onto loads already there: a shard ends at its own first load, or at most at the average of everything and (1 - 1/m) of the heaviest weight |
| `Shards.FallbackIsMedian` | scripts/db-shards.ts:92-95 | the weight of an untimed item is the upper median of the positive recorded times: half of them rounded down at or below it, the rest at or above |
| `Shards.KnownAre` | scripts/db-shards.ts:92-94 | the times the median is of are the positive ones of the table, each as often as it stands there |
| `Shards.WeighsWhatItTakes` | scripts/db-shards.ts:95-98 | an item weighs its own positive time; with none, the upper median of the positive ones, or a second when there are none |
| `Shards.WeighedInOrder` | scripts/db-shards.ts:114-116 | the entries are placed longest first, and of as long in manifest order |
| `Shards.AssignShards` | scripts/db-shards.ts:108-127 | the loops over sorted items and mutable loads make exactly the split the lemmas below are about |
| `Shards.AssignedIsPartition` | scripts/db-shards.ts:103-127 | the shards together are a rearrangement of the items, repeats included |
| `Shards.AssignedKeepsOrder` | scripts/db-shards.ts:124-126 | each shard picks its items out of the manifest left to right |
| `Shards.Placement` | scripts/db-shards.ts:108-127 | any split whatever of the same items is a placement of them one by one, so the bound is against all splits |
| `Shards.AssignedWithinFourThirds` | scripts/db-shards.ts:89-127 | in recorded seconds, and the upper median where none is recorded: the longest shard assigned takes at most 4/3 - 1/(3m) of the longest shard of any split of the same items into m shards (Graham's bound), for every item list and timing table |
| `Runs.ShardTextParses` | scripts/db-shards.ts:34-43 | "i/n" is read back as the part it was printed from, for every part there can be |
| `Runs.ParsesExactly` | scripts/db-shards.ts:34-43 | a part is read from exactly the texts that print one with 1 <= i <= n; every other is refused |
| `Runs.WholeSuiteRunsAll` | scripts/db-shards.ts:77-79 | a suite whose part is not said runs every case; said, it is the part parsed or a refusal |
| `Runs.PlanRefusesExactly` | scripts/db-shards.ts:56-68 | the plan is refused exactly when it gives a suite named fewer than two parts |
| `Runs.PartsRunOnce` | scripts/db-shards.ts:66-67 | of the k parts a suite is split into, a case index runs in exactly the one its remainder names |
| `Runs.PlanRunsOnce` | scripts/db-shards.ts:56-68 | of the run items of distinct suites under any valid plan, each case of a named suite runs once and no other suite's runs |
| `Runs.EveryCaseRunsOnce` | scripts/ci-shards.ts:127-138 | every case index of every named suite runs once, in one part of one shard, across the database shards and the isolation shards together |
| `Runs.IsolationStepsAreNoParts` | scripts/ci-shards.ts:61-66 | the steps split beside the isolation suites read as no suite's part |
| `Runs.CountSeen` | scripts/db-census.ts:44-52 | the counting loop leaves each item's number of places, and the order first seen |
| `Runs.CensusOf` | scripts/db-census.ts:44-61 | the census lists exactly what is missing, doubled and unknown, with counts of distinct items and the tests placed |
| `Runs.SoundIffPermutation` | scripts/db-census.ts:44-61 | a census is clean exactly when the shards hold each item once and nothing else |
| `Runs.EverySplitIsSound` | scripts/db-census.ts:44-61 | every split `assignShards` makes of distinct items has a clean census that counts every test |
| `FileShards.LocalFileShards` | scripts/ci-shards.ts:157-180 | every file is on one shard, once, the shard its path, the plan and the steps alone name, whatever else is in the list; each shard's files are sorted |
| `FileShards.PlannedIsLoad` | scripts/ci-shards.ts:162-174 | what the plan puts on a shard, its steps and the timed files named to it, is what filling it loaded it with |
| `FileShards.PlannedLoadBound` | scripts/ci-shards.ts:162-174 | a shard's planned load is its steps' own, or at most the average of everything planned and (1 - 1/m) of the largest timed file |
| `FileShards.ShardOfStep` | scripts/ci-shards.ts:183-194 | a known step's shard is the one shard that runs it, and a step not known is refused |
| `HomeLock.AtMostOneHolds` | apps/local-agent/home-lock.ts:16-88 | over every interleaving of any number of attempts' file steps and deaths, at most one live runner holds the home |
| `HomeLock.OnlyItsHolderChangesALock` | apps/local-agent/home-lock.ts:22-31 | while a live runner holds the home the lock is its own, naming it or still empty from its making, and no step of another, release and takeover included, changes or removes it |
| `HomeLock.CrashedTakeoverOnlyRefuses` | apps/local-agent/home-lock.ts:71-87 | a takeover left by a death is never finished nor taken: from then on no runner starts one, and with a dead holder's lock beside it none holds the home |
| `HomeLock.AloneHolds` | apps/local-agent/home-lock.ts:16-88 | left alone, an attempt holds a free home or a dead runner's with no takeover left, is refused any other, and leaves no file but its own lock |
| `HomeLock.MakesAFreeHomesLock` | apps/local-agent/home-lock.ts:38-60 | an attempt that finds no lock makes its own, at once or after the one it found has gone; else it reads, or is refused |
| `HomeLock.TakesOverExactly` | apps/local-agent/home-lock.ts:48-72 | a takeover starts exactly when the lock read names a gone runner whose pid answers for no one, and goes on exactly when no other is under way and the lock is still that runner's |
| `HomeLock.DraftsExactly` | apps/local-agent/home-lock.ts:73-87 | a draft of the lock stands from its making to its renaming or removal by its own runner, first empty, then naming it |
| `HomeLock.LetsGoExactly` | apps/local-agent/home-lock.ts:22-31 | it lets go exactly when told: it holds until its second step more removes its lock, or it dies |
| `HomeLock.RemovesOnlyItsOwn` | apps/local-agent/home-lock.ts:22-31 | letting go, it removes the lock exactly when that is still its own |
| `HomeLock.OnlyTheLivingAct` | apps/local-agent/home-lock.ts:61-97 | a process that is gone takes no step; its files stay as they are |
| `HomeLock.Home.Created` | apps/local-agent/home-lock.ts:38-46 | the lock is written exactly where none was |
| `HomeLock.Home.TakeOver` | apps/local-agent/home-lock.ts:61-88 | run by itself: whether it holds, the lock it leaves, and that the takeover and draft files are as before |
| `HomeLock.Home.HoldHome` | apps/local-agent/home-lock.ts:16-21 | run by itself, it ends where the interleaved steps of one attempt left alone do |
| `HomeLock.AloneIsARun` | apps/local-agent/home-lock.ts:16-88 | the steps of one attempt taken alone are a run of the interleaved machine |
| `HomeLock.Home.Release` | apps/local-agent/home-lock.ts:22-31 | run by itself, it ends where the interleaved steps of one attempt letting go do: only this hold's own lock goes |
| `Credentials.OneInside` | apps/cli/credentials.ts:45-68 | two running commands are never both inside the set's lock, whatever is interleaved and whoever dies |
| `Credentials.SignOutWins` | apps/cli/credentials.ts:73-89 | a save puts its value in its file only when no sign-out changed the epoch since that save began |
| `Credentials.OnlyTheLivingAct` | apps/cli/credentials.ts:45-68 | a command that died takes no step; one that waits too long for the lock ends without having touched the set |
| `Credentials.StaleIsLeft` | apps/cli/credentials.ts:73-105 | at any moment a file's value was begun under an earlier epoch if and only if some sign-out found the file there, left it, and nothing saved or removed it since |
| `Credentials.StaleExactlyWhen` | apps/cli/credentials.ts:73-105 | the same over the list of events: stale exactly when the epoch changed at some event while the file was there and no save or removal of it followed |
| `Credentials.StaleWhenUnlocked` | apps/cli/credentials.ts:92-105 | whenever no one holds the lock: stale exactly when some sign-out changed the epoch while the file was there and did not name it, could not remove it or died before coming to it, and no save or removal of it followed |
| `Credentials.NamedFileIsStaleExactlyWhen` | apps/cli/credentials.ts:92-105 | for a file every sign-out names: stale exactly when a sign-out that found it there failed to remove it or died with it still to remove, and no save or removal of it followed |
| `Credentials.FilesHoldCurrentValues` | apps/cli/credentials.ts:45-105 | a file every sign-out names, no removal of it failing and no sign-out dying with it still to remove: whenever no one holds the lock it holds only a value whose save began under the current epoch |
| `Credentials.DeadSignOutLeavesItsFile` | apps/cli/credentials.ts:92-105 | a run in which it does not: a sign-out dies before its removals, its lock is taken away, and the old value stands under the new epoch |
| `Credentials.AloneIsARun` | apps/cli/credentials.ts:45-112 | the steps of one command taken alone are a run of the interleaved machine |
| `Credentials.SaveAlone` | apps/cli/credentials.ts:78-89 | a save's own steps, alone: its value in its file exactly when the epoch is the one it began under, else nothing |
| `Credentials.SignOutAlone` | apps/cli/credentials.ts:92-105 | a sign-out's own steps, alone: a new epoch, and the files named and removable gone |
| `Credentials.RemoveAllRemoves` | apps/cli/credentials.ts:96-102 | a file is gone after them exactly when it was named and could be removed; every other is untouched |
| `Credentials.CredentialSet.BeginSave` | apps/cli/credentials.ts:73-76 | reading the epoch is the command's first steps of the machine, taken alone |
| `Credentials.CredentialSet.SaveUnlessSignedOut` | apps/cli/credentials.ts:78-89 | the code under the lock ends where the interleaved steps of a save taken alone do, and answers whether the epoch is the one read |
| `Credentials.CredentialSet.SignOut` | apps/cli/credentials.ts:92-105 | and a sign-out where its steps do: a new epoch, the files gone that could be removed, and exactly the others answered |
| `Credentials.CredentialSet.RemoveIfHolds` | apps/cli/credentials.ts:108-112 | and a removal where its steps do |
| `Ledger.LedgerTotal` | apps/local-agent/ledger.ts:29-55 | the loop over lines returns the sum of untagged rows and of each id's last row, the cap on any unreadable line, nothing when there is no file |
| `Ledger.CallsAreLastRows` | apps/local-agent/ledger.ts:49-53 | an id counts by the last row that carries it, and not at all when none does |
| `Ledger.AppendCharges` | apps/local-agent/ledger.ts:57-60 | a row appended, its write cut anywhere: an unreadable ledger stays so; a readable one charges that id by this row or as before, and every other as before |
| `Ledger.AppendIsWritten` | apps/local-agent/ledger.ts:57-60 | what the ledger's lines are after a write, cut anywhere, is what the file's text then says |
| `Ledger.AllAreItsLines` | apps/local-agent/ledger.ts:39-48 | its lines are the text cut at its newlines, each one whole row, blank, or unreadable |
| `Ledger.EmptyCountsNothing` | apps/local-agent/ledger.ts:35-48 | a ledger of blank lines counts nothing, and one with a line that does not read counts as its cap |
| `Gate.RaisedCapIsApproved` | apps/local-agent/gate.ts:75-86 | a cap above the default is one the owner's yes names now, and never above the highest there is |
| `Gate.CapInForceIs` | apps/local-agent/gate.ts:75-86 | a configured cap holds, above the default only while the owner's yes names it; unset, the yes or the runner's own does, up to the highest there is |
| `Runner.TotalOfNewId` | apps/local-agent/runner.ts:133-137 | a charge that fits under the cap leaves the total within it, however far its write got |
| `Runner.StartedCallsAreCharged` | apps/local-agent/runner.ts:133-149 | over every run, with writes cut, approvals changing and deaths at any step: while the ledger reads, each call that started is charged its need or, once ended, what it came to; one call at a time, none with a send deadline behind another |
| `Runner.EndedCallCountsItsUsage` | apps/local-agent/runner.ts:142-143 | a call whose own row was written whole counts as exactly its reported tokens, nothing if refused first, its need if unknown |
| `Runner.ProvisionalChargeWithinCap` | apps/local-agent/runner.ts:127-137 | whenever a turn writes to the ledger, the need fitted and the total it leaves is within the cap then in force |
| `Runner.AnswerWithinCap` | apps/local-agent/runner.ts:158-186 | an answered call's own tokens replace its need, and the total stays within the cap it was let in under |
| `Runner.UnreadableStopsEveryCall` | apps/local-agent/runner.ts:122-132 | an idle runner whose ledger does not read starts no call ever after, and the ledger stays as it is |
| `Runner.StoppedRunnerStartsNothing` | apps/local-agent/runner.ts:117-125 | after a row that could not be written, or once closing, no call of that runner starts |
| `Runner.RunnerState.Recorded` | apps/local-agent/runner.ts:91-99 | a row written, or every later call stopped |
| `Runner.RunnerState.Arrived` | apps/local-agent/runner.ts:215-220 | a call with a send deadline that finds any other is refused; any other call queues behind |
| `Runner.CallsStartExactlyWhen` | apps/local-agent/runner.ts:117-137 | over every run: a call starts exactly in its own turn, timely, its caller not gone, on a runner neither closing nor broken, its model the default or one approved now, the ledger's total and its need within the cap, its id new and its first row whole |
| `Runner.RefusedTurnChanges` | apps/local-agent/runner.ts:117-137 | a turn refused before its row changes nothing but the queue; one whose row could not be written stops every later call |
| `Runner.AnsweredExactlyWhen` | apps/local-agent/runner.ts:142-186 | a finished call is answered exactly when its row was written and codex reported a whole turn within what was left; else by the code of what went wrong |
| `Runner.WritesExactly` | apps/local-agent/runner.ts:133-149 | from any sound state the ledger grows exactly by the row of a turn no check stopped, charging its need, and by a finished call's, charging what it came to |
| `Runner.StopsExactlyWhen` | apps/local-agent/runner.ts:91-125 | a runner stops by a row it could not write or by closing, and forgets both, and all it held, exactly when it dies |
| `Runner.InHandExactlyUntil` | apps/local-agent/runner.ts:215-232 | a call runs until it ends, codex fails or the process dies; one arriving is turned away exactly when it has a send deadline and another is in hand |
| `Runner.RunnerState.Admit` | apps/local-agent/runner.ts:102-137 | the code of one turn takes the machine's step, and answers the code of the first check that failed, or nothing when the call is let in |
| `Runner.RunnerState.Finished` | apps/local-agent/runner.ts:138-149 | the code after codex takes the machine's step, and answers as a recorded call may |
| `Runner.RunnerState.Rejected` | apps/local-agent/runner.ts:222-232 | and when codex itself fails: refused, the call still charged its need |
| `OneLedger.ManyRunnersAreOne` | apps/local-agent/runner.ts:240-282 | over any number of runners with one home, their calls, their lock steps and deaths interleaved in any order: the ledger and what each call came to are those of one runner now and then started anew, and whoever holds the home is in that runner's state |
| `OneLedger.OnlyTheHolderWrites` | apps/local-agent/runner.ts:240-275 | only the runner whose lock stands writes the ledger, and what it writes before a call stays within the cap, whoever charged the rest |
| `OneLedger.EveryRunnersCallsAreCharged` | apps/local-agent/runner.ts:133-149 | over all of them together each call that started is charged its need or what it came to, while the ledger reads |
| `OneLedger.DiesAndLetsGoExactly` | apps/local-agent/runner.ts:262-275 | a runner dies only with its own process, and lets go of the home exactly once it is closed with no call in flight |
| `LiveFollow.OneDeliveryIsQueued` | apps/api/live-follow.ts:194-200 | in every reachable state a watch has a pending signal or presence change exactly when one unstarted delivery of it is queued |
| `LiveFollow.NextKeepsHeard` | apps/api/live-follow.ts:262-293 | each thing heard waits, or is with the delivery that took it, until that delivery says it, its watch closes or the stream ends, unless the step drops what is owed |
| `LiveFollow.HeardStaysCovered` | apps/api/live-follow.ts:179-233 | the same over whole runs, for a signal heard in any reachable state: done means said, as strong or stronger, by a delivery begun after it was heard |
| `LiveFollow.CoveredExactlyWhenKept` | apps/api/live-follow.ts:194-200 | a step leaves everything heard for an open watch covered if and only if it does not want something weaker while a weaker one is pending and a stronger one owed |
| `LiveFollow.OwedResyncIsLost` | apps/api/live-follow.ts:194-200 | that condition can fail: a run of two watches in which a `resync` the provider could not be asked about is dropped by the next check and nothing of it is left |
| `LiveFollow.PresenceStaysCovered` | apps/api/live-follow.ts:194-227 | a presence change seen is never dropped, over every run |
| `LiveFollow.NothingIsSaidUnasked` | apps/api/live-follow.ts:235-293 | over every run each signal or presence frame follows a fresh answer on its watch, on a seated page for the very person seated there; every seat is the present sitter's, admitted on that page since they became so |
| `LiveFollow.MovedAt` | apps/api/live-follow.ts:242-249 | a person who moved in leaves no seat, has every open watch asked again, and what this delivery was to say waits with them |
| `LiveFollow.EndsExactlyBy` | apps/api/live-follow.ts:255-260 | from any state a step ends the stream exactly when it is its own end, a failed question or write, or the write of a closing after which nothing is watched |
| `LiveFollow.EndedExactlyWhen` | apps/api/live-follow.ts:255-299 | over every run the stream has ended exactly when one of its steps was such |
| `LiveFollow.LeavesExactlyBy` | apps/api/live-follow.ts:222-227 | a watch leaves exactly by its own refusal or the answer for someone who does not sit, or with all of them once the stream has ended |
| `LiveFollow.SeatedExactlyBy` | apps/api/live-follow.ts:210-253 | a page is sat on exactly from its own answer for the sitter, until someone moves in, its refusal or the end |
| `LiveFollow.DeliveryMovesOn` | apps/api/live-follow.ts:262-293 | a delivery is over after four answers and writes at most, and nothing but these moves it |
| `LiveFollow.HeardExactlyWhere` | apps/api/live-follow.ts:162-219 | a signal is taken exactly for a watch still open, a presence change exactly where someone is seated, and what is taken waits |
| `LiveFollow.EndedIsSilent` | apps/api/live-follow.ts:262-268 | an ended stream asks nothing and says nothing |
| `LiveFollow.ClosedIsToldOnce` | apps/api/live-follow.ts:295-299 | over every run: a watch still open was never told it is closed; one that left an open stream is being told or was told, once; none sits at a watch that left |
| `LiveFollow.NothingIsSaidUnheard` | apps/api/live-follow.ts:194-227 | over every run: each signal said was heard of that watch as said, and each presence change seen there |
| `LiveFollow.Follower.Want` | apps/api/live-follow.ts:194-200 | the code of `want` is the step reasoned about |
| `LiveFollow.Follower.CheckAll` | apps/api/live-follow.ts:175-177 | so is its loop over the open watches |
| `LiveFollow.Follower.Send` | apps/api/live-follow.ts:262-268 | and a delivery's start: what it takes, and when it asks nothing |
| `LiveFollow.Follower.Showed` | apps/api/live-follow.ts:215-218 | and a presence change seen on a seat |
| `LiveFollow.Follower.AnsweredAgain` | apps/api/live-follow.ts:268-282 | and what it does with the answer |
| `LiveFollow.Follower.Reseat` | apps/api/live-follow.ts:235-253 | and with who sits now |
| `LiveFollow.Follower.Wrote` | apps/api/live-follow.ts:289-299 | and what follows a write, the stream's end after the last watch's closing with it |
| `LiveFollow.Follower.StopAll` | apps/api/live-follow.ts:190-192 | and the leaving of every watch |
| `StreamShares.Shares.Abort` | apps/api/live-follow.ts:64-71 | a share ends once, its listeners called once, and the last to end ends the stream |
| `StreamShares.Shares.End` | apps/api/live-follow.ts:45-75 | the stream has ended exactly when every share of it has |
| `StreamShares.Shares.StreamEnds` | apps/api/live-follow.ts:72 | the stream's own end is every share's |
| `Board.OnlyTheBoundPersonIsTold` | apps/api/live-board.ts:204-227 | over every run each `resync` tells a digest that moved, of reads of the person bound, whom the join answered after them; nothing but `closed` is said while a rebind is untold |
| `Board.CheckedAfterRebind` | apps/api/live-board.ts:208-247 | between a rebind and the next frame said stands a digest of the new person, by a run taken with `check` |
| `Board.NextKeepsDuty` | apps/api/live-board.ts:129-145 | each thing a signal asks for waits or is the run's to answer until the run's join answers or drops it, or the stream ends |
| `Board.DoneExactlyWhenDigested` | apps/api/live-board.ts:204-227 | a signal's digest or check is done exactly when its run's join enters a digest, and lost exactly when that join answers another person with no check, or the same one with a read refused or a rebind still owed to a check |
| `Board.HeardIsKeptOrDropped` | apps/api/live-board.ts:128-227 | over whole runs: what is heard waits, is with the run that took it, or is answered, and is lost if and only if some run's join drops it so; an idle stream with anything waiting has a run coming unless the last went unanswered and nothing was heard since |
| `Board.RefusedReadLosesTheSignal` | apps/api/live-board.ts:208-227 | such a run: a signal, a read refused, the same person answered, and an idle stream with nothing waiting that digested nothing |
| `Board.BeginsExactlyWhen` | apps/api/live-board.ts:129-166 | from any state an idle stream begins a run exactly when a signal queued it, it is open and something waits |
| `Board.RunOpens` | apps/api/live-board.ts:131-141 | a run takes all that waits, and reads first exactly when it took a signal or a check |
| `Board.RunMovesOn` | apps/api/live-board.ts:129-145 | a run is over after six answers at most, or the next begins at once, and nothing but these moves it |
| `Board.ReadsAreDigested` | apps/api/live-board.ts:215-222 | over every run: both reads of the person bound answered, the join that answers them enters their digest; once rebound, only a check's |
| `Board.EveryMoveIsTold` | apps/api/live-board.ts:222-226 | over every run, ended since or not: a digest entered on an open stream that is not the one last told is followed at once by its `resync`; one that is, by no frame |
| `Board.MemberIsAskedAgain` | apps/api/live-board.ts:240-243 | over every run: a member told of no rebind owed, whose join answers that very person, is asked about again |
| `Board.EveryMemberIsTold` | apps/api/live-board.ts:243-245 | over every run: a member before and after the join is told at once, on a stream still open |
| `Board.JoinBinds` | apps/api/live-board.ts:258-276 | over every run: whom a join answers is from then on the person bound, and someone else is owed the rebind |
| `Board.EndsExactlyBy` | apps/api/live-board.ts:155-271 | from any state the stream ends exactly by itself, by a failed question or by a join refused, which says `closed` last on one still open |
| `Board.Stream.Take` | apps/api/live-board.ts:178-184 | the box is emptied into the run |
| `Board.Stream.Owe` | apps/api/live-board.ts:187-197 | an unanswered run puts back what it took beside what came meanwhile |
| `Board.Stream.GoOn` | apps/api/live-board.ts:129-145 | the drain loop's next turn is the step reasoned about |
| `Board.Stream.Rule` | apps/api/live-board.ts:208-227 | and the rule once its join was asked again |
| `Board.Stream.DigestReads` | apps/api/live-board.ts:219-226 | the code that digests two reads is the rule's part reasoned about |
| `Board.Stream.Tell` | apps/api/live-board.ts:233-247 | and the telling of conversations |
| `Detector.Counts.Observe` | apps/api/alerts/detect.ts:158-172 | the loop-made count raises exactly at the threshold within the window, and starts again |
| `Forwarder.RaisesOnHeld` | apps/forwarder/forward.ts:127-141 | the rows held beside the detector are exactly its events, so an alert is raised exactly when they reach the threshold |
| `Forwarder.WeighCounts` | apps/api/alerts/detect.ts:158-166 | exports weigh their items, any other rows of one kind one each |
| `Forwarder.ReplayRight` | apps/forwarder/forward.ts:99-146 | over any rows: each alert counted rows of its own kind and scope, within its window and enough of them; no row is counted twice; what is still held is below the threshold |
| `Forwarder.ReplaySpends` | apps/forwarder/forward.ts:94-98 | the ids to clear are exactly the errors, the signals past their window and the rows an alert counted |
| `Forwarder.RaisedByRows` | apps/forwarder/forward.ts:186-188 | every alert a pass raises is fixed by a row it read and clears, no two by the same |
| `Forwarder.EveryAlertOnce` | apps/forwarder/forward.ts:161-202 | over every run of rows, passes and deliveries, rolled back or not, answers lost or refused: alerts have ids of their own, each is logged once, leaves the kept table only once the sink took it, and the sink gets no other; each error only under its own row's id |
| `Forwarder.AppendsExactly` | apps/forwarder/forward.ts:148-160 | a row appended joins the table in replay order, and nothing else changes |
| `Forwarder.PassRaisesExactly` | apps/forwarder/forward.ts:176-202 | a pass that commits keeps and logs all it raises behind what was kept; one that does not, nothing |
| `Forwarder.KeepsEachIdOnce` | apps/forwarder/forward.ts:193-199 | an id kept already is not kept again |
| `Forwarder.ClearedExactlyWhen` | apps/forwarder/forward.ts:176-202 | a row leaves the table only in a pass that commits, and exactly when it is past retention (with a `signals-dropped` raised), an error sent, past its window, or counted by an alert of this pass |
| `Forwarder.InWindowClearedOnlyByAlert` | apps/forwarder/forward.ts:94-146 | a signal still in its rule's window is cleared exactly as part of an alert raised on its kind and scope |
| `Forwarder.NoBurstIsLeft` | apps/forwarder/forward.ts:93-146 | over every run and whatever the clocks say: of the rows a committed pass leaves, those of one kind and scope within one window of any of them weigh less than the threshold |
| `Forwarder.LeftAltogether` | apps/forwarder/forward.ts:93-146 | with no row dated past the pass's clock, all it leaves of a kind and scope does |
| `Forwarder.DeliversExactly` | apps/forwarder/forward.ts:162-171 | a delivery sends every alert kept in the order raised, up to the first send that fails, and clears them exactly when all were taken and it commits |
| `Forwarder.PassSendsExactly` | apps/forwarder/forward.ts:120-127 | a pass sends each error not past retention, in the order read, up to the first send that fails, commit or not |
| `Forwarder.Outbox.Replays` | apps/forwarder/forward.ts:99-146 | the replay loop tallies exactly that, and sends the errors in order up to the first that fails |
| `Forwarder.Outbox.KeepNew` | apps/forwarder/forward.ts:193-199 | an alert whose id is kept already is neither kept nor logged again |
| `Forwarder.Outbox.PassOnce` | apps/forwarder/forward.ts:176-202 | a pass that fails changes nothing but what the sink took |
| `Forwarder.Outbox.DeliverOnce` | apps/forwarder/forward.ts:162-171 | the kept alerts go out in order, and leave the table only when all were taken |
| `Grammar.MessagesMean` | apps/local-agent/app-grammar.ts:110-126 | the turn's record holds the first agent message begun, whether a second began, and the usage last reported |
| `Grammar.PiecesAreTheFirstMessages` | apps/local-agent/app-grammar.ts:146-151 | a delta is passed on exactly when it names the first agent message and no other has begun; one that names no item, exactly when none has begun; one whose item id is no text, never |
| `Grammar.PiecesStop` | apps/local-agent/app-grammar.ts:117-119 | once a second message has begun, no more pieces, whatever follows |
| `Grammar.TurnEndsAs` | apps/local-agent/app-grammar.ts:88-107 | a turn ends with the usage last reported and, unless it failed, the text last completed; never reported, as unknown, unless it gave nothing back and was refused its sign-in or stopped at the limit |
| `Grammar.ReadExactly` | apps/local-agent/app-grammar.ts:131-172 | the turn is over exactly by its own word, and the call refused exactly by a notification not of the grammar |
| `CodexApp.TurnOnlyOnceAfterChecks` | apps/local-agent/app-steps.ts:67-104 | from a server that answers each request once and only after it is sent, the turn is sent at most once, on the thread answered, by its deadline, after the Codex, account and usage checks passed in that order |
| `CodexApp.TurnSentExactlyBy` | apps/local-agent/app-steps.ts:67-104 | from any server a step sends a turn exactly when it reads, before the ending and by the send deadline, a thread answered |
| `CodexApp.TurnsSentExactly` | apps/local-agent/app-steps.ts:91-98 | from any server the turns sent are as many as such replies read, so at most one exactly when at most one came |
| `CodexApp.CheckedExactlyWhenAnswered` | apps/local-agent/app-steps.ts:67-104 | from any server, before a turn is sent the Codex, the account or the usage was checked and passed exactly when that request was answered before it |
| `CodexApp.UsageStopsExactly` | apps/local-agent/usage-guard.ts:28-49 | the plan's reading lets a call go on exactly when its use is allowed outright, no limit is reached and its first week-long window says less than 95% used; else it stops it as it reads |
| `CodexApp.AsksInTurn` | apps/local-agent/app-steps.ts:67-104 | a reply that passes is followed at once by the next request, in order, and by no other |
| `CodexApp.OthersAskNothing` | apps/local-agent/codex-app.ts:71-104 | no other line is answered, but a request of the server's own, which is refused |
| `CodexApp.EndedExactlyAs` | apps/local-agent/codex-app.ts:64-106 | over every run, from any server: how the call ends, and whether its child is killed, is exactly what the first line or event that ends it says |
| `CodexApp.UnaskedReplySkipsChecks` | apps/local-agent/app-steps.ts:91-98 | such a server: a thread answered unasked starts the turn unchecked, and answered twice starts it twice |
| `CodexApp.SentTurnIsCharged` | apps/local-agent/codex-app.ts:64-106 | from such a server, with a child that ran: a call whose turn was sent ends unknown or by the usage last reported, unless its turn gave nothing back and was refused its sign-in or stopped at the limit |
| `CodexApp.ChargedNothingExactlyWhen` | apps/local-agent/codex-app.ts:64-106 | from any server: a call whose turn was sent ends charged nothing exactly by the child's failure, a reply other than the turn's that ends it, or a completed turn that used nothing |
| `CodexApp.PassesOnFirstMessage` | apps/local-agent/codex-app.ts:86-92 | what is passed on is what the notifications read give, and the first ending stands |
| `CodexApp.Conversation.OnLine` | apps/local-agent/codex-app.ts:71-104 | the code that reads a line takes the step reasoned about |
| `CodexApp.Conversation.Finish` | apps/local-agent/codex-app.ts:222-224 | the first ending stands |
| `LineReader.LinesMore` | apps/local-agent/codex-app.ts:112-121 | the lines of a text cut in two are those of the first part and those of its rest with the second |
| `LineReader.LinesAreTheText` | apps/local-agent/codex-app.ts:112-118 | the lines and what stands behind them are the text cut at its newlines |
| `LineReader.HandedAreNonBlank` | apps/local-agent/codex-app.ts:115-119 | what is handed over is the non-blank lines from the first on: all, or up to the one the reader did not go on from |
| `LineReader.StopsWhenTold` | apps/local-agent/codex-app.ts:115-119 | every line handed over but the last is one the reader went on from |
| `LineReader.Reader.Chunk` | apps/local-agent/codex-app.ts:112-121 | after any chunk, what was handed over is what the whole text so far says, however it was cut |
| `LineReader.Feed` | apps/local-agent/codex-app.ts:109-122 | fed in any pieces, a reader is handed the same lines, none after it says stop |
| `Closure.ClosedHoldsAll` | scripts/import-closure.ts:97-104 | a set with the entry that no import leaves holds every file a chain of imports reaches |
| `Closure.Reader.Direct` | scripts/import-closure.ts:60-90 | a file's imports and names, the same from the cache |
| `Closure.Reader.DependenciesOf` | scripts/import-closure.ts:93-107 | on any graph, cycles included, it ends with exactly the files reached but the entry and every path any of them names, sorted, once each; or throws exactly when a file reached does not read |
| `Scope.AddCovers` | scripts/ci-scope.ts:119-126 | one dependency adds its area to exactly the paths it covers: itself, and all under it when it is a directory or gone |
| `Scope.AreaIsItsSegments` | scripts/ci-areas.ts:18-25 | a repository path has the area its segments say, behind `./` or not: `root` for one, the first two's of the three split so, else the first without its dots |
| `Scope.HasAreaExactlyWhen` | scripts/ci-areas.ts:18-22 | a path has an area exactly when, its backslashes turned, no segment of it is empty or dots |
| `Scope.SlashesAre` | scripts/ci-areas.ts:19 | each backslash is turned, and nothing else |
| `Scope.WithoutDotsIs` | scripts/ci-areas.ts:24 | every leading dot goes, and nothing else |
| `Scope.WithoutSlashesIs` | scripts/ci-scope.ts:119-126 | every slash at the end of a directory goes, and nothing else |
| `Scope.StartsWithMeans` | scripts/ci-scope.ts:119-166 | a path starts with a prefix exactly when it is that and more |
| `Scope.DependentsOf` | scripts/ci-scope.ts:114-134 | the areas at each path are exactly those of the suites that reach or name it |
| `Scope.ScopeOf` | scripts/ci-scope.ts:136-162 | the loop narrows exactly for a pull request whose every changed path may be narrowed |
| `Scope.SelectsExactly` | scripts/ci-scope.ts:136-166 | a change that narrows selects exactly the suites in an area some changed path reaches; any other, all |
| `Scope.ChangedSuiteRuns` | scripts/ci-scope.ts:109-134 | a suite whose own file changed runs |
| `Scope.MorePathsDropNothing` | scripts/ci-scope.ts:136-183 | adding changed paths to a nonempty change drops no suite and no check |
| `Scope.NoPathRunsEverything` | scripts/ci-scope.ts:145-147 | with no path read everything runs, so the first path added is not growth |
| `Scope.ScopedCasesRunOnce` | scripts/ci-scope.ts:186-191 | each case of an in-scope suite runs once across the shards, and no other suite's runs |
| `SuiteFiles.ListingReads` | scripts/suite-files.ts:202-211 | the reader undoes the listing git prints, whatever characters but NUL the paths hold |
| `SuiteFiles.EntryReadsExactly` | scripts/suite-files.ts:207-211 | a listing's entry is read from exactly what git prints of a file; any other is refused |
| `SuiteFiles.HeaderReadsExactly` | scripts/suite-files.ts:217-219 | and a blob's header from exactly what git prints of one |
| `SuiteFiles.SubarrayIs` | scripts/suite-files.ts:216-221 | a range of bytes is read as its ends say, one before the end or past it included |
| `SuiteFiles.ChangeIsExactly` | scripts/suite-files.ts:247-252 | and a change from exactly a deletion's or a rename's fields |
| `SuiteFiles.BlobsRead` | scripts/suite-files.ts:213-223 | blobs of any bytes, newlines and headers among them, come back as a batch printed them |
| `SuiteFiles.MissingIsRefused` | scripts/suite-files.ts:216-218 | a blob git could not read is refused |
| `SuiteFiles.MaterialisesWhatGitPrints` | scripts/suite-files.ts:201-224 | what git prints of any files, listed and dumped, is written back as those very files |
| `SuiteFiles.Blobs` | scripts/suite-files.ts:214-223 | the offset loop reads what the definition of a batch says |
| `SuiteFiles.Materialise` | scripts/suite-files.ts:201-224 | and throws exactly when the listing or a blob does not read, or the listing is empty |
| `SuiteFiles.DiffReads` | scripts/suite-files.ts:242-254 | the reader undoes the changes git prints, paths spelled `D` or like a rename's status included |
| `SuiteFiles.ChangesSince` | scripts/suite-files.ts:242-254 | the field loop leaves the deleted paths in order and each renamed path's new name, or throws where the definition does |
| `SuiteFiles.DroppedExactly` | scripts/suite-files.ts:277-279 | a suite the base named is told dropped exactly when, under its renamed path, it is neither named nor deleted |
| `Recovery.OwedIs` | apps/api/function.ts:251-252 | the owed are exactly the keys due, the longest due first and then as the scope names them |
| `Recovery.UntriedAreOwed` | apps/api/function.ts:251 | a key not attempted yet is owed at any time, and before any is, all are, as the scope names them |
| `Recovery.WaitingMovesUp` | apps/api/function.ts:231-249 | while a key owed is not attempted none comes ahead of it, and one whose attempt ends past its due time no longer is |
| `Recovery.OwedIsAttempted` | apps/api/function.ts:217-260 | whatever passes fail or hit the deadline, a key owed is attempted within one run more than there are keys, and within as many as there are keys if the clock passed its due time in the first attempt |
| `Recovery.BreaksOff` | apps/api/function.ts:234-236 | a run that leaves an owed key unattempted broke off at its deadline |
| `Recovery.OwedAgainExactlyFrom` | apps/api/function.ts:246 | a key attempted is owed again from a minute after a pass that succeeded, and at once after one that failed |
| `Recovery.SucceededIsLeftAlone` | apps/api/function.ts:229-252 | whatever the runs after it do, a key whose pass succeeded is attempted by none that starts within a minute |
| `Recovery.Sweep.RunOnce` | apps/api/function.ts:231-249 | the loop under the deadline attempts and marks exactly those |
| `Carrier.OneCallOneWord` | apps/model-agent/carrier.ts:130-262 | over every order of events: accepted at most once; custody asked at most once, with the deadline fixed at accept and before it passes; one last word, the only one repeated, resent unasked at most three times |
| `Carrier.NeverBack` | apps/model-agent/carrier.ts:86-94 | the state never goes back, and the accept time and the last word stay |
| `Carrier.AskedExactlyWhen` | apps/model-agent/carrier.ts:183-217 | custody is asked exactly by a request heard on an accepted call, whole, with its deadline, in time, on a machine not too busy |
| `Carrier.FinalWordExactlyWhen` | apps/model-agent/carrier.ts:130-217 | over every run from the offer: the last word is an answer exactly when custody answered so on the running call, a custody refusal exactly when it refused so, and one of the agent's own exactly by that refusal's guard on a request heard while accepted |
| `Carrier.LostHasNoWord` | apps/model-agent/carrier.ts:166-170 | a call custody lost is done, and has no last word however long it is asked |
| `Carrier.RunsExactlyWhile` | apps/model-agent/carrier.ts:183-262 | from any sound state: a call is accepted, runs and is done exactly by its own steps |
| `Carrier.SaidAgainExactlyBy` | apps/model-agent/carrier.ts:135-196 | the last word is repeated exactly by a request heard after it, and resent exactly by its timer on a call not settled with a resend left |
| `Carrier.SaidExactlyBy` | apps/model-agent/carrier.ts:155-262 | accepted, and told written, each exactly by its own step |
| `Carrier.TimerAlwaysHolds` | apps/model-agent/carrier.ts:130-143 | over every run: while its timer runs the last word was resent three times less what is left |
| `Carrier.TimerExactlyBy` | apps/model-agent/carrier.ts:120-143 | the timer runs from the last word on until let go, settled or spent |
| `Carrier.ListensExactlyWhile` | apps/model-agent/carrier.ts:219-262 | a call is listened to from its accept until settled or let go, and settled exactly by the broker's word |
| `Carrier.HeldExactlyUntil` | apps/model-agent/carrier.ts:243-247 | and held until let go |
| `Carrier.SettledSaysNoMore` | apps/model-agent/carrier.ts:219-234 | a call settled once done says no more, whatever comes |
| `Carrier.CarriedCall.Hear` | apps/model-agent/carrier.ts:183-217 | the code of a request takes the step reasoned about |
| `Carrier.CarriedCall.Conclude` | apps/model-agent/carrier.ts:130-143 | and of a last word |
| `Carrier.CarriedCall.OutcomeCame` | apps/model-agent/carrier.ts:159-180 | and of custody's outcome |
| `Carrier.CarriedCall.HearSettled` | apps/model-agent/carrier.ts:219-234 | and of the broker's word that it has the last one |
| `Carrier.CarriedCall.Again` | apps/model-agent/carrier.ts:135-142 | and of a resend |
| `Carrier.CarriedCall.Resume` | apps/model-agent/carrier.ts:249-265 | and of the accept |
| `Carrier.EveryCallOneWord` | apps/model-agent/carrier.ts:225-298 | over every order of offers, of what their calls hear, of timers and of the stop: at most one call of an id is held, and each call ever made, let go or not, asks custody at most once, in time, and has at most one last word |
| `Carrier.MoveIsEachCallsStep` | apps/model-agent/carrier.ts:237-298 | a move of the agent's makes a call exactly for an offer it takes, and is to every other call its own event, its letting go, or nothing |
| `Carrier.EveryOfferTakenIsOneRun` | apps/model-agent/carrier.ts:237-298 | over every order of moves: an offer taken makes a call, and that call is one call's run from the offer over just what was its own |
| `Carrier.Agent.OnOffer` | apps/model-agent/carrier.ts:237-242 | a call is new exactly when its id makes a topic, none of its id is held and the agent has not stopped |
| `Carrier.Agent.KeptOver` | apps/model-agent/carrier.ts:243-247 | ten minutes on, exactly that call is let go |
| `Carrier.Agent.Stop` | apps/model-agent/carrier.ts:290-298 | stopped, no offer is taken, no call is held or listens, and none is otherwise changed |
| `PresenceMaps.MapsAreCurrent` | apps/api/presence.ts:55-83 | over every sequence of joins, marks and leaves, late and repeated leaves included, the maps reached from the root hold exactly the seats joined last and not left, no empty topic or business stands at a key, and what each leave holds on to is, while not empty, the very map at its key |
| `PresenceMaps.OwnIsCurrent` | apps/api/presence.ts:63-70 | a leave whose seat is still in the map it holds on to holds the very maps now at its keys |
| `PresenceMaps.LeaveSeats` | apps/api/presence.ts:63-70 | that seat is its own exactly when it is the one found at its place now, and the leave then takes it alone |
| `PresenceMaps.SpentLeaveChangesNothing` | apps/api/presence.ts:63-65 | a leave spent by an earlier leave or a rejoin changes nothing, whatever detached maps it holds on to |
| `PresenceMaps.HeldIsZeroWhenAllLeft` | apps/api/presence.ts:113-120 | nothing is held exactly when no seat is current |
| `Presence.SeenMeans` | apps/api/presence.ts:86-102 | each other staff person is seen once, changing exactly when some seat of theirs is, and then by the first such field |
| `PresenceMaps.HubHolds` | apps/api/live-presence.ts:49-63 | over every sequence, no empty listener set stands at a key, what a call holds on to is, while not empty, the very set at its key, and its listener is in it until it leaves |
| `PresenceMaps.ListenersAre` | apps/api/live-presence.ts:43-63 | over every sequence: who is told of a change at a key is exactly the seat calls made there and not yet left |
| `PresenceMaps.HubIsBookAndCalls` | apps/api/live-presence.ts:49-63 | the hub's seats are the book's, and its open calls those made and not left |
| `PresenceMaps.SecondLeaveChangesNothing` | apps/api/live-presence.ts:56-62 | a call's leave called again changes no listener and no seat, though others listen at its key by then |
| `PresenceMaps.HubHoldsNothingWhenAllLeft` | apps/api/live-presence.ts:49-77 | the hub, listeners included, holds nothing exactly when every seat call has left, rejoined seats' calls and second leaves too |
| `PresenceMaps.PresenceBook.Join` | apps/api/presence.ts:55-62 | the code of a join takes the step reasoned about, and announces a staff seat only |
| `PresenceMaps.PresenceBook.Leave` | apps/api/presence.ts:63-72 | and of a leave, on the maps it holds on to and with their two guards, announced only when a staff seat went |
| `PresenceMaps.PresenceBook.Mark` | apps/api/presence.ts:76-83 | and of a mark, taken exactly for a staff seat and announced only when the field changed |
| `PresenceMaps.PresenceBook.SeenBy` | apps/api/presence.ts:86-102 | the loop over a topic's seats tells what the lemma above says, and nothing to a client or a session not seated |
| `PresenceMaps.PresenceBook.Count` | apps/api/presence.ts:113-120 | the loops add up every business, topic and seat |
| `PresenceMaps.LivePresenceHub.Sit` | apps/api/live-presence.ts:49-55 | the code of a seat call takes the hub's step |
| `PresenceMaps.LivePresenceHub.Go` | apps/api/live-presence.ts:56-62 | and of its leave, first or again, with the guard on its own set |

## Left out

- Seconds and tokens are exact here; floating-point rounding of loads is not.
- File-system errors other than "it exists" and "it is not there" in the home lock and the credentials, and an epoch file that cannot be read.
- `underLock`'s wait and its deadline: a command that gives up is one that takes no further step.
- The HTTP, SSE, Postgres, git and child-process text; each is an answer or a table here. Parsing JSON: the model starts from parsed messages, with one case for what does not parse.
- The prompt's bytes, model names' pattern and the home's files checked before a child is spawned; the grace a child has to leave.
- The opening frames of a followed stream and when its `seat` frame is said.
- A write that throws while a stream opens; any later failure of a question or a write ends the stream here as there.
- The board's `newRun` notice and the digests' own reading.
- The replay's pages of 500: one ordered read of the table stands for them. Rows appended while a pass runs are appended before or after it.
- The live detector's bound on scopes in memory; the forwarder sets none.
- The heartbeat.
- Custody's own promise to write before the deadline, its pieces, the seals and their expiry: a request that does not open is one case.
- How import-closure.ts turns a string literal into a path (aliases, extensions, directories) and reads a syntax tree: a file's references are given.
- `decidingEvent`, `perInstance`, settings, help and route tables: one branch each.
- `keptSuites`' comparison of a renamed suite's kind.
- A `#part` after a suite's name where its area is read: the manifests name whole suites.
- Reasons printed beside a scope, and the order of its areas.
- Forwarder.LeftAltogether: asks that no row is dated after the pass's clock, because rows from the future open windows of their own; `Forwarder.NoBurstIsLeft` is the bound on any window without it.
- CodexApp.SentTurnIsCharged: leaves out a child that fails to run, because its ending then charges nothing even after the turn was sent; `CodexApp.ChargedNothingExactlyWhen` says exactly when.
- LiveFollow.HeardStaysCovered: holds over runs that drop nothing owed, because the code drops it otherwise; `LiveFollow.CoveredExactlyWhenKept` is the exact condition.
- Recovery.OwedIsAttempted: its runs each begin some attempt, because a clock that jumps past the deadline before the first begins none.
