# A verified model of the msnodesqlv8 core

This project models, in Dafny, the parts of the driver with the most state and arithmetic,
and proves what they are for:

- the connection pool, as a class whose handlers update `idle`, `parked`, `workQueue`, `pause`
  and the counters in place, as a state machine, and as theorems about all its runs;
- milliseconds since 1970 to calendar dates, times and timestamps;
- UTF-8 and UTF-16 conversion, and the removal of passwords from connection strings;
- streaming of native batches to row and column events, with pause and resume, and the
  materialised results built from those events;
- the per-connection work queue on its binary heap;
- array parameters packed into strided buffers, numeric parameters as little-endian mantissas,
  and bulk rows split into batches and transposed into columns.

Each file is one module. A file with a class or methods is written the way the source is, with
loops and assignments; every method is proved against a function or a predicate, and the lemmas
beside it say what that function is good for. `dafny verify dfyconfig.toml` checks everything.

## How the pool and the streams are modelled

JavaScript runs a handler to completion, so one handler is one step. What the outside world does
- opens and closes completing, queries raising `submitted`, `error` and `free`, timers, calls of
the user, `open` among them - is a sequence of events, and a theorem about runs is about every
sequence. `Legal` and `Enabled` say what the world can do: a query frees once, whether or not it was
submitted (a procedure call with wrong parameters frees without, `lib/procedure-bound.js:258-265`);
heartbeat events may come in any order and any number of times. A user's listener that calls back into the
pool is a separate event. Drains that follow a grow are events that may happen at any time, which
covers every time they do happen. The pool is followed from its construction until it is closed.

A run of the pool is orderly when a transaction is finished only while no query is live on its
description. A run of a stream is orderly when the batch that ends a result is dispatched whole, no
pause is in force once a result that follows has been announced, and the query is resumed only while
it runs with no native call under way; a query may start paused, and any listener may pause it. What
runs that are not orderly lose is listed below.

The object and the model are tied by `ConnectionPool.Play` and `StreamQuery.Play`: the object run
over any orderly sequence of events is in the state the model says.

## What was found

Where the code does less than its documentation, its comments or the obvious reading promise, the
model follows the code, and the exact condition is proved:

- **A transaction finished before its begin query was freed shares its connection.** The callback
  of `beginTransaction` runs before the query's `free` event (`lib/driver.js:182-190`); a commit in
  it turns the description's work into a committing one, so that `free` returns the description to
  the pool while the commit is live. `FinishIsSafeExactlyWhen` gives the condition, a query still
  live on the description; `EarlyCommitSharesConnection` is a whole run.
- **A begin that fails keeps its connection.** Its errors go to the work's callback and raise no
  'error' (`lib/reader.js:82-92`), so that `free` leaves the description with the transaction, while
  the callback is given no description to roll back (`lib/pool.js:399-402`).
  `FreedReturnsExactlyWhen` says when a freed query returns its description; one that stays out does
  so until a commit or rollback on it is freed (`HeldUntilFinished`, `FinishedComesBack`).
  `FailedBeginKeepsConnection` is a pool of one connection that has none to give from then on.
- **The ceiling is exceeded by opens that complete while something is checked out.** The checkin of
  a new connection decrements the busy counter of another. `CeilingHolds` bounds the excess by the
  number of such opens, `RacedOpenExceedsCeiling` is a run that reaches it. Creations that wait for
  the scaling delay are counted only when they start, and exponential growth from size zero creates
  `floor` connections even where fewer are needed; the bound then grows by what the grow that counted
  least left out, and by nothing else, under every strategy (`CeilingWithoutRaces`).
  `DelayedCreationOvershoots` and `SecondOpenOvershoots` are runs;
  `GrowStaysWithinCeilingExactlyWhen` is the condition for one grow.
- **createDateStruct reports 9999-12-31 from 9968-12-30T23:59:59.999 on**, and
  createTimestampStruct with it; `TimestampInverts` lists exactly the instants that survive.
- **strtohextoval and the divisor keep 32 bits.** A number is read back exactly when the decimals
  allowed represent it, it needs at most nine of them, and its mantissa is below 2^31
  (`DecodeAfterEncode`, for every number and every limit). `TenthDecimalIsMisread` and
  `LargeMantissaIsMisread` are one number each way.
- **A pause in force on the batch that ends a result loses rows**: the flags of the batch are acted
  on all the same. Unless the query is resumed before it has moved on, `LastBatchIsWholeExactlyWhen`
  says exactly when, in terms of which listeners pause; `PausedLastBatchLosesARow` is a query that does.
  Resumed before that, it dispatches the rest (`ResumeBeforeTheMove`) but moves on a second time,
  past the next result (`SecondMoveSkips`, `ResumeWhileMovingSkipsOne`).
- **A query paused as it comes to its next result skips that result** when it resumes, because the
  batch data of the last one are still there: every orderly run past a result with rows reads it whole
  exactly when no pause is in force as the query moves on and no listener of the result's columns
  pauses (`NextResultIsReadExactlyWhen`). `PauseBetweenResultsSkipsOne` and `PauseOnColumnsSkipsOne`
  are queries that skip one.
- **Dropping the live operation of the work queue makes the next one be removed without being run.**
  Every operation left in the queue runs exactly when the dropped one was not live, or was alone
  (`DropLosesNoOtherExactlyWhen`). While nothing is parked no caller does that: a cancel drops an
  operation only after it has found that it is not live (`lib/driver.js:69-75`), and the other two
  callers drop parked ones (`lib/driver.js:106`, `lib/driver.js:295`).

## Model

| member | source | states |
|---|---|---|
| PoolTheorems.EveryRunKeepsPhases | lib/pool.js:678-713 | After any orderly run each description is in exactly one of idle, parked, out and closing; idle ones are connected and parked ones not; a heartbeat ends in one checkin or one recreate; the busy counter is between 0 and what is out |
| PoolTheorems.RunKeepsInv | lib/pool.js:337-380 | The same, with queries and descriptions matched one to one, from any state that satisfies the invariant |
| PoolTheorems.StepKeepsInv | lib/pool.js:865-972 | One handler keeps it, provided a transaction is finished only when no query is live on its description |
| PoolTheorems.InitialInv | lib/pool.js:271-289 | A new pool satisfies it |
| PoolRuns.RunKeepsBase | lib/pool.js:425-517 | Along every run, orderly or not, records exist and work is conserved, flagged and ordered |
| PoolInvariants.DrainStepKeeps | lib/pool.js:455-468 | A turn of the drain loop keeps where descriptions are |
| PoolTransactions.TransactionIsExclusive | lib/pool.js:337-417 | From dispatch until its begin query frees in error or unsubmitted, or its commit or rollback query frees, a transaction's description is not in the pool, and no other work or heartbeat runs on it |
| PoolTransactions.DispatchOpens | lib/pool.js:466-468 | Dispatch of a transaction item is where that starts |
| PoolTransactions.FinishIsSafeExactlyWhen | lib/pool.js:594-615 | finishTransaction exposes a live query to the pool if and only if a query is live on the description when it is called |
| PoolTransactions.EarlyFinishExposes | lib/pool.js:352-372 | The half that names the query whose free event does it |
| PoolTransactions.FinishesExactlyWhen | lib/pool.js:594-606 | finishTransaction does something if and only if the description's work is a transaction, finished before or not |
| PoolCounterexamples.EarlyCommitSharesConnection | lib/pool.js:594-615 | A run that commits in the begin callback and ends with two work items on one connection |
| PoolTransactions.FreedReturnsExactlyWhen | lib/pool.js:352-372 | A freed query returns its description if and only if it errored or the description's work is no begun transaction; for a submitted query, if and only if it errored or its own work is none |
| PoolOutcomes.DispatchedComesBackExactlyWhen | lib/pool.js:337-381 | Over any orderly run from its dispatch to its free event, a query returns its description if and only if it was never submitted, had an error event, or begins no transaction |
| PoolOutcomes.RunServes | lib/pool.js:338-378 | Until it frees, a query is live on its description with exactly what the submitted and error events so far have told it |
| PoolOutcomes.DispatchServes | lib/pool.js:466-468 | Dispatch makes a query that has been told nothing |
| PoolTransactions.HeldUntilFinished | lib/pool.js:355-361 | A description left with a begun transaction stays out of the pool through every orderly run in which nobody commits or rolls back on it |
| PoolTransactions.FinishedComesBack | lib/pool.js:594-615 | Once somebody does, the free event of that query returns it, errors or not |
| PoolCounterexamples.FailedBeginKeepsConnection | lib/pool.js:399-402 | A begin that raises no error event leaves a pool of one connection with nothing idle in every run that follows without a commit or rollback |
| PoolCeiling.CeilingHolds | lib/pool.js:715-834 | Along every orderly run, under every strategy and scaling delay, connections open or promised number at most the ceiling, plus what the grow that counted least left out, plus the raced opens |
| PoolCeiling.CeilingWithoutRaces | lib/pool.js:715-834 | Without a raced open the busy counter is exact and only what grows left uncounted can exceed the ceiling: nothing, for an aggressive strategy, or without a scaling delay unless growth is exponential with a floor above one |
| PoolCeiling.OpenKeepsCeiling | lib/pool.js:803-809 | An open leaves the total within its bound; the busy counter falls behind by one exactly when the open raced |
| PoolCeiling.GrowMakesProgress | lib/pool.js:715-834 | Outside the efficient strategy every grow that does not return early strictly decreases ceiling minus existing |
| PoolCeiling.CountExceedsNeedExactlyWhen | lib/pool.js:752-792 | A grow asks for more than is needed exactly for exponential growth from size zero with a floor above the need |
| PoolCeiling.GrowthIsPaced | lib/pool.js:752-792 | Gradual growth stays within its increment, exponential growth at most doubles, efficient growth stays within the floor before opening and within the queued work after, aggressive growth asks for exactly the need |
| PoolCeiling.GrowthMeetsNeed | lib/pool.js:746-792 | What a grow with room starts or delays, strategy by strategy and exactly: an open efficient pool the least of the queued items beyond the idle connections, the room and the increment; one not open what is missing to its floor; gradual growth the least of room and increment; exponential growth its rounded share within the room, or its floor at size zero; aggressive growth all the room |
| PoolCeiling.GrowthStarts | lib/pool.js:794-829 | Without room a grow starts nothing, and with room at least one, save an efficient one that nothing waits for; with a delay all but one wait |
| PoolCeiling.CrankServesQueue | lib/pool.js:446-517 | A crank that leaves work queued, nothing idle and room under the ceiling starts a connection |
| PoolCeiling.CreationsAreAnswered | lib/pool.js:796-820 | Along every run the creations started or delayed and not yet answered are the ones counted as pending or delayed |
| PoolCeiling.ParkLeavesFloor | lib/pool.js:930-936 | Parking takes one inactive description and never leaves fewer than floor idle |
| PoolTimer.UnusedIsParked | lib/pool.js:865-920 | The only connection of a pool without a floor, left alone and answering every heartbeat, is closed in the end |
| PoolTimer.ParksExactlyWhen | lib/pool.js:865-877 | A tick closes the first idle connection whose heartbeats reach the inactivity timeout, if and only if there is one and more than floor are idle |
| PoolTimer.BeatsExactlyWhen | lib/pool.js:894-901 | A tick takes out the first idle connection silent for the heartbeat interval, if and only if there is one |
| PoolTimer.HeartbeatDecides | lib/pool.js:904-927 | Done brings the connection back with one more heartbeat counted, an error keeps it out for recreation, and only the first outcome does anything |
| PoolTimer.RecreatedComesBack | lib/pool.js:959-972 | A recreated connection comes back as just used |
| PoolTimer.ParkedIsReused | lib/pool.js:319-335 | A connection that opens goes to the description parked longest, and to a new one only where none is parked |
| PoolTimer.ClosedIsParked | lib/pool.js:940-946 | A closed connection leaves its description parked, first in line, without a connection |
| PoolTimer.WorkIsUse | lib/pool.js:408-417 | Work resets the count of heartbeats |
| PoolTheorems.IdleIsFirstInFirstOut | lib/pool.js:678-713 | Descriptions checked in one after the other line up so that checkout takes them in that order |
| PoolCounterexamples.SecondOpenOvershoots | lib/pool.js:774-786 | A run without raced opens in which exponential growth puts four connections under a ceiling of three |
| PoolCounterexamples.DelayedCreationOvershoots | lib/pool.js:796-803 | A run without raced opens in which a creation waiting for the scaling delay makes three connections under a ceiling of two |
| PoolCeiling.GrowStaysWithinCeilingExactlyWhen | lib/pool.js:715-834 | With an exact busy counter, what a grow starts at once or later stays within the ceiling if and only if it is not an exponential grow from size zero with a floor above the need |
| PoolCeiling.OpenStarts | lib/pool.js:836-841 | What opening a new pool starts under each strategy, floor connections when it is efficient |
| PoolCeiling.AggressiveGrowFills | lib/pool.js:788-792 | An aggressive grow reaches the ceiling plus the lag of the busy counter, so the ceiling is kept if and only if the counter is exact |
| PoolCeiling.RacedOnlyGrows | lib/pool.js:692-694 | The number of raced opens rises with an open that finds the busy counter positive, and with nothing else |
| PoolCounterexamples.RacedOpenExceedsCeiling | lib/pool.js:715-834 | A run with ceiling 2 that holds three connections |
| PoolOrder.EachItemInOnePlace | lib/pool.js:425-517 | Each submitted item is once in exactly one of the queue, pause, dispatched and released |
| PoolOrder.DispatchedInSubmitOrder | lib/pool.js:647-657 | Items never paused while waiting are dispatched in the order of submission |
| PoolOrder.CancelledNeverDispatched | lib/pool.js:113-124 | In every run, an item cancelled before it was dispatched never gets a connection |
| PoolOrder.PausedUntilResumed | lib/pool.js:126-138 | In every run, an item paused before it was dispatched gets no connection until it is resumed |
| PoolOrder.ResumedIsQueued | lib/pool.js:425-438 | A resumed item leaves pause for the queue at the next drain |
| PoolOrder.CancelComesFirst | lib/pool.js:457-468 | A cancelled item is released even where it is paused too, a paused one put back, and any other given a connection |
| PoolOrder.PromotedGoFirst | lib/pool.js:425-469 | A drain dispatches as many items as connections are idle or as may run: first those it promotes, then those queued |
| PoolOrder.PausedLongestFirst | lib/pool.js:425-438 | Among promoted items the one paused longest comes first |
| PoolOrder.DrainLoopTakes | lib/pool.js:455-469 | The drain loop stops only at an empty queue or pool, and each item it pops meets the fate its flags say, in order |
| ConnectionPool.ConnectionPool.Handle | lib/pool.js:271-299 | Each event takes the object to the state the model's step says |
| ConnectionPool.ConnectionPool.Play | lib/pool.js:894-900 | Over any orderly run the object is where the model is, and no timer meets a null connection |
| ConnectionPool.ConnectionPool.Checkin | lib/pool.js:678-700 | checkin, with its guard against a second checkin |
| ConnectionPool.ConnectionPool.Checkout | lib/pool.js:702-713 | checkout takes the last idle description |
| ConnectionPool.ConnectionPool.Item | lib/pool.js:408-417 | The description begins and the query is listened to |
| ConnectionPool.ConnectionPool.Submit | lib/pool.js:540-573 | New work goes to the far end of the queue |
| ConnectionPool.ConnectionPool.PauseQuery | lib/pool.js:126-131 | Flags of a waiting item |
| ConnectionPool.ConnectionPool.CancelQuery | lib/pool.js:113-124 | A cancel marks an item only while it has no query object |
| ConnectionPool.ConnectionPool.PromotePause | lib/pool.js:425-438 | The splicing loop moves exactly the items no longer paused, and keeps the order of both parts |
| ConnectionPool.ConnectionPool.DrainLoop | lib/pool.js:455-469 | The drain loop, which terminates |
| ConnectionPool.ConnectionPool.Crank | lib/pool.js:446-517 | crank up to its await, for both kinds of strategy |
| ConnectionPool.ConnectionPool.Grow | lib/pool.js:715-834 | How many creations a grow starts and how many it delays |
| ConnectionPool.ConnectionPool.Open | lib/pool.js:836-841 | open grows a pool that is not open yet, and does nothing to one that is |
| ConnectionPool.ConnectionPool.ConnectionsToCreate | lib/pool.js:748-792 | The number of connections to create, by strategy |
| ConnectionPool.ConnectionPool.ConnectionOpened | lib/pool.js:803-809 | An opened connection is given to a parked or new description and checked in |
| ConnectionPool.ConnectionPool.GetDescription | lib/pool.js:319-335 | A parked description is reused, the last one first |
| ConnectionPool.ConnectionPool.OnFree | lib/pool.js:352-372 | A freed query returns its description unless a transaction without errors holds it |
| ConnectionPool.ConnectionPool.FinishTransaction | lib/pool.js:594-615 | A commit or rollback runs on the description, or is refused |
| ConnectionPool.ConnectionPool.Park | lib/pool.js:865-877 | The first inactive idle description is parked if more than floor are idle |
| ConnectionPool.ConnectionPool.ParkClosed | lib/pool.js:940-946 | A parked description loses its connection |
| ConnectionPool.ConnectionPool.Heartbeat | lib/pool.js:894-901 | The first due description is checked out, and its connection is not null |
| ConnectionPool.ConnectionPool.OnHeartbeatDone | lib/pool.js:908-919 | Only the first outcome of a heartbeat counts: done |
| ConnectionPool.ConnectionPool.OnHeartbeatError | lib/pool.js:920-927 | Only the first outcome of a heartbeat counts: error |
| ConnectionPool.TimerIsSafe | lib/pool.js:894-900 | In every state of an orderly run the idle descriptions a timer may use are connected |
| Calendar.CreateDateStruct | cpp/src/common/time_utils.cpp:5-117 | A valid date for every integer input: the calendar date of the instant, clamped at both ends as written |
| Calendar.DateFromDays | cpp/src/common/time_utils.cpp:47-116 | The year and month loops and the -365 shortcut give the date with that day number |
| Calendar.YearAfterEpoch | cpp/src/common/time_utils.cpp:63-79 | The loop forward ends in the year that contains the day |
| Calendar.YearBeforeEpoch | cpp/src/common/time_utils.cpp:80-95 | The loop backward does |
| Calendar.MonthAndDay | cpp/src/common/time_utils.cpp:97-109 | The month loop ends in the month that contains the day |
| Calendar.YearsAccumulate | cpp/include/common/time_utils.h:51-55 | Leap years by the rule of section 3.2.1 of ISO 8601:2004 add up to the closed day count |
| Calendar.MonthsInClosedForm | cpp/include/common/time_utils.h:46-49 | The days before each month by a rule that reads no table, so that each month has its Gregorian length |
| Calendar.DateInFull | cpp/src/common/time_utils.cpp:5-117 | The date of every instant in numbers alone: the two clamps, the length of each month, the leap rule, and the day count in closed form |
| Calendar.DayNumberOrdersDates | cpp/src/common/time_utils.cpp:47-116 | Day numbers order valid dates as their fields do |
| Calendar.DateIsMonotone | cpp/src/common/time_utils.cpp:5-117 | A later instant never gets an earlier date |
| Calendar.DateIsTrueExactlyWhen | cpp/src/common/time_utils.cpp:9-43 | The date is the calendar date if and only if the instant is outside the clamped stretches |
| Calendar.CreateTimeStruct | cpp/src/common/time_utils.cpp:119-148 | A valid time of day whose hours, minutes, seconds and fraction add up to the instant modulo a day |
| Calendar.CreateTimestampStruct | cpp/src/common/time_utils.cpp:150-195 | Date and time of the instant, with its own clamps |
| Calendar.TimestampInverts | cpp/src/common/time_utils.cpp:150-195 | Recombining a timestamp gives the instant back if and only if the instant is faithful |
| Calendar.TimestampIsStrictlyMonotone | cpp/src/common/time_utils.cpp:150-195 | On faithful instants timestamps are strictly monotone |
| Calendar.ClampedTimestampIsWrong | cpp/src/common/time_utils.cpp:20-35 | An instant of 9968 reported as 9999 |
| Transcoding.Utf8ToU16String | cpp/src/common/string_utils.cpp:95-145 | Terminates on every byte string, with no more units than bytes |
| Transcoding.U16StringToUtf8 | cpp/src/common/string_utils.cpp:159-200 | The encoder's loop |
| Transcoding.WideToUtf8 | cpp/src/common/string_utils.cpp:203-245 | The same bytes as U16StringToUtf8 on the same units, at most three a unit |
| Transcoding.Utf8ToUtf16 | cpp/src/common/string_utils.cpp:64-82 | The strict decoder, with its exceptions |
| Transcoding.LenientAgreesWithStrict | cpp/src/common/string_utils.cpp:64-145 | Where the strict decoder does not throw the lenient one gives the same |
| Utf8Malformed.MalformedIsReplaced | cpp/src/common/string_utils.cpp:112-118 | A first byte that starts nothing, or announces more bytes than are left, becomes U+FFFD alone, and stops the strict decoder |
| Utf8Malformed.TooLargeIsReplaced | cpp/src/common/string_utils.cpp:133-136 | A complete four-byte sequence above U+10FFFF becomes one U+FFFD |
| Utf8Malformed.CompleteIsDecoded | cpp/src/common/string_utils.cpp:120-138 | Any complete sequence gives the UTF-16 form of the number it carries, whatever its continuation bytes are, unless that is above U+10FFFF |
| Utf8Malformed.StrictDecodesExactlyWhen | cpp/src/common/string_utils.cpp:64-82 | The strict decoder succeeds if and only if the input is complete sequences, none above U+10FFFF |
| Transcoding.Utf16RoundTrip | cpp/src/common/string_utils.cpp:95-200 | Decoding what was encoded gives back every sequence of 16-bit units, unpaired surrogates included |
| Utf8RoundTrips.WellFormedDecodes | cpp/src/common/string_utils.cpp:17-145 | Well-formed UTF-8 (section 4 of RFC 3629) becomes the UTF-16 form (section 2.1 of RFC 2781) of the same scalar values |
| Utf8RoundTrips.WellFormedRoundTrip | cpp/src/common/string_utils.cpp:95-200 | and encoding that gives the bytes back |
| Utf8RoundTrips.BytesRoundTripExactlyWhen | cpp/src/common/string_utils.cpp:95-200 | Bytes survive decoding and encoding if and only if they are UTF-8 with three-byte surrogates that form no pair |
| Utf8RoundTrips.EncodedIsGeneralized | cpp/src/common/string_utils.cpp:159-200 | The encoder writes only such bytes |
| Utf8RoundTrips.ScalarsRoundTrip | cpp/src/common/string_utils.cpp:159-200 | Every sequence of scalar values is encoded to well-formed bytes that denote it |
| Utf8RoundTrips.MasksComputeScalar | cpp/src/common/string_utils.cpp:29-50 | The masks and shifts of the decoder compute the scalar value of a character |
| Utf8Grammar.Utf16FormIsEncoded | cpp/src/common/string_utils.cpp:52-62 | EncodeUtf16 gives the UTF-16 form |
| Sanitizer.SanitizeConnectionString | cpp/src/common/string_utils.cpp:260-331 | The scanning loops |
| Sanitizer.MaskedAfterKey | cpp/src/common/string_utils.cpp:277-318 | The first pwd= or password= written anywhere, each letter small or capital, is kept, its value becomes eight asterisks, and scanning goes on after the semicolon |
| Sanitizer.MaskedAfterPlainText | cpp/src/common/string_utils.cpp:277-318 | In particular behind any text without an equals sign |
| Sanitizer.CopiedWithoutKey | cpp/src/common/string_utils.cpp:319-323 | Text in which neither is written is copied as it is |
| Sanitizer.SanitizeIsIdempotent | cpp/src/common/string_utils.cpp:260-331 | Sanitizing twice changes nothing more |
| Sanitizer.PasswordIsHidden | cpp/src/common/string_utils.cpp:294-318 | Any two ';'-free values of a recognised field give the same output |
| Sanitizer.OutputStartsLikeInput | cpp/src/common/string_utils.cpp:272-323 | Sanitizing creates no new key |
| StreamModel.DispatchRowKeepsIndex | lib/reader.js:216-229 | Dispatching a row does not move the batch index, so that the dispatch loop terminates |
| StreamRuns.RowTurnEffect | lib/reader.js:216-260 | A turn of the loop emits one row event and then every column in order, whatever its handlers do |
| StreamRuns.DispatchRowsKeeps | lib/reader.js:243-260 | A dispatch emits whole rows of the batch in order, until the batch ends or a pause |
| StreamRuns.StepKeepsInv | lib/reader.js:365-393 | Every step keeps what was shown, what is left and what was emitted in agreement |
| StreamRuns.OrderlyRunEmitsInOrder | lib/reader.js:216-260 | For every batching and orderly schedule of pauses, a start in pause and listeners of columns among them, the events so far are a prefix of the ideal stream: each row once, in order, numbered consecutively, columns together |
| StreamRuns.FinishedRunIsComplete | lib/reader.js:313-363 | A finished orderly run has emitted the whole stream and passed the callback the concatenated batches |
| StreamRuns.RunFinishes | lib/reader.js:454-478 | Answered and resumed, a query finishes unless it becomes disorderly |
| StreamRuns.PausedStartIsQuiet | lib/reader.js:365-374 | Paused before it begins, or at its first columns, a query asks for nothing and emits nothing more until it is resumed, and then asks for the first batch |
| StreamRuns.StartAsksExactlyWhen | lib/reader.js:422-427 | A query asks for its first batch at once if and only if it was not paused before it began and no listener of its first columns pauses |
| StreamRuns.EndedAsksNothing | lib/reader.js:365-369 | Once it has ended, a query asks for no more batches and passes nothing on, whatever comes |
| StreamRuns.LastBatchIsWholeExactlyWhen | lib/reader.js:374-385 | Every run without a resume that gets past a result has passed it on whole and emitted its rows, if and only if no pause came before the last row of its last batch |
| StreamRuns.ResumeBeforeTheMove | lib/reader.js:454-478 | Resumed before it moves on, the query shows the result whole if and only if no listener of the rest pauses it too early, and unless it is left paused has two moves under way |
| StreamRuns.SecondMoveSkips | lib/reader.js:313-363 | Two moves under way pass the result after on empty |
| StreamRuns.WholeBatchExactlyWhen | lib/reader.js:254-259 | dispatchRows gets through a batch if and only if no handler before its last row pauses |
| StreamRuns.NextResultIsReadExactlyWhen | lib/reader.js:313-363 | Every orderly run that gets past a result with rows has passed it on whole and emitted its rows, if and only if no pause is in force as the query moves on to it and no listener of its columns pauses |
| StreamRuns.PausedResultIsSkipped | lib/reader.js:454-478 | Paused once it has announced a result and then resumed, the query passes it on empty and emits nothing of it but its columns |
| StreamCounterexamples.PausedLastBatchLosesARow | lib/reader.js:374-385 | A query of one batch that ends with one row of two |
| StreamCounterexamples.PauseBetweenResultsSkipsOne | lib/reader.js:454-478 | A query of two results that ends with the second passed on empty |
| StreamCounterexamples.PauseOnColumnsSkipsOne | lib/reader.js:353-357 | The same where only a listener of the second result's columns pauses |
| StreamCounterexamples.ResumeWhileMovingSkipsOne | lib/reader.js:454-478 | The same where the query is paused and resumed while it is moving on |
| StreamQuery.Query.Play | lib/reader.js:365-393 | Over any orderly run the object is where the model is |
| StreamQuery.Query.DispatchRow | lib/reader.js:216-229 | The column loop |
| StreamQuery.Query.DispatchRows | lib/reader.js:243-260 | The row loop |
| StreamQuery.Query.OnFetched | lib/reader.js:373-388 | The continuation of a fetch |
| StreamQuery.Query.MoveToNextResult | lib/reader.js:313-363 | A finished result is passed on and the next one begun |
| StreamQuery.Query.Resume | lib/reader.js:454-478 | Resuming dispatches what is left of the batch, then fetches or moves on |
| Aggregator.StreamedResultsAreTheTables | lib/query-aggregator.js:104-123 | Streaming refines materialising: a finished orderly run has built exactly the concatenated batches of every result |
| Aggregator.IdealFed | lib/query-aggregator.js:28-44 | The ideal stream builds one table a result |
| Aggregator.ColumnsFed | lib/query-aggregator.js:104-123 | Columns in turn overwrite the number a new raw row starts with, and complete the row once |
| Aggregator.TableFed | lib/query-aggregator.js:71-76 | Rows are appended to their result in order |
| Aggregator.AggregatorResults.Listen | lib/query-aggregator.js:28-123 | The object's handlers carry out the same steps |
| PriorityQueues.RootIsLeast | lib/data-struture/heap/Heap.js:105-111 | The root of a heap has the least priority |
| PriorityQueues.PriorityQueue.Peek | lib/data-struture/heap/Heap.js:105-111 | peek gives an item of least priority, or none when empty |
| PriorityQueues.PriorityQueue.Poll | lib/data-struture/heap/Heap.js:120-136 | poll takes out one item of least priority and keeps the heap |
| PriorityQueues.PriorityQueue.Add | lib/data-struture/priority-queue/PriorityQueue.js:25-29 | add keeps the heap and adds that item only |
| PriorityQueues.PriorityQueue.Remove | lib/data-struture/heap/Heap.js:153-190 | remove takes out exactly the items whose priority equals that of the item, and keeps the heap |
| PriorityQueues.PriorityQueue.RemoveAt | lib/data-struture/heap/Heap.js:160-186 | One removal: the last item moves in and is sifted the right way |
| PriorityQueues.PriorityQueue.HeapifyUp | lib/data-struture/heap/Heap.js:226-239 | Sifting up restores the heap with the same items |
| PriorityQueues.PriorityQueue.HeapifyDown | lib/data-struture/heap/Heap.js:244-271 | Sifting down restores the heap with the same items |
| PriorityQueues.CountOfPermutation | lib/data-struture/heap/Heap.js:153-158 | The number of matches depends on the items only, so remove's count stays right while it removes |
| WorkQueues.RunKeepsInv | lib/queue.js:31-75 | In every proper run exactly the head is live, and operations have started once each, in the order of enqueueing, none but dropped ones missing |
| WorkQueues.QueueDrains | lib/queue.js:72-75 | After one nextOp for each queued operation exactly those never dropped have started, in order |
| WorkQueues.DropLosesNoOtherExactlyWhen | lib/queue.js:61-75 | After a drop, with one nextOp for each operation still queued, all of those run if and only if the dropped one was not live or was alone in the queue |
| WorkQueues.DropKeepsExactlyWhen | lib/queue.js:61-63 | A drop keeps the invariant of runs, under which no dropped operation has started, if and only if it is not of the live operation |
| WorkQueues.DroppedLiveLosesAnother | lib/queue.js:61-75 | A run in which dropping the live operation makes the next one vanish without running |
| WorkQueues.WorkQueue.Enqueue | lib/queue.js:31-45 | An operation runs at once if and only if the queue was empty |
| WorkQueues.WorkQueue.NextOp | lib/queue.js:65-75 | The head goes and the next one runs |
| WorkQueues.WorkQueue.DropItem | lib/queue.js:61-63 | A queued operation goes, one that is not queued is ignored |
| WorkQueues.WorkQueue.ExecCancel | lib/driver.js:61-83 | A cancel drops only operations that are not live, and so loses nothing else |
| WorkQueues.WorkQueue.MoveUntil | lib/queue.js:88-102 | Operations are moved aside until one matches |
| WorkQueues.WorkQueue.PushRange | lib/queue.js:81-86 | and put back |
| WorkQueues.WorkQueue.First | lib/queue.js:104-109 | first gives the matching operation with the lowest id and leaves the queue as it was |
| WorkQueues.WorkQueue.EmptyQueue | lib/queue.js:25-29 | emptyQueue empties it |
| Packing.BoundDatum.BindWVarCharArray | cpp/src/core/bound_datum.cpp:301-324 | Every write is in bounds; element i stands at i times the stride with its length in bytes, or -1 for null, and reading the slots gives back every string; type and column size fit the longest, or the length declared |
| Packing.BoundDatum.ReserveWVarCharArray | cpp/src/core/bound_datum.cpp:243-262 | Storage, stride, type and column size |
| Packing.BoundDatum.BindVarBinaryArray | cpp/src/core/bound_datum.cpp:550-581 | The same for buffers, where elements that are no buffer count as null and the stride may be zero |
| Packing.PackedUnpacks | cpp/src/core/bound_datum.cpp:301-324 | A packed buffer determines its elements |
| Packing.PackingIsInjective | cpp/src/core/bound_datum.cpp:301-324 | Two arrays packed into the same buffer and indicators are equal |
| Packing.SlotsNeverOverlap | cpp/src/core/bound_datum.cpp:311-313 | Different slots share no cell |
| Packing.GetMaxStrLen | cpp/src/core/bound_datum.cpp:170-186 | The length of the longest string, which fits an int |
| Packing.GetMaxObjectLen | cpp/src/core/bound_datum.cpp:345-360 | The length of the longest buffer |
| Numeric.Hexify | cpp/src/common/numeric_utils.cpp:55-64 | A hexadecimal numeral of the number, of at most 16 digits below 2^64 |
| Numeric.Hex2Bin | cpp/src/common/numeric_utils.cpp:33-41 | The bytes of the digit pairs, inside the target |
| Numeric.WriteMantissa | cpp/src/common/numeric_utils.cpp:132-142 | hexify, padding, hex2_bin and reversal write bytes whose little-endian value is the number |
| Numeric.StrToHexToVal | cpp/src/common/numeric_utils.cpp:66-81 | The low 32 bits as a signed number for every 16 bytes, which is the number if and only if it is below 2^31 |
| Numeric.DivisorIsExactWhen | cpp/src/common/numeric_utils.cpp:94-99 | The divisor is the power of ten if and only if the scale is at most 9 |
| Numeric.DecodeNumericStruct | cpp/src/common/numeric_utils.cpp:83-109 | The decoded number, where the divisor is not zero |
| Numeric.Upscale | cpp/src/common/numeric_utils.cpp:121-130 | The scaling loop |
| Numeric.ScaleIsLeast | cpp/src/common/numeric_utils.cpp:121-130 | The scale is the least number of decimals that represents the value, or the limit |
| Numeric.EncodeNumericStruct | cpp/src/common/numeric_utils.cpp:111-148 | Sign, scale and precision of an encoded number, and its mantissa where that is below 2^64 |
| NumericReadBack.DecodeAfterEncode | cpp/src/common/numeric_utils.cpp:66-148 | Decoding gives the encoded number back if and only if the limit's decimals represent it, it needs at most nine of them and its mantissa is below 2^31 |
| NumericReadBack.DivisorVanishes | cpp/src/common/numeric_utils.cpp:94-99 | From 32 decimals on the divisor is zero |
| NumericReadBack.NoQuotient | cpp/src/common/numeric_utils.cpp:94-101 | Between 10 and 31 decimals no mantissa over the wrapped divisor is the number encoded |
| NumericReadBack.TenthDecimalIsMisread | cpp/src/common/numeric_utils.cpp:94-101 | The tenth decimal of 10^-10 is read back as 1/1410065408 |
| NumericReadBack.LargeMantissaIsMisread | cpp/src/common/numeric_utils.cpp:66-81 | 2147483648 is read back negative |
| Numeric.EitherBranchScales | cpp/src/core/bound_datum.cpp:627-636 | Whichever branch rescale takes, encoding its result gives floor(abs(d) * 10^digits) |
| Numeric.BoundNumeric.BindNumericStruct | cpp/src/core/bound_datum.cpp:641-651 | With a declared scale up to 127: floor(abs(d) * 10^digits); past it, which the struct cannot store, abs(d) * 10^digits encoded once more; wherever that is below 2^64, with the sign of the number; the stored scale is the declared one if and only if that is at most 127 |
| Numeric.LongScaleIsRightExactlyWhen | cpp/src/core/bound_datum.cpp:627-636 | Past 127 the mantissa is the one asked for if and only if no decimals are left after scaling, or scaling again still leaves less than one |
| Numeric.CastsAreDefinedWhen | cpp/src/core/bound_datum.cpp:627-651 | For a scale up to 127 both conversions are defined if and only if the mantissa is below 2^64 |
| Batches.TableBulkOpMgr.RowBatches | lib/table-bulk-op-mgr.js:130-146 | Batches join to the rows; all but the last have the batch size, whatever its sign |
| Batches.SplitIsUnique | lib/table-bulk-op-mgr.js:130-146 | Only one split of the rows is like that |
| Batches.TableBulkOpMgr.DeconstructToArrays | lib/table-bulk-op-mgr.js:111-120 | Every name's vector gets the row's value, or null where it is missing, once for each time the name is listed |
| Batches.TableBulkOpMgr.ArrayPerColumn | lib/table-bulk-op-mgr.js:122-126 | One vector a column |
| Batches.TableBulkOpMgr.ArrayPerColumnForCols | lib/table-bulk-op-mgr.js:155-167 | One parameter for each assignable column asked for, in the order asked, carrying every row's value of it or null |
| Batches.KeptInOrder | lib/table-bulk-op-mgr.js:155-167 | The columns kept stand in the order asked for, and every assignable one is among them |
| Batches.TransposingCommutes | lib/table-bulk-op-mgr.js:99-167 | Transposing each batch and joining is transposing the whole |
| Batches.StackedIsColumnExactlyWhen | lib/table-bulk-op-mgr.js:111-120 | A vector is the column if and only if its name is listed once, or there are no rows |
| Batches.TableBulkOpMgr.BatchIterator | lib/table-bulk-op-mgr.js:172-188 | Batches are sent in order up to the first failure; with none, and distinct names, what was sent for a column joins to the whole column |

## Left out

- Native calls, ODBC, N-API conversion, BCP, files, logging and clocks: what they answer is an event or a parameter.
- Pool behaviour once `close` has been called, and statements that throw while they are dispatched.
- Numbers of the pool options are taken as exact: `scalingFactor` is a real, and the growth it gives is not rounded to a double.
- Numeric.EncodeNumericStruct: log10 of the value is a parameter, used only when no precision is declared; the conversion of a number from 2^64 on, which C++ leaves undefined, gives some number below 2^64.
- Real doubles: rounding, DBL_EPSILON other than zero, and fractions of a millisecond.
- Calendar.CreateDateStruct: offsets are limited to 35791 minutes, beyond which their product with 60000 overflows an int32_t.
- Packing.BoundDatum.BindWVarCharArray: storage used a second time, whose old content reserve_vec keeps, and elements that are neither strings nor null.
- bind_var_char_array, whose stride counts UTF-16 units while it writes UTF-8 bytes, and the bulk-copy variants of all binders.
- WorkQueue.park and resume: nothing is parked, so every operation keeps its id as its priority.
- StreamRuns.FinishedRunIsComplete: for orderly runs; LastBatchIsWholeExactlyWhen, NextResultIsReadExactlyWhen and SecondMoveSkips say what the others lose. Resuming while a fetch is under way, which asks for a second one, is not orderly either.
- Resuming from inside a listener, and what a second move does once the query has ended (it reports a row count).
- Results without columns (row counts), informational messages between results, errors and cancellation in the reader, and the shift of dates when useUTC is off.
- Aggregator.StreamedResultsAreTheTables: raw mode; rows as objects keyed by column name, timings and counts are not modelled.
- createTimestampOffsetStruct, the Windows converters, SQL text builders, table types, metadata, user types and the promise wrappers, which would add easy members.
- A property named `__proto__` in bulk rows, which JavaScript treats specially.
