# Playback session storage, verified

A Dafny model of how the playback session service stores sessions, with proofs about its runs.
Redis serves the reads, Kafka carries heartbeats to PostgreSQL, and Start, Pause, Resume and the
fallback of Heartbeat write PostgreSQL directly. A read that misses the cache starts a background
warm on the very object it returns. Each function is short; what the service promises is about
whole interleaved runs, and that is what is proved here.

`dafny verify dfyconfig.toml` checks everything.

## How it is modelled

**The step system** (`Model.dfy`, `Machine.dfy`). A `World` holds the table, the cache with its
expiry times, the partitions of the log with fetch position and committed offset, the requests at
their program points, the pending warms and the clock. Every store call is one step that may fail;
so is every field assignment of Pause and Resume and every field read of a warm. Steps of all
requests, warms, the consumer and the environment (eviction, corruption, restart, a tick of the
clock, undecodable messages) interleave in any order. A run is any sequence of enabled steps, and
the lemmas hold of every run that meets their hypotheses.

**The code** (`Backend.dfy`, `SessionService.dfy`, `HeartbeatConsumers.dfy`). The classes follow the
Go types and change their stores in place. The stores hold text, written and read by the JSON
functions of `Text.dfy`, `Json.dfy` and `Event.dfy`; `Timestamps.dfy`, `Documents.dfy` and
`Grammar.dfy` say which texts these write, accept and refuse. Every method records the steps it
takes, and `System.Valid` says that the record is a legal run of the step system which ends in what
the stores hold. Between any two store calls a request calls `Interleave` and a warm `OwnerRuns`;
the consumer loop calls `Meanwhile` before each fetch, handler and commit. Their contracts say only
that the run went on legally without the caller's own steps. So each method refines the steps, and
what is proved of runs is true of the code. Which store calls of a request get through, and where
the balancer sends its event, are parameters (`Outcomes`), so the contracts say what happens in each
case.

**Conventions.** Stamps are nanoseconds since 0000-01-01 UTC. A row keeps microseconds (`Stored`),
refuses positions beyond 32 bits (`Fits`), and JSON refuses years beyond 9999 (`Encodable`).
Requests come validated: non-empty ids, heartbeat position not negative, Start position anything.

## Where the code and its documentation disagree

The model follows the code. `Witnesses.dfy` has a concrete run for each of these, and the lemmas
named besides it give the exact conditions.

- service.go:64 says data is never lost and consumer_test.go:113 expects a retry. The loop commits
  whether or not the handler failed. An accepted heartbeat is lost exactly when its offset is
  committed, or its position does not fit the column, with no delivery upserted
  (`AcceptedHeartbeatCanBeLost`, `LostIff`). Until the commit a restart can still bring it back
  (`DroppedCanStillBeWritten`).
- service.go:89 says the fallback write keeps the position. An older heartbeat that is still in
  the log overwrites it later (`FallbackCanBeOverwritten`, `LastWriteSurvivesIff`).
- README.md:67 promises reads at most 5 s old. Three runs break that with heartbeats at most 5 s
  apart. A slow warm can put an older session over a newer one (`WarmCanHideHeartbeat`); so can a
  heartbeat that overlaps the next one (`OverlappingHeartbeatsCanHideTheNewer`); and a read can
  overtake a heartbeat on its way to the cache (`OverlappingReadCanBeTenSecondsOld`). `GoesBackIff`
  says which writes put an older session into the cache, `OnlyWarmsGoBack` that only warms do while
  writers take turns, and `ReadsAreFresh` and `CaughtUpReadsAreFresher` give the bound that then
  holds without warms. `OldEntriesHaveACause` says that nothing else can make an entry that old.
- README.md:69 and repository.go:35 call the degraded mode transparent. A read of the table is
  current only in the cases of `RowIsCurrentIff` (`DegradedReadCanBeStale`), and a Pause or Resume
  that has to read the table can undo an accepted heartbeat in both stores
  (`PauseCanUndoHeartbeat`, `ChangeBuildsOnLastIff`).
- producer.go:30 balances by bytes and ignores the key, so one user's heartbeats can lie in
  several partitions (`BalancerCanSplitAUser`), and the row then depends on the order in which
  these are read unless their last messages agree (`RowIsConfluentIff`).

## Model

| member | source | states |
|---|---|---|
| Projection.UserRunsAlone | internal/session/service.go:37-136 | any interleaved run, restricted to one user's steps with commits, restarts and the clock shared, is itself a run, and it ends in the restriction of the final state; no hypothesis but a well-formed start |
| Projection.StepCommutes | internal/session/repository.go:36-113 | each single step either does not show in the restriction to a user or is a step of it, offsets included |
| Projection.RestrictKeepsUsersData | internal/session/consumer.go:56-76 | the restriction has the user's cache entry and row, and its unfetched messages are the user's unfetched messages in order |
| Projection.UsersRunAloneFromTheStart | internal/session/service.go:37-136 | the same of every run from the empty system |
| Provenance.TriplesComeFromOneRequest | internal/session/service.go:99-136 | in every reachable state each session in table, cache, log, request or warm has user, track and position of one single validated Start or Heartbeat of that user, torn reads of a shared object included; no hypothesis but a start without sessions |
| Provenance.TriplesFromTheStart | internal/session/repository.go:57-66 | the same of every run from the empty system |
| Provenance.FieldsComeFromRequests | internal/session/service.go:99-136 | in every reachable state the device of each session anywhere was given by a validated request of its user, and its status is the one such a request gives: "playing" by a Start, Heartbeat or Resume, "paused" by a Pause; what a warm has read of a shared object so far included |
| Provenance.SessionsAreComplete | internal/session/model.go:11-38 | in every reachable state no session in table, cache, log, request or warm has an empty user, track or device or a status other than these two |
| SingleCell.AlwaysSimulates | internal/session/service.go:37-136 | requests of the user one at a time, cache writes and reads that work, no eviction or expiry of that user's entry: forward simulation of one cell per user, whatever the lag, table failures and interference of others |
| SingleCell.ReturnsAreAllowed | internal/session/service.go:37-136 | under the same hypotheses whatever a request returns is what the cell allows: GetCurrent answers the cell, Pause and Resume answer the changed cell or fail, NOT_FOUND only of an empty cell; the stamp it gave is a reading of the clock between its beginning and its return |
| SingleCell.CacheIsTheCell | internal/session/repository.go:107-113 | under the same hypotheses the cache entry is exactly the cell between requests, and no warm of the user was ever started |
| Stamps.StampsAreReadings | internal/session/service.go:107 | in every run, whatever overlaps: the stamp of a Start or Heartbeat is the clock at its beginning, that of a Pause or Resume a reading between its beginning and now |
| LastWrite.LastWriteSurvivesIff | internal/session/repository.go:87-104 | one partition, requests of the user one at a time, the user's own upserts and that of its last message working, no restart that brings that message back once handled, stamps of the user at least a microsecond apart: draining the log leaves the last accepted write in the row if and only if it was published or no older heartbeat was pending when it was written directly |
| LastWrite.DrainRowStep | internal/session/consumer.go:56-76 | one partition, requests of the user one at a time, the user's own upserts and that of its last message working, no restart that brings that message back once handled: of all steps only a publish, or a direct write with nothing pending, changes what the drained row will be |
| Degraded.RowIsCurrentIff | internal/session/repository.go:53-56 | under the hypotheses of LastWriteSurvivesIff, at any moment of the run the row is the last accepted write if and only if that was published and consumed, or direct with no older heartbeat upserted since |
| Undo.ChangeBuildsOnLastIff | internal/session/service.go:99-116 | under the same hypotheses up to the read, and any continuation: a Pause or Resume that falls back to the table changes the last accepted write if and only if that is current in the row when it is read, and an older session otherwise, whose track and position it then puts over the last write |
| Undo.ChangeIsWritten | internal/session/service.go:109-114 | in any run what such a request has made of the row it read is what its upsert leaves in the row and its cache write in the cache |
| Freshness.ReadsAreFresh | internal/session/repository.go:36-45 | Start, Heartbeat, Pause and Resume of the user take turns while GetCurrent may overlap anything, heartbeats begin at most 5 s apart, at most k cache writes in a row fail, cache reads work, no eviction, and the age stays below the TTL: every read hits, no warm is started, and the session is at most 5(k + 1) s old, or 5(k + 2) s while a heartbeat has begun and is not yet cached |
| Freshness.CaughtUpReadsAreFresher | README.md:67 | under the same hypotheses, while no heartbeat of the user is between its beginning and its cache write every read hits a session at most 5(k + 1) s old: 5 s for k = 0, 10 s for k = 1 |
| Freshness.CachedStartIsJustCached | internal/session/service.go:50-53 | a Start that reaches the cache, with no warm of the user about and no other request of the user past its cache read, establishes the starting condition of that bound |
| Lateness.OldEntriesHaveACause | internal/session/service.go:75-78 | heartbeats of the user at most 5 s apart, from a moment on when a session at most 5 s old is cached, and no other hypothesis: a cached session is older than 5(k + 1) s only if a step has put an older session over a newer one, or more than k heartbeats have begun since the newest session ever cached |
| Lateness.BeatsAreAccounted | internal/session/service.go:75-78 | in every run each heartbeat newer than everything cached so far is still to write the cache, or its cache write has failed |
| Lateness.OverdueIff | README.md:12 | under the same hypotheses: when the next heartbeat is due, the cached session is older than 5 s if and only if a heartbeat has begun since its stamp |
| Replay.DrainedTableIsReplay | internal/kafka/consumer.go:57-84 | one partition, read from its committed offset on, no request writing the table: any restarts, failed commits, undecodable messages, failed upserts, arrivals, reads and cache writes drain to the table of applying the uncommitted part of the final log once in order, if the last message of each user that fits the column is upserted whenever delivered |
| Replay.DrainedRowIsReplay | internal/session/consumer.go:57-72 | the same of one user's row, with other users' rows written directly as they like |
| Replay.AtLeastOnceIsExactlyOnce | internal/kafka/consumer.go:57-84 | one partition, read from its committed offset on, no request writing the table, upserts of the consumer working as far as the column allows: at-least-once delivery drains to the same table as applying the uncommitted part of the final log exactly once, whatever is published meanwhile |
| Replay.AlwaysSettled | internal/session/consumer.go:70-72 | any number of partitions and any well-formed state to start from, no request writing the row of the user, no restart bringing back what had been handled before, the user's last message of each partition that is still to come and fits the column upserted whenever delivered: at every point the row is one such a message asked for, or such a message is still to come, or there is none and the row is the old one |
| Replay.ResumedRestartsWithin | internal/kafka/consumer.go:80-82 | when every partition is read from its committed offset on, no restart can bring back anything from before, so the condition on restarts is no condition |
| Replay.ApplyOnceRow | internal/session/repository.go:87-104 | one pass over a log from any offset leaves the row of the user's last message that fits the column, or the old row if there is none |
| Confluence.RowIsConfluentIff | internal/kafka/producer.go:28-34 | any well-formed state: the row is the same after every two runs that drain the log without direct writes of that row, if and only if the user's last messages still to come that fit the column, one from each partition that has any, ask for the same row; a drain upserts such a message whenever it is delivered, and its restarts bring back nothing handled before it |
| Confluence.AgreeingRunsEndAlike | internal/kafka/consumer.go:60-83 | two such runs with arrivals, from one state to one final log whose last messages agree, end with the same row |
| Confluence.ResumedDrainsTo | internal/kafka/consumer.go:60-83 | from committed offsets on every restart is allowed in these runs |
| Confluence.AnyFinalCanWin | internal/kafka/consumer.go:57-84 | for each partition with a message of the user still to come that fits the column the consumer alone, without a restart, can drain the log so that the row is the one asked for by the last of these |
| Confluence.OnePartitionPerUserIsConfluent | internal/session/service.go:86 | with each user's messages that fit the column in one partition, all runs without direct writes that drain the same log, arrivals included, give the same table |
| Fate.BoundToBeIff | internal/session/consumer.go:56-76 | any well-formed state and any number of partitions: every such drain leaves a given row if and only if the user's last messages still to come that fit the column all ask for it, and there is one or the row holds it already |
| Fate.LastWriteIsBoundIff | internal/session/repository.go:87-104 | the same of the last accepted write in every reachable state, after any overlaps, restarts and failures |
| Transparency.ReadsFindTheLastWrite | internal/session/repository.go:36-67 | one partition, requests of the user one at a time, the user's own upserts and that of its last message working, no restart that brings that message back once handled, working cache writes, each warm over before the user's next write, nothing of the user pending at its direct writes and table reads: every read finds the last accepted write, whatever is evicted, corrupt or unreachable |
| Transparency.EntryEqualsRow | internal/session/repository.go:57-66 | under the same hypotheses, between requests and with the log drained, an uncorrupted cache entry equals the row up to microseconds |
| Transparency.OfflineReadsFindTheLastWrite | internal/session/service.go:86-93 | no heartbeat of the user can be published, requests of the user one at a time, its own upserts and cache writes work, each warm over before its next write: every read finds the last accepted write, with any number of partitions, restarts, failed consumer upserts, evictions, corruptions and failed reads |
| Transparency.OfflineEntryEqualsRow | internal/session/repository.go:57-66 | under the same hypotheses an uncorrupted cache entry equals the row between requests, without any draining |
| Transparency.LastAcceptedIsLatest | internal/session/service.go:80-95 | the last accepted write here is the one whose fate LastWriteSurvivesIff decides |
| Conservation.HeartbeatsAreConserved | internal/session/service.go:80-95 | in every run a request is an accepted heartbeat if and only if it is pending, applied or dropped, and these exclude each other |
| Conservation.DroppedOnlyByFailedUpsert | internal/session/consumer.go:70-72 | a heartbeat becomes dropped by a step if and only if the step is the first delivery of its event and the upsert fails; that leaves the table alone, and a dropped heartbeat stays dropped |
| Conservation.AppliedMeansWritten | internal/session/consumer.go:70-72 | a heartbeat becomes applied by a step if and only if the step is the first delivery of its event, or its own fallback write, and the upsert works; that puts its session into its user's row, and an applied heartbeat stays applied |
| Conservation.DroppedIff | internal/kafka/consumer.go:73-82 | over whole runs: a heartbeat has the fate dropped if and only if at some step its event was delivered for the first time and the upsert failed; a redelivery may still write it |
| Conservation.AppliedIff | internal/session/service.go:80-95 | over whole runs: a heartbeat is applied if and only if at some step its event was delivered for the first time and upserted, or its fallback wrote the row |
| Loss.LostIff | internal/kafka/consumer.go:73-82 | over whole runs: an accepted heartbeat is lost, never in the table so far and saved by no continuation, if and only if no delivery has been upserted and its offset is committed or its position does not fit the column |
| Loss.CanStillBeSavedIff | internal/kafka/consumer.go:60-83 | some continuation writes a published heartbeat if and only if its offset is not committed and its position fits; the continuation is a restart and a drain |
| Loss.SavesPutsTheRow | internal/session/consumer.go:70-72 | the step that saves a heartbeat leaves its session in its user's row |
| Conservation.NothingAcceptedIsLost | internal/kafka/consumer.go:73-82 | if no upsert of the consumer fails, nothing accepted is dropped, and after draining all of it has been applied |
| Offsets.OffsetSafety | internal/kafka/consumer.go:60-83 | over all runs with restarts: committed <= fetched <= length, a handler returned for every committed offset and every offset passed, and the offsets handed over are 0, 1, 2 and so on without a gap |
| Offsets.CommitsOnlyAdvance | internal/kafka/consumer.go:80-82 | the committed offset never moves back |
| Regression.OnlyWarmsGoBack | internal/session/repository.go:57-66 | Starts, Heartbeats, Pauses and Resumes of the user taking turns, GetCurrents overlapping as they like: a step puts a session into the cache that is older than the newest ever cached if and only if it is the successful write of a background warm that has read such a session, other than the one cached |
| Regression.GoesBackIff | internal/session/repository.go:107-113 | in any state and with any overlap, only a warm or a request's own cache write of an older session can do that, and each such write does |
| NotFoundNeverAgain.StartedIsNeverNotFound | internal/session/repository.go:69-84 | after a Start succeeded no continuation, with any concurrency, eviction, failure or restart, has a further request of that user answer NOT_FOUND |
| NotFoundNeverAgain.RowsStay | internal/session/repository.go:87-104 | a row is replaced but never removed |
| NotFoundNeverAgain.NotFoundIff | internal/session/repository.go:69-84 | over whole runs: a request answers NOT_FOUND if and only if at some step it got through to the table and its user had no row |
| NotFoundNeverAgain.HasRowIff | internal/session/repository.go:87-104 | over whole runs: a user has a row if and only if some request or consumer step has written one |
| Frames.EntriesLiveADay | internal/session/repository.go:107-113 | a cached session is a hit for exactly 24 hours, if nobody writes there meanwhile |
| Sessions.StepKeeps | internal/session/repository.go:57-66 | every step files each session under its own user and keeps everywhere any property that survives storing, stamping and torn reads |
| Requests.AlwaysSound | internal/session/service.go:37-136 | each request only ever stands at the program points of its own code, with an object exactly where the code has one |
| Witnesses.AcceptedHeartbeatCanBeLost | internal/kafka/consumer.go:73-82 | a run: heartbeat accepted, offset committed, log drained, no row |
| Witnesses.DroppedCanStillBeWritten | internal/kafka/consumer.go:60-83 | a run: the first delivery of an accepted heartbeat fails, a restart delivers it again before any commit, and the row is written |
| Witnesses.FallbackCanBeOverwritten | internal/session/service.go:86-93 | a run: every upsert works, the fallback write of the second heartbeat is replaced by the first one when the log is drained, and the cache still holds the second |
| Witnesses.WarmCanHideHeartbeat | internal/session/repository.go:57-64 | a run with requests one at a time: a late warm replaces an accepted heartbeat in the cache, and a read within 5 s of its beginning answers a session that is 6 s old |
| Witnesses.OverlappingReadCanBeTenSecondsOld | internal/session/service.go:75-78 | a run with heartbeats 5 s apart, a working cache and no warm: a read beside a heartbeat on its way to the cache answers a session that is 10 s old |
| Witnesses.OverlappingHeartbeatsCanHideTheNewer | internal/session/service.go:75-78 | a run with heartbeats 5 s apart, a working cache and no warm: two overlapping heartbeats are cached in the wrong order, and a read that overlaps nothing answers a session that is 10 s old |
| Witnesses.BalancerCanSplitAUser | internal/kafka/producer.go:28-34 | a run from the empty system with two partitions: two accepted heartbeats of one user lie in different partitions and ask for different rows |
| Witnesses.PauseCanUndoHeartbeat | internal/session/service.go:99-116 | a run with requests one at a time: a Pause that cannot read the cache puts the position from before an accepted heartbeat back into row and cache |
| Witnesses.DegradedReadCanBeStale | internal/session/repository.go:49-53 | a run: with Redis out of reach a read answers the session from before an accepted heartbeat |
| Event.EnvelopeRoundTrip | internal/kafka/event.go:17-43 | for all strings, integers and times an envelope is built if and only if both times encode, and then parses to the same envelope, its payload character for character, and decodes to the same session |
| Event.SessionRoundTrip | internal/session/model.go:11-18 | a session marshals if and only if its time lies in the years 0 to 9999, and then unmarshals to itself field for field |
| Json.ObjectRoundTrip | internal/kafka/event.go:31-40 | an object written from members with any raw values parses to exactly these members (RFC 8259, section 4) |
| Grammar.SessionsAreFound | internal/session/consumer.go:57-68 | a session is found in every document in which the last members of its six names have the texts of its fields, however the document is laid out and whatever other members it has |
| Grammar.SpacedObjects | internal/session/consumer.go:57-68 | an object reads as its members, with any white space around and inside it (RFC 8259, section 2) |
| Grammar.ObjectsAreValues | internal/kafka/event.go:17-23 | objects, and by the lemmas beside it arrays, numbers, strings and literals, are each skipped as one value, so a payload or an unknown member may be any JSON value |
| Documents.TrailingText | internal/session/consumer.go:57-68 | text after a document makes it unreadable unless it is white space |
| Documents.SessionsAreTyped | internal/session/model.go:11-18 | a document unmarshals if and only if each of the six fields is missing, null or of its type |
| Documents.MissingFieldsAreZero | internal/session/model.go:11-18 | missing fields are empty, zero, and the first instant of year 1 |
| Documents.SessionText | internal/session/model.go:11-18 | the text of a session has these six members in this order, the time as RFC 3339 text |
| Documents.EnvelopeText | internal/kafka/event.go:17-43 | the text of an envelope has type, version, timestamp and payload in this order, the payload unquoted |
| Documents.OnlyTheseAreEscaped | internal/session/model.go:12-16 | a character is escaped if and only if it is a control, a quote, a backslash, one of the three HTML specials or one of two separators (section 7 of RFC 8259) |
| Documents.IntegersArePlain | internal/session/model.go:14 | a text is read as an integer if and only if it is the decimal text of one, or -0 |
| Text.StringRoundTrip | internal/session/model.go:12-16 | every Unicode string survives quoting, whatever text follows (section 7 of RFC 8259) |
| Text.IntRoundTrip | internal/session/model.go:14 | every integer survives its decimal text |
| Text.DateRoundTrip | internal/session/model.go:17 | each day of the years 0 to 9999 has a valid Gregorian date whose day number is that day; the two closed forms beside it say how many days the years and months have |
| Text.MonthsInClosedForm | internal/session/model.go:17 | the days before each month are 31 days for January and from March on 59, the leap day and (153 (m - 3) + 2) / 5 |
| Text.DateIsFound | internal/session/model.go:17 | each valid date is the date of its own day |
| Text.TimeRoundTrip | internal/session/model.go:17 | each instant of the years 0 to 9999 survives its RFC 3339 text to the nanosecond |
| Timestamps.TimeTextNames | internal/session/model.go:17 | the text of an instant has the digits of its own date, time of day and decimals |
| Timestamps.TimesAreRecognised | internal/session/model.go:17 | a text is read as a time if and only if it names a valid date and time of day in the form of section 5.6 of RFC 3339 |
| Timestamps.YearsEncode | internal/kafka/event.go:17-43 | the times that encode are those of the years 0 to 9999 |
| Timestamps.DecimalsAreNanoseconds | internal/session/model.go:17 | the decimals of a second count as nanoseconds, shorter ones scaled up and longer ones cut off |
| Timestamps.AnInstant | internal/kafka/event.go:26-31 | nanosecond 63 855 401 145 120 000 000 of the calendar is written 2023-07-01T03:25:45.12Z |
| SessionService.Repository.Upsert | internal/session/repository.go:87-104 | fails if and only if the table is out of reach or the position is beyond 32 bits; otherwise the user's row has the user, track, position, status and device of the object and its stamp cut to a whole microsecond, and no other row changes |
| SessionService.Repository.SetCache | internal/session/repository.go:107-113 | fails if and only if the cache is out of reach or the time does not encode; otherwise the entry's text decodes to the session, expires 86 400 s from now, and no other entry changes |
| SessionService.Repository.GetFromDB | internal/session/repository.go:69-84 | a fresh object with the row, NOT_FOUND if and only if there is no row, an internal error if and only if the table is out of reach |
| SessionService.Repository.GetFromCache | internal/session/repository.go:37-51 | a session if and only if the cache is in reach and has a live entry that decodes, and then the one it decodes to |
| SessionService.Repository.Get | internal/session/repository.go:36-67 | a usable entry is answered whatever the table does; in all other cases the row, with a warm of the returned object left pending, or NOT_FOUND or an error exactly as the table has it; the record has the two reads with the outcomes given and the answer is what they found (`ReadAs`) |
| SessionService.Repository.Warm | internal/session/repository.go:60-64 | reads the shared object field by field while its owner runs between the reads, and caches what it read, with user, track, position and status as they were at first |
| SessionService.Producer.Publish | internal/kafka/producer.go:59-73 | the text goes to the end of the partition of the balancer's choice and nowhere else, or nowhere on an error |
| SessionService.Service.Start | internal/session/service.go:37-54 | a legal run of a Start that succeeds if and only if the table can be written and the position fits 32 bits; it returns the session of the request with status "playing" and the clock at its beginning, has upserted this object and then cached it unless the cache was out of reach |
| SessionService.Service.Current | internal/session/service.go:57-59 | a legal run of a GetCurrent that answers the live entry of the cache if that can be read, and else the row, NOT_FOUND or an error as the table read had it, each as found at the step that read it |
| SessionService.Service.Heartbeat | internal/session/service.go:65-96 | a legal run of a Heartbeat: the cache whatever comes of it, then the log, then the table only if the log is out of reach; what is cached, published and upserted is the session of the request with status "playing" and the clock at its beginning; while the clock encodes it returns an error if and only if both log and table were out of reach |
| SessionService.Service.PublishFor | internal/session/service.go:80-88 | the event is appended, the fallback is due, or encoding failed, the last exactly when a time does not encode; an appended text parses to an envelope of type "playback.heartbeat", version 1 and the present time whose payload unmarshals to the session |
| SessionService.Service.Change | internal/session/service.go:99-136 | a legal run of a Pause or Resume: the session it starts from is the live entry of the cache if that can be read, and else the row; it succeeds if and only if there is one, the table can be written and the position fits; then the returned object is that session with status "paused" or "playing", the device of the request and a clock reading of its own time, and it was upserted and then cached |
| SessionService.Service.Mutate | internal/session/service.go:105-107 | the three assignments, in order, with everybody else running in between, change nothing but status, device and stamp |
| HeartbeatConsumers.HeartbeatConsumer.Handle | internal/session/consumer.go:56-76 | text that does not decode is skipped without an error, a decoded session replaces its user's row or is reported as failed |
| HeartbeatConsumers.HeartbeatConsumer.HandleAndCommit | internal/kafka/consumer.go:71-82 | with everybody else running before the handler and before the commit: exactly one handler step and then at most one commit step of the same partition, whatever the handler said |
| HeartbeatConsumers.HeartbeatConsumer.Turn | internal/kafka/consumer.go:60-83 | with everybody else running in between: a turn reads the next message of one partition, handles it with the outcome that its text and the table decide, and commits it if and only if the commit gets through, whatever the handler said; or it reads none, and nothing is committed; one that is not the last lessens unfetched messages, messages to come and fetch errors to come, taken together |
| HeartbeatConsumers.HeartbeatConsumer.Run | internal/kafka/consumer.go:57-84 | the loop terminates with every message read, whatever mix of bad text, failed upserts, failed commits and fetch errors it meets and whatever others do meanwhile, once no more messages arrive; its steps among those of everybody are a sequence of such turns with the outcomes given; if commits get through, the group's offset ends at the end of every partition that was read, and if they do not, where it was; with nobody else running its steps are the whole run |
| HeartbeatConsumers.TurnsCommit | internal/kafka/consumer.go:80-82 | after any number of turns whose commits get through the group's offset of each partition that was read is where the reader is, and of the others where it was; if none gets through no offset has moved |
| HeartbeatConsumers.TurnsHandle | internal/kafka/consumer.go:71-79 | after any number of turns in which the table can be written each message that was read has been handled, with an error exactly if it decodes and its position does not fit |
| HeartbeatConsumers.OneFetched | internal/kafka/consumer.go:61-69 | fetching from any one partition lessens the unfetched messages by one |
| Backend.LinkAppends | internal/kafka/producer.go:66-73 | appending text that decodes to a message keeps the broker's text in step with the log |

## Left out

- HTTP handlers, request binding, middleware, configuration, logging, tracing, metrics, health
  checks and migrations.
- Kafka trace headers.
- The `Async` producer option, and a Publish that reports an error although the broker kept the
  message.
- A partition taken over while the old handler still runs. A restart ends the old handler, and each
  partition commits what it has fetched.
- Commits happen in the step system whenever no message of the partition is with the handler, which
  allows more runs than the loop has.
- A commit, an upsert or a cache write that takes effect although it reported an error; a failed
  store call changes nothing.
- Well-formed messages that this service did not publish. Undecodable ones are modelled.
- Tearing inside one field: each field read and assignment is one step, and user, track and
  position, which nobody assigns, are read at once.
- Rows that PostgreSQL refuses for other reasons than the position, such as NUL characters, are
  covered only by the open outcome of an upsert.
- The byte level of UTF-8; text is a sequence of Unicode characters.
- JSON keys that differ in case, duplicate keys of different types, `null` as a whole document,
  integers beyond 64 bits and time offsets other than Z. All are readings of text the service does
  not write, with its processes in UTC.
- HeartbeatConsumers.HeartbeatConsumer.Run: cancellation comes when the log has been read to its
  end, and a loop stopped earlier is a shorter run of the step system.
- HeartbeatConsumers.Reader.FetchMessage: the numbers of fetch errors and of messages still to come
  are parameters, since no loop reaches the end of a log under endless errors or arrivals.
- SessionService.Service.Change: Pause and Resume are one method, told apart by the request, because
  their Go bodies differ in one constant.
- SessionService.Repository.Get: does not start the goroutine itself; the warm is left pending in
  the step system, and `Warm` is its body.
- LastWrite.LastWriteSurvivesIff: stamps of a user's writes are a microsecond apart, the precision
  of the row, because two writes within one microsecond cannot be told apart there by their stamp.
- Transparency.ReadsFindTheLastWrite: draining before reads alone does not suffice, as the run of
  `FallbackCanBeOverwritten` shows, whose drained row differs from its cache entry; so nothing may
  be pending at direct writes either.
