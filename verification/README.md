# Verified model of the Bluelink to MQTT daemon

The daemon reads one vehicle from Hyundai's Bluelink service and publishes it as retained MQTT
messages for Home Assistant. Two loops share one client: a poll loop that makes cached reads and,
optionally, a force loop that wakes the car once a day. This project models the parts whose
behaviour is hard to see from any one function, and proves what every run of them keeps.

Timestamps and durations are integers in nanoseconds, floats are exact reals, pointers are
options, Go errors are results. What the daemon cannot determine (answers of servers, the fate of
a message, the moment of cancellation, the order in which goroutines run) is arbitrary: it is a
parameter, and every theorem is for all of them.

## Files

| file | content |
|---|---|
| `ForceSchedule.dfy` | when the force loop fires, for any time zone with an offset band |
| `Backoffs.dfy`, `Cycle.dfy`, `Scheduler.dfy` | one poll or force cycle: retry waits in int64 nanoseconds, the step system, its closed form, and the class that runs it |
| `DaemonRuns.dfy`, `WholeRuns.dfy`, `WakeBudget.dfy`, `WakeSharpness.dfy`, `Retention.dfy`, `WholeRetention.dfy`, `DaemonProgress.dfy` | the two loops interleaved on the API mutex: serialisability, readiness, gate safety, wake requests, retained MQTT state, progress |
| `Readiness.dfy`, `Publishing.dfy`, `Publisher.dfy` | the readiness counter; multi-topic publishes that can fail part-way |
| `TokenModel.dfy`, `TokenRuns.dfy`, `TokenProgress.dfy`, `Client.dfy`, `SecretStore.dfy`, `StoreSteps.dfy` | the token life cycle under concurrent callers, the class that runs it, and the compare-and-swap token store that takes its steps |
| `Json.dfy`, `Layouts.dfy`, `CCS1Parser.dfy`, `CCS2Parser.dfy`, `DocumentLaws.dfy`, `StatusFetch.dfy`, `FetchRuns.dfy` | decoded JSON trees, the two status parsers and what their states say about the documents, the fetch paths around them, and a fetch as calls of the client |
| `MockVehicle.dfy`, `ProtocolAgreement.dfy` | the mock server's printers, and the proof that both protocols mean the same state |
| `Base64.dfy`, `Jwk.dfy`, `Stamp.dfy`, `Distances.dfy`, `DistanceLabels.dfy`, `Powers.dfy` | encodings and unit arithmetic |
| `VehicleModel.dfy`, `Durations.dfy`, `Wrappers.dfy` | the vehicle snapshot, the second, Option and Result |

How the layers meet: `Scheduler.Scheduler` is proved to run exactly the cycles of `Cycle`, and
`DaemonRuns` interleaves those same cycles. `Client.Client` is proved to take only the steps of
`TokenRuns`, so everything proved of its runs holds of the class, and `StoreSteps` shows that the
Secret store takes the machine's save steps. `FetchRuns` makes a status read out of the paths
`StatusFetch` asks for, each one call of `TokenRuns`; `WholeRuns` runs the two loops with every
fetch served that way by one client. `WakeBudget` is a theorem of those runs: it multiplies the
firings of `ForceSchedule` by the retries of `Cycle`, the requests of `StatusFetch` and the two
GETs per request of `TokenRuns`.

## Where the code does not do what it says

Each of these is a theorem below, with the exact condition under which the promise holds.

- `untilNextForce` says that daylight-saving transitions are handled. For offsets within a band of
  width J this holds for every zone and instant if and only if the force time lies at least J from
  midnight on both sides. Otherwise the wait can be zero or negative, and then any number of
  firings fits one instant (`ForceTimeBoundsAreExact`, `SkippedForceTimeHasNoBudget`); the Azores,
  an hour behind UTC with a jump at midnight, are such a zone for a force time before 01:00.
- `fetchWithRetry` doubles its wait without a limit. Before attempt k it has waited 2^k - 1 seconds
  if and only if k <= 34, and no doubling overflows if and only if there are at most 33
  (`WaitedBeforeAttemptIff`, `NoOverflowIff`).
- `convertDistanceField` says that values of unknown source unit pass through untouched. That holds
  for the empty unit only: any other unknown name is stamped with the target unit
  (`RelabelledWithoutConversionIff`). Both parsers produce only km, mi or the
  empty unit (`FetchedUnits`), so no parsed reading is affected.
- With an empty configured unit the discovery label says km while readings in miles are published
  as they are (`PublishedUnitsMatchLabels`). The daemon itself refuses an empty unit at startup
  (`internal/config/config.go:147-150`), so this concerns other users of the two packages only.
- The two protocols agree on the mock's vehicle if and only if it is not at (0, 0), which the CCS1
  parser takes for a missing position (`ProtocolsAgreeIff`).
- A public key with exponent 0 survives decoding, and so does every exponent up to 2^31 - 1, but
  not the mock's own printing of 0, which is empty (`AcceptedKeysIff`, `CertsRoundTripIff`).
- A token response whose access token is white space and whose token type is empty or white space
  is accepted, stored and sent as an empty Authorization header; exactly these responses are
  (`AccessTokenPresentIff`, `CredentialsIff`).
- When a save fails after the server rotated the refresh token, and did not reach the store, a
  restart presents the rotated-out token (`LostRotationIsPresentedAgain`). A restart resumes the
  newest chain if and only if nothing of another chain came in last since the last save that
  reached the store (`RestartResumesIff`).
- Kilometres do not survive conversion to miles and back in general: they do if and only if they are
  what a reading in miles is published as (`KilometresRoundTripIff`).
- The stamp recovers its plaintext if and only if the Unix time prints as at most thirteen
  characters (`StampRecoversIff`).

## Model

| member | source | states |
|---|---|---|
| ForceSchedule.NextForceIsLeast | internal/scheduler/scheduler.go:223-234 | For every zone whose offsets lie in a band, whichever adjacent offset it picks in gaps and overlaps, and every force time at least a band from midnight: now plus the wait is the least instant after now among all days' occurrences; the wait is positive and at most a day plus the band |
| ForceSchedule.FixedOffsetShowsForceTime | internal/scheduler/scheduler.go:223-234 | With a fixed offset the same holds for every force time, and the clock shows exactly that time when the wait ends |
| ForceSchedule.DefaultLocationIsUTC | internal/scheduler/scheduler.go:223-228 | Without a location the force time is meant in UTC, with a wait of at most a day |
| ForceSchedule.ForceTimeBoundsAreExact | internal/scheduler/scheduler.go:223-234 | The bound on the force time is exact: all zones of the band and all instants are served correctly if and only if the force time is at least a band from midnight on both sides |
| ForceSchedule.SkippedForceTimeFiresAtOnce | internal/scheduler/scheduler.go:229-234 | In a zone west of UTC whose clock jumps over the force time at midnight, the wait is zero or negative from (jump - force time) before the jump until the jump |
| ForceSchedule.FallBackMissesOccurrence | internal/scheduler/scheduler.go:229-234 | In a zone east of UTC whose clock is set back over midnight, a force time in the repeated stretch is passed over: the wait does not end at the least occurrence still ahead |
| ForceSchedule.SkippedForceTimeHasNoBudget | internal/scheduler/scheduler.go:140-150 | In that zone turns of the loop number as many as you like within a single instant |
| ForceSchedule.FiringsAdvanceDays | internal/scheduler/scheduler.go:140-150 | When timers are never early, any two firings of a run target strictly increasing civil days |
| ForceSchedule.FiringsInWindow | internal/scheduler/scheduler.go:140-150 | Firings targeted in a window number at most (window + band) / day + 1, that is window / day + 1 for a fixed offset |
| ForceSchedule.NoDaySkipped | internal/scheduler/scheduler.go:140-150 | A turn that asks before the next day's occurrence targets exactly that day |
| Backoffs.BackoffExactIff | internal/scheduler/scheduler.go:190-199 | The k-th wait is 2^k seconds if and only if k <= 33 |
| Backoffs.NoOverflowIff | internal/scheduler/scheduler.go:190-199 | No doubling wraps int64 nanoseconds if and only if MaxRetries <= 33 |
| Backoffs.TotalWaitExactIff | internal/scheduler/scheduler.go:190-199 | All waits before attempt k add up to 2^k - 1 seconds if and only if k <= 34 |
| Cycle.WholeIffWritten | internal/scheduler/scheduler.go:118-219 | The complete cycles of the step system are exactly: refused at the gate; k failed attempts each waited out, one more failure, then cancellation or (only when k = MaxRetries) a failure mark; or k failed attempts, a fetched state, its publish and the mark that reports it |
| Cycle.MarkIsLast | internal/scheduler/scheduler.go:118-138 | A cycle, finished or not, marks health at most once and then does nothing more |
| Cycle.CycleIsBounded | internal/scheduler/scheduler.go:118-219 | A cycle has at most 2 MaxRetries + 3 events, one more with the gate |
| Cycle.SuccessFollowsPublish | internal/scheduler/scheduler.go:154-186 | Success is marked only right after a successful publish of the state returned by the fetch right before it, which was forced exactly in a force cycle |
| Cycle.PublishesWhatWasFetched | internal/scheduler/scheduler.go:118-186 | No state is published that the preceding fetch did not return |
| Cycle.UnmarkedIff | internal/scheduler/scheduler.go:118-186 | A whole cycle leaves health alone if and only if it was cancelled after a failed fetch or refused at the gate |
| Cycle.GateSafety | internal/scheduler/scheduler.go:154-170 | With the gate on, every forced read is preceded, in its own cycle, by a cached read that reported plugged in, with only failed forced reads and waits in between |
| Cycle.PollsNeverForce | internal/scheduler/scheduler.go:118-122 | No event of a poll cycle is a forced read |
| Cycle.ForcedFetchesBounded | internal/scheduler/scheduler.go:190-219 | A force cycle, finished or not, makes at most MaxRetries + 1 forced reads, a poll none |
| Cycle.WaitedBeforeAttemptIff | internal/scheduler/scheduler.go:190-199 | Any cycle that stands before attempt k has k <= MaxRetries and has waited exactly 2^k - 1 seconds if and only if k <= 34 |
| Scheduler.Scheduler.constructor | internal/scheduler/scheduler.go:65-83 | A negative retry count becomes zero; the scheduler starts with an empty trace |
| Scheduler.Scheduler.FetchWithRetry | internal/scheduler/scheduler.go:190-219 | The retry loop ends, performs only the fetches and waits of the step system, with genuine fetcher answers; it returns a state only if the last attempt returned it, and no state only when the attempt number MaxRetries failed or the context is cancelled |
| Scheduler.Scheduler.Finish | internal/scheduler/scheduler.go:122-137 | Without a state: no mark if cancelled, else one failure; with one: it is published and the mark reports the result. The broker changes as a publish of that state or not at all |
| Scheduler.Scheduler.PassGate | internal/scheduler/scheduler.go:158-168 | The gate passes only on a cached read that says plugged in, or when it is off; a refusal is a finished cycle that reports nothing |
| Scheduler.Scheduler.PollNow | internal/scheduler/scheduler.go:118-138 | A poll appends one whole poll cycle to the trace and its verdict, if any, to the health history |
| Scheduler.Scheduler.ForceNow | internal/scheduler/scheduler.go:154-186 | A forced refresh appends one whole force cycle to the trace and its verdict, if any, to the health history |
| DaemonRuns.TraceIsSerial | internal/scheduler/scheduler.go:85-186 | Serialisability: in every interleaving of the two loops the trace is a concatenation of whole cycles and the unfinished one of the loop that holds the mutex, and health was told the verdicts of exactly those cycles in that order |
| DaemonRuns.RunExclusive | internal/scheduler/scheduler.go:118-156 | In every reachable state exactly the loop that is inside a cycle holds the mutex |
| DaemonProgress.NoDeadlock | internal/scheduler/scheduler.go:118-156 | For a loop in a cycle or waiting for the mutex, some step is enabled: its own, or that of the loop that holds the mutex |
| DaemonProgress.CanGetTurn | internal/scheduler/scheduler.go:118-156 | From every state of every run, a waiting loop can be brought into its cycle, and a loop in its cycle to the end of it with the mutex free |
| DaemonRuns.ReadinessIsHistory | internal/scheduler/scheduler.go:118-186 | In every reachable state the server is ready if and only if some cycle succeeded and the run of failed cycles since is shorter than the threshold; its counter is the length of that run; cancelled and refused cycles do not count |
| DaemonRuns.GateSafetyOverRuns | internal/scheduler/scheduler.go:154-170 | In every run each forced read belongs to the force loop and, with the gate on, follows that loop's own cached read that reported plugged in, with no event of the other loop and only failed forced reads and waits in between |
| WakeBudget.ForcedReadsPerFiring | internal/scheduler/scheduler.go:140-219 | In every run forced reads number at most MaxRetries + 1 per firing of the timer |
| FetchRuns.ServedReadsAreIssued | internal/bluelink/client.go:278-310 | A read is served by one doAuthedGet per path it asks for, and what goes out are the GETs those calls log: whatever the servers answer and whoever else uses the client, each path of the read goes out at most twice and no other path does |
| FetchRuns.TwoWakesHappen | internal/bluelink/client.go:290-305 | The factor of two is reached: from every state the client can be in with the mutex free and good tokens, any call not yet begun can serve a forced read with two requests of the wake endpoint, and leaves the client as good as before |
| WholeRuns.DaemonHalf | internal/scheduler/scheduler.go:85-186 | In every run of the daemon with its client, the daemon's half is a run of the two loops, so every theorem about those holds |
| WholeRuns.ClientHalf | internal/bluelink/client.go:278-310 | In every such run the client keeps the whole token invariant, and every fetch of the trace requested only paths of its read, each at most twice |
| WakeBudget.WakeBudgetOfRun | internal/scheduler/scheduler.go:140-234 | The wake budget: whatever the servers answer, a run of the daemon with its client that lasts T sends at most 2 (MaxRetries + 1) ((T + band) / day + 1) requests to the wake endpoint |
| WakeSharpness.WakeBudgetIsReached | internal/scheduler/scheduler.go:140-219 | The budget is reached: for every vehicle, zone, force time and number of retries, with the gate off, there is a run whose first firing, on time and with its waits waited out, sends 2 (MaxRetries + 1) wake requests; within a day less the band that is all the budget allows |
| Retention.FreshOverRuns | internal/publisher/publisher.go:62-75 | In every run, after a publish acknowledged to the end and until another one begins, the topics show that state, its distances in the configured unit and standing for the lengths that were read |
| Retention.OriginsOverRuns | internal/publisher/publisher.go:62-105 | In every run, whatever the broker retained before it and failed publishes included, the retained document is the one from before or of a state that was published, and the retained position is the one from before or of a state that is no newer than the document's |
| Retention.SuccessMeansRetained | internal/scheduler/scheduler.go:118-186 | When a success is marked, the trace ends in a fetch, its publish and the mark, all of one loop, and the broker retains the state that fetch returned |
| WholeRetention.SuccessMeansShown | internal/scheduler/scheduler.go:118-186 | In every run of the daemon with its client, whatever the servers answer: when a success is marked, the topics show the very state the same loop's last fetch returned, its distances in the configured unit and standing for the lengths that were read |
| Readiness.ReadyIff | internal/server/server.go:95-113 | After any sequence of marks the counter is the length of its trailing run of failures, and no other length is; ready holds if and only if some mark succeeded and that length is below the threshold |
| Readiness.Clamp | internal/server/server.go:88-93 | The threshold is at least one, and as configured when that is at least one |
| Readiness.Server.constructor | internal/server/server.go:88-93 | A new server has an empty history, the clamped threshold and no metrics |
| Readiness.Server.MarkSuccess | internal/server/server.go:97-102 | Extends the history by a success and keeps ready and counter what the history says |
| Readiness.Server.MarkFailure | internal/server/server.go:106-113 | Extends the history by a failure; ready survives only below the threshold |
| Readiness.Server.Ready | internal/server/server.go:116-120 | Answers from the history alone: some success, and a trailing run of failures below the threshold |
| Publishing.TopicsDistinct | internal/publisher/publisher.go:60-105 | The state, tracker and availability topics of a vehicle never coincide, whatever the prefix and VIN |
| Publishing.SendEffect | internal/publisher/publisher.go:62-105 | A multi-topic publish succeeds if and only if every message is acknowledged; each topic ends as it was or with its message, and a message is stored only if all earlier ones are |
| Publishing.SuccessRetainsState | internal/publisher/publisher.go:62-105 | A successful publish leaves the broker with the converted document, the tracker reset and the position if known; an unknown position never touches the retained one, and no other topic changes |
| Publishing.SuccessIsShown | internal/publisher/publisher.go:60-105 | After a successful publish the payload on prefix/vin/state says what the state says: its distances in the configured unit and standing for the same lengths up to 0.05 of it, everything else unchanged; prefix/vin/tracker/state says None, and prefix/vin/tracker/attributes has the state's latitude and longitude if both are known |
| Publishing.PublishEffect | internal/publisher/publisher.go:62-105 | Any publish changes nothing of document and position, or the document alone, or both together |
| Publishing.PositionNeverNewer | internal/publisher/publisher.go:84-105 | The same over any sequence of publishes with any losses: a retained position that was published is never newer than the retained document |
| Publishing.TrackerKeepsLastKnown | internal/publisher/publisher.go:84-105 | Once the position of the last state that had one has been stored, whether or not the rest of its publish was acknowledged, it stays retained through any later publishes without one, failed or not |
| Publishing.SuccessStoresPosition | internal/publisher/publisher.go:84-105 | In particular it does when that state's publish succeeded |
| Publisher.Broker.Publish | internal/publisher/recording.go:28-39 | Last write wins per topic, topics are listed once in first-seen order, a lost message changes nothing |
| Publisher.Service.PublishState | internal/publisher/publisher.go:62-75 | The ordered publishes carry out exactly the plan of messages, stopping at the first failure; success leaves the state shown, its distances converted, on the vehicle's topics |
| Publisher.Service.PublishTracker | internal/publisher/publisher.go:88-105 | The tracker attributes go out only with both coordinates, and the reset last |
| Publisher.RecordingService.PublishState | internal/cmd/serve.go:179-210 | Metrics are replaced if and only if every message was acknowledged, and then show the state's own readings, each under its name; health is untouched |
| TokenRuns.StepKeepsInv | internal/bluelink/client.go:116-148 | Every step of every call keeps mutual exclusion, the refresh chain, the retry discipline and agreement with the store |
| TokenRuns.RunKeepsInv | internal/bluelink/client.go:278-310 | Any interleaving of any number of calls after Connect keeps all of it |
| TokenRuns.RetryUsesNewerTokens | internal/bluelink/client.go:278-310 | Each call makes at most two GETs; the second follows a token response received after the first GET was issued, even when another call refreshed in between, and carries the newest set received by then |
| TokenRuns.AtMostTwoGetsPerCall | internal/bluelink/client.go:278-310 | In every run the log counts at most two GETs for each call |
| TokenProgress.NoDeadlock | internal/bluelink/client.go:116-148 | For every call under way, its own next step is enabled, or it waits for the mutex and the step of the call that holds it is |
| TokenProgress.RunsAreBounded | internal/bluelink/client.go:278-310 | Whatever the servers answer and however the calls interleave, a run takes at most seventeen steps a call |
| TokenProgress.StuckIffAllDone | internal/bluelink/client.go:278-310 | A run cannot be continued if and only if every call has come to its end, and then the mutex is free |
| TokenProgress.CanFinish | internal/bluelink/client.go:278-310 | From every state of every run, any call that has begun can be brought to its end with the mutex free, even if the servers refuse everything |
| TokenRuns.RotatedOutNeverPresented | internal/bluelink/client.go:116-130 | Every refresh grant presents the refresh token of the newest set received; once replaced, a token is not presented again unless the server issues it again |
| TokenRuns.ChainCarriesForward | internal/bluelink/auth.go:106-122 | Between full logins the device id never changes, and the refresh token does not either while the server rotates nothing |
| TokenRuns.GetsCarryCredentials | internal/bluelink/client.go:278-310 | When no token response is blank, every GET of every run carries an access token and a device id |
| TokenRuns.CredentialsIff | internal/bluelink/client.go:278-310 | Over runs, exactly: with an expired token to refresh, a server that answers with an accepted response leaves every GET of every run with an access token and a device id if and only if that response is not blank |
| TokenRuns.BlankTokenIsSent | internal/bluelink/auth.go:124-134 | From any connected state with an expired token, and for every accepted blank response, there is a run with a GET whose access token is empty |
| TokenRuns.StoreAgreesWithMemory | internal/bluelink/client.go:100-148 | Whenever the mutex is free and the last save did not fail, the store holds the tokens in memory up to a zeroed expiry |
| TokenRuns.RestartResumes | internal/bluelink/client.go:100-114 | A restart in such a state continues the same refresh chain, device and access token |
| TokenRuns.RestartResumesIff | internal/bluelink/client.go:100-130 | In every state of every run: a restart resumes the newest refresh token and device if and only if the last set received since the last save that reached the store, if any, has the refresh token and device that save stored |
| TokenRuns.RestartResumesIffUnrotated | internal/bluelink/client.go:100-130 | Where the server never takes up an earlier refresh token and device again: if and only if no set with another refresh token or device was received at all since that save; since the start, if no save has reached the store yet and the store held the chain then |
| TokenRuns.LostRotationIsPresentedAgain | internal/bluelink/client.go:116-130 | From every connected state with an expired token, and for every rotating answer, there is a run that receives the replacement and loses its save, after which a restarted process presents the rotated-out token |
| TokenModel.AccessTokenPresentIff | internal/bluelink/auth.go:124-134 | The Authorization value of an accepted response is non-empty if and only if its token type or access token has a character that is not white space |
| TokenModel.TokensOfResponse | internal/bluelink/auth.go:124-134 | For parts without outer white space the stored value is the token type, a blank and the access token, in this order; the set lasts the seconds the response says, a day if it says none |
| Client.Client.PostToken | internal/bluelink/auth.go:238-263 | A response whose access token is empty is refused, any other is passed on as it is |
| Client.Client.RefreshTokens | internal/bluelink/auth.go:106-122 | The refreshed set carries the presented refresh token forward when the answer has none |
| Client.Client.EnsureTokenLocked | internal/bluelink/client.go:116-130 | Takes only steps of the token machine; a token with more than two minutes left, on a device, is kept and nothing is asked or changed; any other set is renewed |
| Client.Client.RenewLocked | internal/bluelink/client.go:120-129 | Without a lasting token: a refresh if there is a refresh token and a device, which keeps the device; else, or if it is refused, a login with a new device; the outcome is that of the save |
| Client.Client.FullLoginLocked | internal/bluelink/client.go:132-148 | Takes only steps of the token machine; leaves the new device's tokens, saved as far as the save went, or nothing changed |
| Client.Client.Connect | internal/bluelink/client.go:100-114 | The check is made with what the store held: a stored set with more than two minutes left is kept, unchanged and without a request; an expired one is refreshed on its own device, with its own refresh token or the replacement; only then a login. Success leaves a state in which runs may begin |
| Client.Client.Snapshot | internal/bluelink/client.go:287-303 | Under the mutex: invalidate after a 401, ensure a token, and take the snapshot that the following GET carries |
| Client.Client.DoAuthedGet | internal/bluelink/client.go:278-310 | With any other calls running whenever the mutex is free, the call takes only steps of the token machine and ends with the answer the machine gives |
| Client.ReachableStatesKeepInv | internal/bluelink/client.go:278-310 | Every state a client reaches from a connected one is a state of some run, so all run theorems hold of the class |
| SecretStore.Save | internal/bluelink/tokenstore_kube.go:81-107 | The loop that reads, writes into the map and updates has exactly the specified effect under any foreign writes and faults |
| SecretStore.Load | internal/bluelink/tokenstore_kube.go:65-79 | A missing Secret, an empty entry and a malformed one give an error, nothing stored, and an error |
| SecretStore.SuccessfulSaveLosesNothing | internal/bluelink/tokenstore_kube.go:81-107 | A successful Save yields everything others wrote up to its last request, then its own key and one more version: no other key's update is lost |
| SecretStore.ConflictIff | internal/bluelink/tokenstore_kube.go:88-105 | It fails by conflict if and only if no request fails and somebody writes in both Get-Update windows |
| SecretStore.NeverExhausted | internal/bluelink/tokenstore_kube.go:106-106 | The error after the loop is unreachable |
| SecretStore.LoadAfterSave | internal/bluelink/tokenstore_kube.go:65-107 | An uninterfered Load after a successful Save returns the saved tokens |
| SecretStore.BehavesLikeMemory | internal/bluelink/tokenstore.go:17-39 | While others keep to their own keys, any sequence of saves and loads answers like the in-memory store until an update request fails ambiguously |
| StoreSteps.SaveIsMachineStep | internal/bluelink/tokenstore_kube.go:81-107 | While others keep to their own keys, a Save to the Secret, whatever happens to its requests, is a save step of the token machine with the same verdict, and the Secret then holds what the machine says is stored |
| StoreSteps.LoadIsRestart | internal/bluelink/tokenstore_kube.go:65-79 | An answered Load gives a restarting process exactly the tokens the machine says are stored |
| SecretStore.MemoryStore.Save | internal/bluelink/tokenstore.go:33-39 | The in-memory store holds exactly the last tokens saved |
| Json.WalkPath | internal/bluelink/parse_ccs2.go:212-224 | The loop over path segments finds what the recursive lookup finds |
| Json.GetPathComposes | internal/bluelink/parse_ccs2.go:212-224 | Looking up p followed by q is looking up q below p, in any tree |
| Json.DottedLookupComposes | internal/bluelink/parse_ccs2.go:212-224 | The same for dotted path strings |
| Json.SplitDotsInvertsJoin | internal/bluelink/parse_ccs2.go:212-216 | Splitting a dotted path gives back its segments |
| CCS2Parser.AllDoorsLocked | internal/bluelink/parse_ccs2.go:84-103 | Unknown if and only if some door has no reading, else whether all readings are zero |
| CCS2Parser.TireWarning | internal/bluelink/parse_ccs2.go:106-130 | Unknown if and only if no flag has a reading, else whether some reading is not zero |
| CCS2Parser.ParseCCS2Frame | internal/bluelink/parse_ccs2.go:10-78 | Documents that agree on the twenty-eight paths the parser reads parse to the same state, whatever else they hold |
| DocumentLaws.CCS2Distances | internal/bluelink/parse_ccs2.go:16-18 | For every document the range stands for its Total in kilometres with unit index 1, for Total times 1.609344 with 2 or 3, and has no unit with any other index or none; the odometer is in kilometres |
| DocumentLaws.CCS2RangePublished | internal/bluelink/parse_ccs2.go:168-180 | From the status body to the broker: the published range stands for the length the document says, up to 0.05 of the configured unit |
| DocumentLaws.CCS2Temperatures | internal/bluelink/parse_ccs2.go:182-193 | Temperatures are in degrees Celsius: nine fifths of them are the document's number less 32 with unit index 1, the number itself otherwise, and unknown without a number |
| DocumentLaws.CCS2Battery | internal/bluelink/parse_ccs2.go:134-146 | The 12V battery is known if and only if its level is a number from 0 to 100 that is not marked unreliable, and is then the whole percents of it |
| DocumentLaws.CCS2Plug | internal/bluelink/parse_ccs2.go:20-46 | Plugged in for any number but zero, charging for any remaining time above zero, the port door open for 1 and closed for 0 and 2; each unknown otherwise |
| DocumentLaws.CCS2Locked | internal/bluelink/parse_ccs2.go:84-103 | Locked if and only if all four doors of the document read zero, unknown if and only if one of them has no reading |
| DocumentLaws.CCS2Tires | internal/bluelink/parse_ccs2.go:106-130 | A warning if and only if one of the document's five flags is raised, unknown if and only if none has a reading |
| DocumentLaws.CCS2Date | internal/bluelink/parse_ccs2.go:196-206 | The date is what the first of RFC 3339, the compact and the spaced form reads, unknown if none does |
| DocumentLaws.NumbersOfTrees | internal/bluelink/parse_ccs2.go:227-262 | Numbers and booleans count as numbers and nothing else does; integers drop the fraction towards zero |
| CCS1Parser.ChargeLimits | internal/bluelink/parse_ccs1.go:40-58 | The overwriting loop ends with the last well-formed level of each plug type |
| CCS1Parser.LastTargetIsLast | internal/bluelink/parse_ccs1.go:40-58 | A level after which no well-formed entry of its plug type follows is the limit |
| CCS1Parser.NoTargetIff | internal/bluelink/parse_ccs1.go:40-58 | There is no limit if and only if there is no well-formed entry of the plug type |
| CCS1Parser.MalformedEntryIgnored | internal/bluelink/parse_ccs1.go:40-58 | Inserting a malformed entry, or one of another plug type, anywhere changes nothing |
| CCS1Parser.TargetIgnoresOrderIff | internal/bluelink/parse_ccs1.go:40-58 | The order of the list is irrelevant if and only if its entries of the plug type agree, in particular when there is one |
| CCS1Parser.ParseCCS1Frame | internal/bluelink/parse_ccs1.go:13-92 | The parse depends on the status and location sub-documents only, odometer aside |
| CCS1Parser.ParseCCS1Document | internal/bluelink/parse_ccs1.go:13-92 | Filling the snapshot step by step gives the specified state or error, for every tree |
| DocumentLaws.CCS1Odometer | internal/bluelink/parse_ccs1.go:69-70 | For every document that parses the odometer stands for its value in the unit of its index: kilometres for 1, miles for 2 and 3, no unit otherwise |
| DocumentLaws.CCS1Range | internal/bluelink/parse_ccs1.go:21-28 | So does the range, from the first entry of drvDistance |
| DocumentLaws.CCS1DistancesPublished | internal/bluelink/parse_ccs1.go:21-70 | From the cached status body to the broker: published odometer and range stand for the lengths the document says, up to 0.05 of the configured unit |
| DocumentLaws.CCS1Battery | internal/bluelink/parse_ccs1.go:65-67 | The 12V battery follows the same rule as in CCS2, without a reliability mark |
| DocumentLaws.CCS1Plug | internal/bluelink/parse_ccs1.go:33-37 | Plugged in for any number but zero, AC or DC, and unknown without one |
| DocumentLaws.CCS1Time | internal/bluelink/status.go:149-159 | The time is what the compact form reads, else RFC 3339, unknown if neither does |
| DocumentLaws.LampsOfStatus | internal/bluelink/parse_ccs1.go:96-119 | A warning if and only if one of the five lamps is raised, unknown if and only if none has a reading |
| DocumentLaws.TargetEntries | internal/bluelink/parse_ccs1.go:41-56 | A target counts for DC exactly when it is an object with plug type 0 and a number for its level, for AC with plug type 1 |
| StatusFetch.RequestsOfRead | internal/bluelink/status.go:23-110 | Whatever the status document, the paths a read asks for are the beginning of its list, none twice; no path of a cached read is a status endpoint without /latest, and exactly one path of a forced read is, for either protocol |
| StatusFetch.StatusEndpoints | internal/bluelink/status.go:28-31 | The cached endpoint is the forced one's path with /latest, in the vehicle's own protocol; the forced one wakes the car, the cached one and the park location do not |
| StatusFetch.ReadSucceedsIff | internal/bluelink/status.go:23-110 | A read succeeds if and only if its status document is at hand and, for a cached CCS1 read, has a vehicleStatus in it; the park location never decides it |
| StatusFetch.ErrorCodeFails | internal/bluelink/client.go:262-276 | A status response with a return code other than S or nothing makes every read fail, and a park response with one is as good as none |
| StatusFetch.ParkFailureIsHarmless | internal/bluelink/status.go:50-57 | With a status document at hand, any failure about the park location leaves the read successful and the state what the status document says |
| StatusFetch.Api.FetchStatus | internal/bluelink/status.go:23-125 | Each request is recorded: for any answers the read asks first for the status endpoint of its protocol, with /latest unless forced, goes on to the park location only with a status document at hand, and sends a request that wakes the car once if forced and never if cached |
| StatusFetch.UnaskedParkIsIgnored | internal/bluelink/status.go:23-125 | A read that did not ask for the park location has a result that does not depend on what the park location would have been |
| StatusFetch.ForcedWrappingFrame | internal/bluelink/status.go:71-110 | The forced CCS1 wrapping of any status and location tree parses without error, to the state of the cached wrapping of the same trees, odometer aside |
| ProtocolAgreement.CCS1Read | internal/mock/server.go:276-333 | Reading the mock's CCS1 printing through the fetch paths gives the state its options describe |
| ProtocolAgreement.CCS2Read | internal/mock/server.go:335-385 | Reading the mock's CCS2 printing through the fetch paths gives the state its options describe |
| ProtocolAgreement.ProtocolsAgreeIff | internal/mock/server.go:224-385 | For the same options, cached or forced, both protocols give the same state up to the fields CCS1 does not carry and the odometer of a forced CCS1 read, if and only if the position is not (0, 0) |
| Base64.UnpaddedRoundTrip | internal/bluelink/jwk.go:44-47 | Decoding inverts encoding on every byte string, for either alphabet (section 5 of RFC 4648) |
| Base64.SextetsAreTheSameBits | internal/bluelink/stamp.go:22-22 | Four characters carry the same 24 bits as the three bytes they stand for, in order, and missing bits are zero (section 4 of RFC 4648) |
| Base64.AlphabetsSpelled | internal/bluelink/jwk.go:44-47 | The characters are those of tables 1 and 2 of RFC 4648, the two alphabets differing in the last two |
| Base64.PaddedRoundTrip | internal/bluelink/stamp.go:15-22 | The same with padding (section 4 of RFC 4648) |
| Jwk.SetBytesInvertsBytes | internal/mock/server.go:126-135 | Big-endian bytes read back as the number they were made from |
| Jwk.FirstByteWeighsMost | internal/bluelink/jwk.go:36-37 | Components are big-endian: the first byte weighs 256 to the number of bytes after it (section 2 of RFC 7518) |
| Jwk.CertsRoundTripIff | internal/bluelink/jwk.go:23-47 | Decoding the mock's certificate gives exactly its modulus and exponent if and only if both are positive and the exponent is at most 2^31 - 1 |
| Jwk.PaddingIsIgnored | internal/bluelink/jwk.go:44-47 | Any amount of trailing padding on either component changes nothing |
| Jwk.AcceptedKeysIff | internal/bluelink/jwk.go:36-41 | A key can come out of the decoder if and only if its exponent is at most 2^31 - 1, zero included |
| Stamp.KeyIsFiftyBytes | internal/bluelink/constants.go:21-23 | The key constant is well-formed base64 for fifty bytes |
| Stamp.XorTruncate | internal/bluelink/stamp.go:26-33 | The loop fills a buffer as long as the shorter operand, each bit of each byte set exactly when the operands differ in it |
| Stamp.XorByteBit | internal/bluelink/stamp.go:30-30 | Each of the eight bits of a masked byte is set exactly when key and text differ in it |
| Stamp.XorSeqTwice | internal/bluelink/stamp.go:26-33 | Masking twice with one key gives back as much of the text as the key covers |
| Stamp.StampRecoversIff | internal/bluelink/stamp.go:15-23 | A stamp is always made; decoding and masking it again gives the whole plaintext if and only if the time prints as at most thirteen characters, else its first fifty bytes |
| Stamp.StampMasksPlaintext | internal/bluelink/stamp.go:15-23 | A stamp is base64 of at most fifty bytes, in each of which exactly those bits are set in which key and plaintext differ |
| Stamp.PlaintextSpelled | internal/bluelink/stamp.go:20-21 | The plaintext is the application id, a colon, and decimal digits that stand for the time |
| Stamp.DigitsStandForIt | internal/bluelink/stamp.go:20-21 | The printed digits of a time, weighed by powers of ten from the left, give the time |
| Stamp.StampsAreInjective | internal/bluelink/stamp.go:15-23 | Different times of at most thirteen digits have different stamps |
| Stamp.LongTimesCollide | internal/bluelink/stamp.go:15-33 | Every longer time shares its stamp with a different time |
| Distances.PublishedReadingIsFaithful | internal/bluelink/model.go:91-97 | A converted reading stands for the same length up to 0.05 of the published unit, carries that unit, and converting it again changes nothing |
| Distances.PublishedReadingsAreMonotone | internal/bluelink/model.go:91-97 | A larger reading is never published as a smaller one |
| Distances.HalvesRoundAway | internal/bluelink/model.go:95-96 | Halves of the last published digit are rounded away from zero, on both sides of it |
| Distances.MilesRoundTrip | internal/bluelink/model.go:91-97 | Every reading in miles with one decimal survives conversion to kilometres and back |
| Distances.KilometresRoundTripIff | internal/bluelink/model.go:91-97 | A reading in kilometres with one decimal survives conversion to miles and back if and only if some reading in miles with one decimal is published as it |
| Distances.FourTenthsDoNotRoundTrip | internal/bluelink/model.go:91-97 | Such readings that do not survive exist: 0.4 km comes back as 0.3 km |
| Distances.RelabelledWithoutConversionIff | internal/bluelink/model.go:85-97 | A reading is stamped with a unit it was not converted to if and only if its source unit is neither empty nor known |
| Distances.PublishedUnitsMatchLabels | internal/homeassistant/entities.go:41-51 | Published units match the discovery labels of Range and Odometer for all parsed states if and only if a unit is configured |
| DistanceLabels.FetchedDistancesArePublishedRightly | internal/publisher/publisher.go:62-75 | Whatever the servers answered, for either protocol, cached or forced, and any unit that can be configured: a present distance of known unit is published under the label's unit and stands for the same length up to 0.05 of it; one of unknown unit is published as it was read; nothing else changes |
| DistanceLabels.FetchedUnits | internal/bluelink/status.go:23-110 | Every state a read returns has its distances in km, in mi, or without a unit |
| Distances.InDistanceUnitFrame | internal/bluelink/model.go:68-81 | Publishing twice is publishing once; nothing but the two distances changes, and a distance of empty unit does not either |

## Left out

- Finish: the tails of poll and forceRefresh are the same code twice in the source and one method here.
- PollNow, ForceNow: one cycle with the mutex held; contention for the mutex is in DaemonRuns, not in the class.
- CanGetTurn, CanFinish: what is always possible; that the Go scheduler and its mutex let it happen is not modelled.
- Moves: a fetch is one step of the two loops; the steps of its calls, and of any other caller of the client, run inside it, and the loops' own steps do not.
- BehavesLikeMemory: stops at the first failed update request, after which the two stores may differ, since the write may have happened or not.
- Connect: the load happens before the mutex is taken; no other call runs during it here, as in the daemon, which connects before it starts anything else.
- DoAuthedGet: the body that is returned and the text of errors; only whether it succeeds.
- OthersRun in the client stands for the other goroutines: callers know no more of it than its contract, which any of their steps satisfies.
- The duration of the waits between attempts is in the trace, but not tied to the clock of the two-loop model, which may advance at any time.
- time.Date's calendar arithmetic is day-number arithmetic; a zone is any offset function, with a choice of adjacent offset in gaps and overlaps. Saturation of time.Duration beyond 292 years.
- Go's time-layout parser is an abstract parameter, constrained only where the two protocols are compared.
- HTTP, cookies, redirects, the login form and its RSA encryption, and random identifiers: a login, refresh, registration or GET is an arbitrary typed answer.
- JSON text: documents start as decoded trees; encoding/json's case-insensitive field matching and duplicate keys are not modelled, nor is int conversion beyond 64 bits.
- IEEE rounding, infinities and NaN: numbers are exact reals.
- The MQTT and Kubernetes client libraries: a retained broker whose messages may be lost, and a versioned compare-and-swap cell.
- The retain flag and QoS of a publish: every message of the model is retained, as every call in the program asks for.
- Discovery documents other than the two distance labels, availability messages, the HTML page, configuration parsing, logging and commands.
- Shutdown order and reconnection: they depend on library scheduling.
- SelectVehicle, DebugGet and the mock's counters and failure switch: flat code without properties that span operations.
