# gocircuit: the Redis realtime circuit breaker, modelled in Dafny

This project models the distributed circuit breaker of `gocircuit`'s
`redis/realtime` package and the phase names of the `gocircuit` package
(`state.go`). Every process that shares a breaker key keeps the breaker's
state in Redis under seven keys:

- a **state record** `"<phase> <nanos>"`: the phase (closed, half, open) and
  the instant at which the current Open or HalfOpen period ends;
- five **sliding-window sets** of event timestamps: requests, successes,
  failures, consecutive successes and consecutive failures;
- a **half-open set** of trial markers.

A call to `protect` prunes the windows and reads the record and the counts.
On Closed it runs the action and records its outcome, unless the caller's
trip predicate fires, in which case it moves the breaker to Open. On an Open
record whose period is over it tries to move the breaker to HalfOpen and runs
the action as a trial. In every other case it rejects the call. Both
transitions are optimistic transactions (WATCH / GET / MULTI / EXEC) on the
state key. A Closed→Open transition (including a failed trial's reopen) that
other processes invalidated asks `protect` to run the decision again; a
caller that loses the HalfOpen transition returns the error instead.

Layout (one Dafny module per file):

| file | module | contents |
|---|---|---|
| `errors.dfy` | `Errors` | `Option`, `Result`, the error values the breaker returns |
| `gostd.dfy` | `GoStd` | decimal `FormatInt`, `ParseInt64` (base 10, 64 bits), `Split` on one character, with their round-trip lemmas |
| `state.dfy` | `Gocircuit` | `State`, its constants and names (`state.go`) |
| `codec.dfy` | `Codec` | `StateStruct` and its text form, the read of the state key |
| `keys.dfy` | `Keys` | the seven key builders |
| `accounting.dfy` | `Accounting` | the store: a `Store` class with the seven values, its commands, and the functions that specify them |
| `protocol.dfy` | `Protocol` | `setToOpen`, `setToHalfOpen`, `runClosed`, `protectInternal`, `protect` as methods over `Store`, each proved equal to a specification function |
| `properties.dfy` | `Properties` | what the protocol promises, stated over the specification functions, and the demonstration driver's run |

How the environment is represented:

- **Redis** is the `Store` class. A sorted-set member is the event's
  timestamp and its score is the same nanosecond count, so each set is the
  set of its integer scores.
- **Other processes** are a script of `Interference` values held by an `Env`
  object. Each optimistic transaction on the state key consumes one entry:
  - `Quiet`: no other process acts;
  - `WriteBeforeWatch(v)`: another process writes `v` before this caller's
    WATCH, so the caller's GET sees it;
  - `WriteDuringWatch(v)`: another process writes `v` between WATCH and
    EXEC, so EXEC aborts with `TxFailed`.
  `setToHalfOpen` watches both the state key and the half-open key
  (implementation.go:448). A write by another process to the half-open key
  aborts its EXEC in the same way; the model represents it as
  `WriteDuringWatch` of the value already stored under the state key.
  Once the script is exhausted every transaction is `Quiet`. A pass that asks
  to retry has shortened the script (`PassProgress`), so `protect`'s loop
  terminates; on a script of `Quiet` entries only, no pass asks to retry and
  `protect` is a single pass (`Properties.CalmRunsOnePass`).
- **`OnStateChange`** appends `(from, to)` to the `Env`'s notification log.
- **The protected action** is an `Action` object that always answers the
  same value and error and counts its invocations.
- **`ReadyToTrip` and `IsSuccessful`** are function fields of `Settings`.
- **The clock** is one instant `now`, in Unix nanoseconds, passed to each
  `protect` call.

### Behaviour as written

The model follows the code as written, including these behaviours:

- Pruning removes window members whose score is **at most** `now - Interval`
  (`ZREMRANGEBYSCORE key -inf max` is inclusive), not only those strictly
  older (`Accounting.PrunedSpec`).
- The conflict guard of both transitions fires only when the stored record
  is present **and** its phase differs **and** its time differs
  (implementation.go:375, :429). A record whose phase alone changed passes
  it (`Properties.ConflictGuardIsNarrow`). Times are compared as integers
  here; "Left out" says where Go's `time.Time` comparison differs.
- A caller whose half-open transaction aborts returns that error (for
  example `TxFailed`) with retry = false, so `protect` does not run the
  decision again (`Properties.HalfOpenLoserStops`).
- A failed trial whose reopen commits returns `CircuitBreakerOpen` in place
  of the action's error and never removes its trial marker
  (`Properties.TrialFailureReopens`).
- `clear` does not delete the half-open set, so a successful trial leaves its
  marker in place (`Properties.TrialSuccessResets`).
- A failed trial whose reopen transaction is aborted by another writer asks
  to retry after the action has run, so one `protect` call can run the
  action twice (`Properties.TrialCanRunTwice`).

## Model

| member | source | states |
|---|---|---|
| Gocircuit.StateFromString | state.go:17-28 | `"closed"`, `"half"` and `"open"` give `StateClosed`, `StateHalfOpen` and `StateOpen` without error, and no other text is error-free; any other text gives `StateClosed` with the error `unknown state: <text>` |
| Gocircuit.StateToString | state.go:30-41 | `StateClosed`, `StateHalfOpen` and `StateOpen` give `"closed"`, `"half"` and `"open"` without error, and no other value is error-free; any other value gives `"closed"` with the error `unknown state: <n>` |
| Gocircuit.StateString | state.go:43-49 | `"unknown state"` exactly for an out-of-range value; otherwise a name that parses back to the same phase |
| Gocircuit.FromToRoundTrip | state.go:11-41 | for the three constants (Closed = 0, HalfOpen = 1, Open = 2), naming succeeds and parsing the name gives the constant back |
| Gocircuit.ToFromRoundTrip | state.go:17-41 | for the three names, parsing and naming again gives the same name without error |
| GoStd.FormatInt | redis/realtime/implementation.go:48 | the decimal text of an integer is non-empty, has no space, and starts with a digit exactly when the integer is non-negative |
| GoStd.ParseInt64 | redis/realtime/implementation.go:115 | a successful parse is always in the int64 range |
| GoStd.ParseFormat | redis/realtime/implementation.go:111-120 | parsing the decimal text of `n` gives `n` back exactly when `n` is an int64, and the range error otherwise |
| GoStd.Split | redis/realtime/implementation.go:60 | there is always at least one field, and no field contains the separator |
| GoStd.JoinSplit | redis/realtime/implementation.go:60 | joining the fields with the separator gives the original text back |
| GoStd.SplitAround | redis/realtime/implementation.go:48-60 | text `a + " " + b` with no space in `a` or `b` splits into exactly `[a, b]` |
| Codec.StateStructToString | redis/realtime/implementation.go:40-57 | no error exactly for a known phase, and the text then splits into the phase name and the decimal time for all three phases alike; an unknown phase gives `""` and an error |
| Codec.TimeFromString | redis/realtime/implementation.go:111-120 | `"empty string"` error for an empty field, `"invalid time string"` error for text that is not an int64, and otherwise the parsed value |
| Codec.StateStructFromString | redis/realtime/implementation.go:59-78 | rejects more than two fields, an unknown or empty phase name, an empty second field and a non-integer second field, each with its own error; a lone name decodes with time 0; two valid fields decode to their phase and value; every error comes with the zero record |
| Codec.DecodeFields | redis/realtime/implementation.go:64-77 | an unknown name, an empty second field and a non-integer second field each give their own error with the zero record; a lone name decodes with time 0; a name and an int64 decode to that phase and value |
| Codec.DecodeEncoded | redis/realtime/implementation.go:40-78 | decoding an encoded record gives it back when its time is an int64, and the `invalid time string` error otherwise |
| Codec.RoundTrip | redis/realtime/implementation.go:40-120 | for every known phase and int64 time, encoding succeeds and decoding the text gives the record back |
| Codec.ReadState | redis/realtime/implementation.go:167-182 | an absent state key reads as the zero record (phase Closed, time 0) without error; a present one reads exactly as `StateStructFromString` decodes its text, so it gives a known phase or a decode error |
| Keys.TaggedInjective | redis/realtime/implementation.go:85-109 | for a fixed prefix and key, equal keys have equal tags |
| Keys.Tagged | redis/realtime/implementation.go:85-109 | a key built from `prefix`, a tag and `key` is `prefix`, `:`, the tag, `:`, `key`: it starts with the prefix, has `:` right after it and right after the tag, ends with the breaker key, is two characters longer than the three parts, and its tag can be read back |
| Keys.StateKey | redis/realtime/implementation.go:85-87 | the state key carries the tag `state` between prefix and breaker key |
| Keys.RequestKey | redis/realtime/implementation.go:89-91 | the requests key carries the tag `req` |
| Keys.FailureKey | redis/realtime/implementation.go:92-94 | the failures key carries the tag `fail` |
| Keys.ConsecutiveFailureKey | redis/realtime/implementation.go:95-97 | the consecutive-failures key carries the tag `confail` |
| Keys.SuccessKey | redis/realtime/implementation.go:99-101 | the successes key carries the tag `succ` |
| Keys.ConsecutiveSuccessKey | redis/realtime/implementation.go:103-105 | the consecutive-successes key carries the tag `consucc` |
| Keys.HalfOpenKey | redis/realtime/implementation.go:107-109 | the half-open key carries the tag `half` |
| Keys.KeysDistinct | redis/realtime/implementation.go:85-109 | the seven keys of one breaker are pairwise distinct |
| Accounting.RemoveRangeByScore | redis/realtime/implementation.go:243-247 | keeps exactly the members whose score is above the bound |
| Accounting.PrunedSpec | redis/realtime/implementation.go:241-249 | pruning removes exactly the members at or before `now - Interval` from the five window sets, leaves the state value and the half-open set alone, and pruning again at the same or an earlier cutoff changes nothing |
| Accounting.Pruned | redis/realtime/implementation.go:241-249 | pruning keeps the state value and the half-open set, only removes window members, and leaves no member at or before the cutoff |
| Accounting.Succeeded | redis/realtime/implementation.go:252-290 | after a success the state key holds the encoded zero Closed record (present, reading as phase Closed, time 0), the timestamp is in requests, successes and consecutive successes and nothing else changed in them, consecutive failures are empty, and failures and the half-open set are unchanged |
| Accounting.Failed | redis/realtime/implementation.go:295-326 | after a failure the timestamp is in requests, failures and consecutive failures and nothing else changed in them, consecutive successes are empty, and the state value, successes and the half-open set are unchanged |
| Accounting.Cleared | redis/realtime/implementation.go:226-239 | after `clear` the state key is absent (and so reads as the zero Closed record), the five window sets are empty and the half-open set is unchanged |
| Accounting.PrunedKeepsShape | redis/realtime/implementation.go:241-249 | pruning keeps the window invariant: every request is a success or a failure, each consecutive set lies in its total set, and one of the two consecutive sets is empty |
| Accounting.RegisterKeepsShape | redis/realtime/implementation.go:226-326 | recording a success, recording a failure and clearing each keep the window invariant |
| Accounting.CountsBounds | redis/realtime/implementation.go:134-142 | under the window invariant, each consecutive count is at most its total, each total at most the requests, the requests at most successes plus failures, and one consecutive count is 0 |
| Accounting.RegisterCounts | redis/realtime/implementation.go:252-326 | with a fresh timestamp, a success adds one request, one success and one consecutive success and resets consecutive failures to 0; a failure is the mirror image |
| Accounting.SucceededCounts | redis/realtime/implementation.go:252-290 | with a fresh timestamp, recording a success adds one request, one success and one consecutive success, keeps the failures and resets consecutive failures to 0 |
| Accounting.FailedCounts | redis/realtime/implementation.go:295-326 | with a fresh timestamp, recording a failure adds one request, one failure and one consecutive failure, keeps the successes and resets consecutive successes to 0 |
| Accounting.ReadInfo | redis/realtime/implementation.go:167-224 | the read succeeds exactly when the state record decodes, and then reports the record and the five cardinalities |
| Accounting.Store.ClearTimings | redis/realtime/implementation.go:241-249 | the store becomes the pruned store at cutoff `now - Interval` |
| Accounting.Store.RegisterSuccess | redis/realtime/implementation.go:252-290 | writes the encoded Closed record, adds `now` to requests, successes and consecutive successes, empties consecutive failures; failures and the half-open set are unchanged |
| Accounting.Store.RegisterFailure | redis/realtime/implementation.go:295-326 | adds `now` to requests, failures and consecutive failures, empties consecutive successes; the state value, successes and the half-open set are unchanged |
| Accounting.Store.Clear | redis/realtime/implementation.go:226-239 | deletes the state value and the five window sets and keeps the half-open set |
| Accounting.Store.GetInformation | redis/realtime/implementation.go:149-224 | prunes the store, then returns the decoded record with the counts of the pruned sets, or the decode error |
| Protocol.Transaction | redis/realtime/implementation.go:362-392 | the transaction commits if and only if the value seen decodes, the key is absent or passes the conflict guard, and no write lands between WATCH and EXEC; a commit carries the decoded record, a decode error aborts with that error, any other abort is `TxFailed`, and no abort carries `CircuitBreakerOpen` |
| Protocol.QuietNoConflict | redis/realtime/implementation.go:362-392 | with no other process, a transaction on a record whose phase is the expected one cannot abort with `TxFailed` |
| Protocol.Decide | redis/realtime/implementation.go:481-506 | run the action exactly on Closed and not ready to trip; trip exactly on Closed and ready; try HalfOpen exactly on Open whose period has ended (`TimeOpen - now <= 0`); reject exactly on Open before that, or on any other phase |
| Protocol.OpenSpec | redis/realtime/implementation.go:350-400 | only the state value changes and one script entry is consumed; retry exactly on `TxFailed`; `CircuitBreakerOpen` exactly when the transaction commits; an abort returns the transaction's error and notifies nothing |
| Protocol.HalfOpenSpec | redis/realtime/implementation.go:402-469 | the action runs at most once, a value is returned exactly when it ran, and that value is the action's; a retry only follows a failed trial, with no error; when the transaction aborts nothing runs, the abort's error is returned without a retry and only the other process's write lands; when it commits the action runs once |
| Protocol.TrialSpec | redis/realtime/implementation.go:452-468 | the action runs exactly once and its value is returned; after a failed trial the call retries exactly when the reopen returns `TxFailed` (its conflict guard fires or its EXEC aborts), and then returns no error and removes the trial marker from the reopen's store, changing nothing else; a reopen that ends otherwise returns its error and keeps the reopen's world; a successful trial returns the action's error without a retry, clears the store and notifies `HalfOpen→Closed` |
| Protocol.DispatchSpec | redis/realtime/implementation.go:481-506 | the action runs at most once, a value is returned exactly when it ran, that value is the action's, and a retry comes with no error or `TxFailed`; Closed runs return the action's error and never retry; a rejection changes nothing and returns `CircuitBreakerOpen`; a trip runs nothing, takes `setToOpen`'s world and error, and retries exactly when that error is `TxFailed` |
| Protocol.PassSpec | redis/realtime/implementation.go:473-508 | the same four promises for a whole pass; a read that fails returns its error on the pruned world without running the action or retrying |
| Protocol.PassIsDispatch | redis/realtime/implementation.go:473-480 | a pass whose read succeeds is the branch part run on the pruned world with the record and counts read |
| Protocol.HalfOpenIsTrial | redis/realtime/implementation.go:448-452 | a half-open transaction that commits hands over to the trial run in the world where the HalfOpen record and the trial marker are written and `→HalfOpen` is notified |
| Protocol.OpenProgress | redis/realtime/implementation.go:350-400 | when the stored record decodes to the expected phase (or does not decode at all), `setToOpen` never adds interference, asks to retry only after consuming some, and on a script of `Quiet` entries never retries and leaves the script so |
| Protocol.HalfOpenProgress | redis/realtime/implementation.go:402-469 | `setToHalfOpen` never adds interference, asks to retry only after consuming some, and never retries on a script of `Quiet` entries |
| Protocol.DispatchProgress | redis/realtime/implementation.go:481-506 | for a record read from the store, the branch part of a pass never adds interference, asks to retry only after consuming some, and never retries on a script of `Quiet` entries |
| Protocol.PassProgress | redis/realtime/implementation.go:473-508 | a pass runs the action at most once, never adds interference, asks to retry only after it has shortened the script, and never retries on a script of `Quiet` entries |
| Protocol.ProtectSpec | redis/realtime/implementation.go:510-518 | the final outcome never asks to retry |
| Protocol.Env.OnStateChange | redis/realtime/implementation.go:385 | appends one `(from, to)` notification and changes nothing else |
| Protocol.Action.Invoke | redis/realtime/implementation.go:337 | returns the action's value and error and counts one invocation |
| Protocol.WatchState | redis/realtime/implementation.go:362-392 | the transaction's decision is `Transaction` on the value seen, and the state value is left as the other process wrote it |
| Protocol.SetToOpen | redis/realtime/implementation.go:350-400 | the new store, notification log, error and retry flag are those of the specification function `OpenSpec` |
| Protocol.SetToHalfOpen | redis/realtime/implementation.go:402-469 | the new store, log, value, error, retry flag and invocation count are those of `HalfOpenSpec` |
| Protocol.Trial | redis/realtime/implementation.go:452-468 | the new store, log, value, error, retry flag and invocation count are those of `TrialSpec` |
| Protocol.RunClosed | redis/realtime/implementation.go:336-345 | runs the action once, returns its value and error unchanged, and records a failure when the error is non-nil and not judged successful, a success otherwise |
| Protocol.Dispatch | redis/realtime/implementation.go:481-506 | the new store, log, value, error, retry flag and invocation count are those of `DispatchSpec` |
| Protocol.ProtectInternal | redis/realtime/implementation.go:473-508 | reads the pruned record and counts, returns the read error without running the action, and otherwise hands over to `Dispatch`; the new store, log, value, error, retry flag and invocation count are those of one pass (`PassSpec`) |
| Protocol.Protect | redis/realtime/implementation.go:510-518 | the loop's result is that of `ProtectSpec`, which repeats passes exactly while a pass asks to retry |
| Properties.TransitionsKeepWindows | redis/realtime/implementation.go:350-469 | `setToOpen` leaves the five window sets alone; `setToHalfOpen` leaves them alone or clears them all |
| Properties.PassWindows | redis/realtime/implementation.go:473-508 | after a pass the window sets are the pruned ones, with one success or one failure recorded, or all cleared |
| Properties.PassWindowsIdle | redis/realtime/implementation.go:473-506 | a pass whose read fails or that rejects leaves the pruned window sets as they are |
| Properties.PassWindowsRun | redis/realtime/implementation.go:481-486 | a pass that runs the action on Closed leaves the pruned window sets with one failure or one success recorded |
| Properties.PassWindowsTrip | redis/realtime/implementation.go:487-494 | a pass that trips the breaker leaves the pruned window sets as they are |
| Properties.PassWindowsTrial | redis/realtime/implementation.go:495-500 | a pass that tries HalfOpen leaves the pruned window sets as they are or clears them all |
| Properties.PassKeepsShape | redis/realtime/implementation.go:473-508 | every pass keeps the window invariant |
| Properties.ProtectKeepsShape | redis/realtime/implementation.go:510-518 | `protect` keeps the window invariant however many passes it takes |
| Properties.ClosedRuns | redis/realtime/implementation.go:481-486 | Closed (or absent) and not ready to trip: the action runs once, its value and error are returned unchanged, the outcome is recorded, no notification fires and the breaker stays Closed |
| Properties.NeverTrips | redis/realtime/implementation.go:481-486 | with a trip predicate that never fires, a Closed breaker stays Closed and runs each call's action exactly once |
| Properties.TripsWhenReady | redis/realtime/implementation.go:487-494 | Closed and ready to trip, with no other process: the record becomes Open until `now + OpenTimeout`, `Closed→Open` is notified once, the window sets are unchanged and the call gets `CircuitBreakerOpen` without running the action |
| Properties.RejectsWhileOpen | redis/realtime/implementation.go:495-506 | Open before the end of its period, or HalfOpen: the call gets `CircuitBreakerOpen`, the action does not run and only pruning happens |
| Properties.ExpiredOpenTriesHalfOpen | redis/realtime/implementation.go:495-500 | whenever the stored record is Open and its period has ended, the pass is exactly `setToHalfOpen` on the pruned world from that record |
| Properties.ReadyClosedTrips | redis/realtime/implementation.go:481-494 | whenever the stored record is Closed (or absent) and the trip predicate fires on the pruned counts, the pass is exactly `setToOpen` on the pruned world from that record, with its error and retry flag and no action run, under any interference |
| Properties.CalmRunsOnePass | redis/realtime/implementation.go:510-518 | on a script of `Quiet` entries only, `protect` is exactly one pass |
| Properties.MalformedIsError | redis/realtime/implementation.go:475-478 | a stored record that does not decode makes the call return the decode error without running the action or retrying |
| Properties.OpenOutcomes | redis/realtime/implementation.go:350-400 | only the state value can change; retry exactly on `TxFailed`; on commit the Open record until `now + OpenTimeout` is stored and exactly one notification, from the phase the transaction read to Open, is appended; otherwise this caller writes nothing and notifies nothing |
| Properties.OnlyWinnerRuns | redis/realtime/implementation.go:448-452 | the action runs exactly when the half-open transaction commits; a loser returns the transaction's error with retry = false |
| Properties.HalfOpenLoserStops | redis/realtime/implementation.go:448-451 | a caller whose half-open EXEC aborts gets `TxFailed` from `protect`, without running the action and without a retry |
| Properties.TrialSuccessResets | redis/realtime/implementation.go:465-468 | a successful trial deletes the state value and every window set, keeps the trial marker, notifies `Open→HalfOpen` and `HalfOpen→Closed`, and returns the action's value and error |
| Properties.TrialFailureReopens | redis/realtime/implementation.go:453-458 | a failed trial reopens the breaker until `now + OpenTimeout`, returns `CircuitBreakerOpen`, keeps the trial marker, and notifies `Open→HalfOpen` and `HalfOpen→Open` |
| Properties.TrialCanRunTwice | redis/realtime/implementation.go:453-463 | when another writer aborts a failed trial's reopen, the retry lets `protect` run the action a second time |
| Properties.ConflictGuardIsNarrow | redis/realtime/implementation.go:375 | the guard only fires on records that differ, but a record differing in phase alone or in time alone commits |
| Properties.DemoFirstFailure | redis/realtime/example/main.go:45-50 | the driver's first call, on an empty store, runs the action once, returns `error 1` and records exactly one failure |
| Properties.DemoSecondFailure | redis/realtime/example/main.go:51-56 | the second call runs the action once, returns `error 2` and leaves exactly the two failures on record, Closed, with no notification |
| Properties.DemoFirstFailures | redis/realtime/example/main.go:19-56 | after the driver's first two calls the breaker is Closed, no notification has fired, and the trip predicate fires on the window a nanosecond later |
| Properties.DemoTrips | redis/realtime/example/main.go:19-63 | with the driver's settings, two failures are recorded and the third call trips the breaker and is rejected |
| Properties.DemoClosedCall | redis/realtime/example/main.go:78-97 | on a Closed breaker with at most one failure on record, a driver call runs the action once, returns its error, fires no notification, stays Closed, and adds at most its own failure |
| Properties.DemoRunsClosed | redis/realtime/example/main.go:78-97 | from a Closed breaker with no failure on record, the driver's last three calls return success, `error 6` and `error 7`, each running the action once, with no notification |
| Properties.DemoRecovers | redis/realtime/example/main.go:65-99 | after the open period a successful trial closes the breaker with zero counts, and the next three calls return success, `error 6` and `error 7`, each running the action once |
| Properties.DemoScenario | redis/realtime/example/main.go:19-99 | the driver's seven calls give, in order: error 1, error 2, breaker open, success with zeroed counts, success, error 6, error 7 |

## Left out

- TTLs: the `PExpire` calls and the expiry argument of `SET` (implementation.go:265, 280-283, 314-319, 381, 435) are not modelled; keys never expire.
- Pipelines, the `Watch`/`TxPipelined` machinery and network or Redis errors are not modelled. The store commands cannot fail, and the errors of `registerSuccess`, `registerFailure`, `clear` and the trial's `ZRem` are never produced.
- Scores are integer nanoseconds, not `float64(UnixNano())`. Two events at the same nanosecond are one set member.
- Go's zero `time.Time{}` is represented by the integer 0. In Go its `UnixNano()` is undefined, so the Closed record written by `registerSuccess` is not exactly `"closed 0"`. `time.Time` values are compared as integers, not as structs with a location.
- Clock: each `protect` call reads the clock once (`now`); the source reads `time.Now()` separately in `protectInternal`, `runClosed`'s register calls and both transitions.
- Integer overflow of `now + OpenTimeout`, `now - Interval` and `TimeOpen.Sub(now)` (Go's `Duration` saturates) is not modelled; the arithmetic is unbounded. The round-trip lemmas require the times involved to be int64.
- The `uuid` of `getInformation` and the `String()` formatting of `circuitBreakerInfo` are left out.
- `OnStateChange` is a log. Its error is ignored by every caller in the source, so no error is modelled.
- The encode-error branches at implementation.go:357-360 and 409-412 cannot be taken, because both transitions encode a known phase; line 494 is unreachable because `setToOpen` never returns a nil error. The model has no counterpart for them.
- Go compares `time.Time` values with `!=` as structs, and the model compares times as integers. The HalfOpen record built at implementation.go:405-408, which a failed trial hands to `setToOpen` as the expected record (implementation.go:454), carries a monotonic clock reading, which no decoded time has. On that path Go's guard at implementation.go:375 is therefore "present and phase differs", while the model's `Conflicts` still also requires the time to differ. Likewise Go's zero `time.Time{}` never equals a decoded time, while the model's 0 equals a decoded 0.
- Unbounded contention: under an endless run of conflicting writers `protect` never returns. The script of other processes' writes is finite, so the model cannot express that run; every modelled `protect` call terminates.
- Protocol.Action: always answers the same reply, so an action whose later calls answer differently cannot be expressed (for example a second trial in `TrialCanRunTwice` that succeeds where the first failed).
- Other processes act only around the transactions on the state key, and a write to the half-open key appears only as the EXEC abort it causes; its effect on the half-open set itself is not modelled. Writes by other processes to the window sets, and between a pass's read and its register calls, are not modelled.
- Go generics: `empty[A]()` is `None`, and an action's value is `Some(v)`.
- realtime.go's constructor and one-line `Protect` delegate, core.go, gobreaker and noop are not part of this model. `CircuitBreakerSettings` and `Counts` appear as the `Settings` and `Counts` datatypes.
- Real concurrency is not modelled: the model is sequential, and other processes appear only through the interference script.
