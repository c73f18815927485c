/** The transition protocol and the `protect` orchestrator of the Redis
    realtime breaker, over the in-memory store.

    Other processes are represented by a script of `Interference` values held
    by an `Env`: every optimistic transaction on the state key consumes one
    entry (a `Quiet` one once the script is exhausted). `OnStateChange` is
    modelled as an append to the `Env`'s notification log, and the protected
    action as an `Action` object that always answers the same `Reply` and
    counts its invocations. */
module Protocol {
  import opened Errors
  import opened Gocircuit
  import opened Codec
  import opened Accounting

  /** `CircuitBreakerSettings`; `OnStateChange` is the `Env` log. */
  datatype Settings = Settings(
    prefix: string,
    redisKeyTimeout: int,
    interval: int,
    openTimeout: int,
    readyToTrip: Counts -> bool,
    isSuccessful: Error -> bool)

  /** What another process does to the state key around one transaction. */
  datatype Interference =
    | Quiet                                      // nothing
    | WriteBeforeWatch(value: Option<string>)    // writes (or deletes) it before this caller's WATCH
    | WriteDuringWatch(value: Option<string>)    // writes it between WATCH and EXEC, so EXEC aborts

  type Transition = (State, State)

  /** Everything the breaker can change: the store, the remaining
      interference and the notifications delivered so far. */
  datatype World = World(store: StoreValue, script: seq<Interference>, notes: seq<Transition>)

  /** The fixed answer of the protected action: a value and an error. */
  datatype Reply<A> = Reply(value: A, err: Option<Error>)

  /** A pass of `protectInternal` (or a whole `protect`): the new world, the
      value (`None` for Go's `empty[A]()`), the error, the retry flag and how
      many times the action ran. */
  datatype Outcome<A> = Outcome(world: World, value: Option<A>, err: Option<Error>, retry: bool, invocations: nat)

  /** The decision a WATCH transaction reaches before (not) committing. */
  datatype TxOutcome = Commit(current: StateStruct) | Abort(err: Error)

  /** The branch `protectInternal` takes on the record and counts it read. */
  datatype Decision = RunAction | TripOpen | TryHalfOpen | Reject

  function Pop(script: seq<Interference>): (Interference, seq<Interference>) {
    if script == [] then (Quiet, []) else (script[0], script[1..])
  }

  /** A script in which no other process ever acts. */
  predicate Calm(script: seq<Interference>) {
    forall k :: 0 <= k < |script| ==> script[k] == Quiet
  }

  /** The value a transaction's GET sees. */
  function Seen(stored: Option<string>, i: Interference): Option<string> {
    if i.WriteBeforeWatch? then i.value else stored
  }

  /** The state value left behind when the transaction does not commit. */
  function Landed(stored: Option<string>, i: Interference): Option<string> {
    if i.Quiet? then stored else i.value
  }

  /** The source's conflict guard: the record read counts as changed only if
      its phase AND its time both differ from the expected ones. */
  predicate Conflicts(current: StateStruct, expected: StateStruct) {
    current.state != expected.state && current.timeOpen != expected.timeOpen
  }

  /** The shared body of the transactions in `setToOpen` and `setToHalfOpen`:
      read the state key, decode it, apply the conflict guard when the key is
      present, then EXEC, which aborts if the key was written after WATCH. */
  function Transaction(stored: Option<string>, expected: StateStruct, i: Interference): (tx: TxOutcome)
    ensures var seen := Seen(stored, i);
      var (current, err) := ReadState(seen);
      && (tx.Commit? <==> err.None? && !(seen.Some? && Conflicts(current, expected)) && !i.WriteDuringWatch?)
      && (tx.Commit? ==> tx.current == current)
      && (err.Some? ==> tx == Abort(err.value))
      && (err.None? && tx.Abort? ==> tx.err == TxFailed)
    ensures tx.Abort? ==> tx.err != CircuitBreakerOpen
  {
    var seen := Seen(stored, i);
    var (current, err) := ReadState(seen);
    if err.Some? then Abort(err.value)
    else if seen.Some? && Conflicts(current, expected) then Abort(TxFailed)
    else if i.WriteDuringWatch? then Abort(TxFailed)
    else Commit(current)
  }

  /** The action's error counts as a failure: non-nil and not judged successful. */
  predicate IsFailure(s: Settings, err: Option<Error>) {
    err.Some? && !s.isSuccessful(err.value)
  }

  /** The branch selection of `protectInternal`. */
  function Decide(record: StateStruct, counts: Counts, s: Settings, now: int): (d: Decision)
    ensures d == RunAction <==> record.state == StateClosed && !s.readyToTrip(counts)
    ensures d == TripOpen <==> record.state == StateClosed && s.readyToTrip(counts)
    ensures d == TryHalfOpen <==> record.state == StateOpen && record.timeOpen <= now
    ensures d == Reject <==>
      (record.state == StateOpen && now < record.timeOpen) || (record.state != StateClosed && record.state != StateOpen)
  {
    if record.state == StateClosed then
      if s.readyToTrip(counts) then TripOpen else RunAction
    else if record.state == StateOpen && record.timeOpen - now <= 0 then TryHalfOpen
    else Reject
  }

  /** `setToOpen` from `expected` at `now`: the new world, the error and the retry flag. */
  function OpenSpec(w: World, s: Settings, now: int, expected: StateStruct): (r: (World, Error, bool))
    ensures var (i, rest) := Pop(w.script);
      var tx := Transaction(w.store.state, expected, i);
      && r.0.store.(state := w.store.state) == w.store
      && r.0.script == rest
      && (r.2 <==> r.1 == TxFailed)
      && (r.1 == CircuitBreakerOpen <==> tx.Commit?)
      && (tx.Abort? ==> r.1 == tx.err && r.0.notes == w.notes)
  {
    var (i, rest) := Pop(w.script);
    var next := StateStruct(StateOpen, now + s.openTimeout);
    match Transaction(w.store.state, expected, i)
    case Commit(current) =>
      (World(w.store.(state := Some(Encode(next))), rest, w.notes + [(current.state, StateOpen)]),
       CircuitBreakerOpen, false)
    case Abort(err) =>
      (World(w.store.(state := Landed(w.store.state, i)), rest, w.notes), err, err == TxFailed)
  }

  /** `setToHalfOpen` from `expected` at `now`, with the action answering `reply`. */
  function HalfOpenSpec<A>(w: World, s: Settings, now: int, expected: StateStruct, reply: Reply<A>): (o: Outcome<A>)
    ensures o.invocations <= 1
    ensures o.value.Some? <==> o.invocations == 1
    ensures o.value.Some? ==> o.value.value == reply.value
    ensures o.retry ==> o.invocations == 1 && IsFailure(s, reply.err) && o.err.None?
    ensures var (i, rest) := Pop(w.script);
      var tx := Transaction(w.store.state, expected, i);
      && (tx.Abort? ==>
            && o.invocations == 0 && !o.retry && o.err == Some(tx.err)
            && o.world == World(w.store.(state := Landed(w.store.state, i)), rest, w.notes))
      && (tx.Commit? ==> o.invocations == 1)
  {
    var (i, rest) := Pop(w.script);
    var next := StateStruct(StateHalfOpen, now + s.openTimeout);
    match Transaction(w.store.state, expected, i)
    case Abort(err) =>
      Outcome(World(w.store.(state := Landed(w.store.state, i)), rest, w.notes), None, Some(err), false, 0)
    case Commit(current) =>
      var trial := World(w.store.(state := Some(Encode(next)), half := w.store.half + {now}),
                         rest, w.notes + [(current.state, StateHalfOpen)]);
      TrialSpec(trial, s, now, next, reply)
  }

  /** The trial run of `setToHalfOpen` once its transaction has committed
      `next` in world `w`: run the action, then reopen or close. */
  function TrialSpec<A>(w: World, s: Settings, now: int, next: StateStruct, reply: Reply<A>): (o: Outcome<A>)
    ensures o.invocations == 1 && o.value == Some(reply.value)
    ensures o.retry ==> IsFailure(s, reply.err) && o.err.None?
    ensures !IsFailure(s, reply.err) ==> o.err == reply.err && !o.retry
    ensures var (reopened, openErr, _) := OpenSpec(w, s, now, next);
      IsFailure(s, reply.err) ==>
        && (o.retry <==> openErr == TxFailed)
        && (openErr == TxFailed ==>
              && o.err.None? && o.world.store.half == reopened.store.half - {now}
              && o.world.store.(half := reopened.store.half) == reopened.store
              && o.world.script == reopened.script && o.world.notes == reopened.notes)
        && (openErr != TxFailed ==> o.err == Some(openErr) && o.world == reopened)
    ensures !IsFailure(s, reply.err) ==>
      && o.world.store == Cleared(w.store) && o.world.script == w.script
      && o.world.notes == w.notes + [(next.state, StateClosed)]
  {
    if IsFailure(s, reply.err) then
      var (reopened, openErr, openRetry) := OpenSpec(w, s, now, next);
      if openErr != TxFailed then
        Outcome(reopened, Some(reply.value), Some(openErr), false, 1)
      else
        Outcome(reopened.(store := reopened.store.(half := reopened.store.half - {now})),
                Some(reply.value), None, openRetry, 1)
    else
      Outcome(World(Cleared(w.store), w.script, w.notes + [(next.state, StateClosed)]),
              Some(reply.value), reply.err, false, 1)
  }

  /** A half-open transaction that commits hands over to the trial run, in
      the world where the HalfOpen record and the trial marker are written and
      the transition is notified. */
  lemma HalfOpenIsTrial<A>(w: World, s: Settings, now: int, expected: StateStruct, reply: Reply<A>)
    requires Transaction(w.store.state, expected, Pop(w.script).0).Commit?
    ensures var (i, rest) := Pop(w.script);
      var next := StateStruct(StateHalfOpen, now + s.openTimeout);
      var current := Transaction(w.store.state, expected, i).current;
      HalfOpenSpec(w, s, now, expected, reply) ==
        TrialSpec(World(w.store.(state := Some(Encode(next)), half := w.store.half + {now}),
                        rest, w.notes + [(current.state, StateHalfOpen)]), s, now, next, reply)
  {
  }

  /** The branch part of `protectInternal`: what it does with the record and
      counts it read from the pruned world `w`. */
  function DispatchSpec<A>(w: World, s: Settings, now: int, info: Info, reply: Reply<A>): (o: Outcome<A>)
    ensures o.invocations <= 1
    ensures o.value.Some? <==> o.invocations == 1
    ensures o.value.Some? ==> o.value.value == reply.value
    ensures o.retry ==> o.err == None || o.err == Some(TxFailed)
    ensures var d := Decide(info.record, info.counts, s, now);
      && (d == RunAction ==> o.invocations == 1 && o.err == reply.err && !o.retry && o.world.script == w.script)
      && (d == Reject ==> o == Outcome(w, None, Some(CircuitBreakerOpen), false, 0))
      && (d == TripOpen ==>
            var (tripped, err, retry) := OpenSpec(w, s, now, info.record);
            && o.invocations == 0 && o.world == tripped && o.err == Some(err)
            && (o.retry <==> err == TxFailed))
  {
    match Decide(info.record, info.counts, s, now)
    case RunAction =>
      var store := if IsFailure(s, reply.err) then Failed(w.store, now) else Succeeded(w.store, now);
      Outcome(w.(store := store), Some(reply.value), reply.err, false, 1)
    case TripOpen =>
      var (tripped, err, retry) := OpenSpec(w, s, now, info.record);
      Outcome(tripped, None, Some(err), retry, 0)
    case TryHalfOpen => HalfOpenSpec(w, s, now, info.record, reply)
    case Reject => Outcome(w, None, Some(CircuitBreakerOpen), false, 0)
  }

  /** One pass of `protectInternal` at `now`. */
  function PassSpec<A>(w: World, s: Settings, now: int, reply: Reply<A>): (o: Outcome<A>)
    ensures o.invocations <= 1
    ensures o.value.Some? <==> o.invocations == 1
    ensures o.value.Some? ==> o.value.value == reply.value
    ensures o.retry ==> o.err == None || o.err == Some(TxFailed)
    ensures var p := Pruned(w.store, now - s.interval);
      ReadInfo(p).Err? ==> o == Outcome(w.(store := p), None, Some(ReadInfo(p).error), false, 0)
  {
    var pruned := w.(store := Pruned(w.store, now - s.interval));
    match ReadInfo(pruned.store)
    case Err(err) => Outcome(pruned, None, Some(err), false, 0)
    case Ok(info) => DispatchSpec(pruned, s, now, info, reply)
  }

  /** A pass whose read succeeds is the branch part on the pruned world. */
  lemma PassIsDispatch<A>(w: World, s: Settings, now: int, reply: Reply<A>)
    requires ReadInfo(Pruned(w.store, now - s.interval)).Ok?
    ensures var p := Pruned(w.store, now - s.interval);
      PassSpec(w, s, now, reply) == DispatchSpec(w.(store := p), s, now, ReadInfo(p).value, reply)
  {
    var p := Pruned(w.store, now - s.interval);
    assert ReadInfo(w.(store := p).store) == Ok(ReadInfo(p).value);
  }

  /** A transaction that meets no interference cannot fail with `TxFailed`
      on a record that decodes to a known phase equal to the expected one's. */
  lemma QuietNoConflict(stored: Option<string>, expected: StateStruct)
    requires ReadState(stored).1.None? ==> ReadState(stored).0.state == expected.state
    ensures Transaction(stored, expected, Quiet) != Abort(TxFailed)
  {
  }

  /** `setToOpen` consumes one script entry, and when the stored record
      agrees with the expected phase it asks to retry only if that entry was
      interference. */
  lemma OpenProgress(w: World, s: Settings, now: int, expected: StateStruct)
    requires ReadState(w.store.state).1.None? ==> ReadState(w.store.state).0.state == expected.state
    ensures var r := OpenSpec(w, s, now, expected);
      && |r.0.script| <= |w.script|
      && (r.2 ==> |r.0.script| < |w.script|)
      && (Calm(w.script) ==> Calm(r.0.script) && !r.2)
  {
    var (i, rest) := Pop(w.script);
    assert |rest| <= |w.script| && (i != Quiet ==> |rest| < |w.script|);
    QuietNoConflict(w.store.state, expected);
  }

  /** `setToHalfOpen` never adds interference, and asks to retry only after
      it has consumed some. */
  lemma HalfOpenProgress<A>(w: World, s: Settings, now: int, expected: StateStruct, reply: Reply<A>)
    ensures var o := HalfOpenSpec(w, s, now, expected, reply);
      && |o.world.script| <= |w.script|
      && (o.retry ==> |o.world.script| < |w.script|)
      && (Calm(w.script) ==> Calm(o.world.script) && !o.retry)
  {
    var (i, rest) := Pop(w.script);
    assert |rest| <= |w.script|;
    var next := StateStruct(StateHalfOpen, now + s.openTimeout);
    match Transaction(w.store.state, expected, i)
    case Abort(err) =>
    case Commit(current) =>
      var trial := World(w.store.(state := Some(Encode(next)), half := w.store.half + {now}),
                         rest, w.notes + [(current.state, StateHalfOpen)]);
      DecodeEncoded(next);
      OpenProgress(trial, s, now, next);
  }

  /** The branch part of a pass never adds interference, and asks to retry
      only after it has consumed some. */
  lemma DispatchProgress<A>(w: World, s: Settings, now: int, info: Info, reply: Reply<A>)
    requires ReadState(w.store.state).1.None? ==> ReadState(w.store.state).0.state == info.record.state
    ensures var o := DispatchSpec(w, s, now, info, reply);
      && |o.world.script| <= |w.script|
      && (o.retry ==> |o.world.script| < |w.script|)
      && (Calm(w.script) ==> Calm(o.world.script) && !o.retry)
  {
    match Decide(info.record, info.counts, s, now)
    case RunAction =>
    case Reject =>
    case TripOpen => OpenProgress(w, s, now, info.record);
    case TryHalfOpen => HalfOpenProgress(w, s, now, info.record, reply);
  }

  /** A pass never adds interference, and a pass that asks to retry has
      consumed some: without other processes nothing is ever retried. */
  lemma {:induction false} PassProgress<A>(w: World, s: Settings, now: int, reply: Reply<A>)
    ensures var o := PassSpec(w, s, now, reply);
      && |o.world.script| <= |w.script|
      && (o.retry ==> |o.world.script| < |w.script|)
      && (Calm(w.script) ==> Calm(o.world.script) && !o.retry)
      && o.invocations <= 1
  {
    var p := Pruned(w.store, now - s.interval);
    match ReadInfo(p)
    case Err(err) =>
    case Ok(info) =>
      PassIsDispatch(w, s, now, reply);
      DispatchProgress(w.(store := p), s, now, info, reply);
  }

  /** `protect`: passes repeat while a pass asks to retry. */
  function ProtectSpec<A>(w: World, s: Settings, now: int, reply: Reply<A>): (o: Outcome<A>)
    ensures !o.retry
    ensures |o.world.script| <= |w.script|
    decreases |w.script|
  {
    var first := PassSpec(w, s, now, reply);
    PassProgress(w, s, now, reply);
    if first.retry then
      var later := ProtectSpec(first.world, s, now, reply);
      later.(invocations := first.invocations + later.invocations)
    else first
  }

  /** The other processes and the state-change callback. */
  class Env {
    var script: seq<Interference>
    var notes: seq<Transition>

    constructor (script: seq<Interference>)
      ensures this.script == script && notes == []
    {
      this.script := script;
      notes := [];
    }

    /** What other processes do around the next transaction. */
    method Next() returns (i: Interference)
      modifies this
      ensures (i, script) == Pop(old(script)) && notes == old(notes)
    {
      if script == [] {
        i := Quiet;
      } else {
        i, script := script[0], script[1..];
      }
    }

    /** `settings.OnStateChange(from, to)`; its error is ignored by every caller. */
    method OnStateChange(from: State, to: State)
      modifies this
      ensures notes == old(notes) + [(from, to)] && script == old(script)
    {
      notes := notes + [(from, to)];
    }
  }

  /** The protected action. */
  class Action<A> {
    const reply: Reply<A>
    var calls: nat

    constructor (reply: Reply<A>)
      ensures this.reply == reply && calls == 0
    {
      this.reply := reply;
      calls := 0;
    }

    method Invoke() returns (value: A, err: Option<Error>)
      modifies this
      ensures calls == old(calls) + 1
      ensures value == reply.value && err == reply.err
    {
      calls := calls + 1;
      value, err := reply.value, reply.err;
    }
  }

  function WorldOf(store: Store, env: Env): World
    reads store, env
  {
    World(store.Value(), env.script, env.notes)
  }

  /** `client.Watch(ctx, txf, stateKey)` up to EXEC: the decision of the
      transaction body, with other processes' writes applied to the store. */
  method WatchState(store: Store, env: Env, expected: StateStruct) returns (tx: TxOutcome)
    modifies store, env
    ensures var (i, rest) := Pop(old(env.script));
      && tx == Transaction(old(store.state), expected, i)
      && store.Value() == old(store.Value()).(state := Landed(old(store.state), i))
      && env.script == rest && env.notes == old(env.notes)
  {
    var i := env.Next();
    if i.WriteBeforeWatch? {
      store.state := i.value;
    }
    var stored := store.state;                  // GET state inside the transaction
    var (current, err) := ReadState(stored);
    if err.Some? {
      tx := Abort(err.value);
    } else if stored.Some? && Conflicts(current, expected) {
      tx := Abort(TxFailed);                    // reported as an aborted EXEC would be
    } else {
      tx := Commit(current);
    }
    if i.WriteDuringWatch? {
      store.state := i.value;
      if tx.Commit? {
        tx := Abort(TxFailed);                  // EXEC sees the watched key changed
      }
    }
  }

  /** `setToOpen`. */
  method SetToOpen(store: Store, env: Env, s: Settings, now: int, expected: StateStruct)
    returns (err: Error, retry: bool)
    modifies store, env
    ensures (WorldOf(store, env), err, retry) == OpenSpec(old(WorldOf(store, env)), s, now, expected)
  {
    var next := StateStruct(StateOpen, now + s.openTimeout);
    var text := StateStructToString(next).0;
    var tx := WatchState(store, env, expected);
    if tx.Commit? {
      store.state := Some(text);                // MULTI; SET state; EXEC
      env.OnStateChange(tx.current.state, next.state);
      err, retry := CircuitBreakerOpen, false;
    } else {
      err, retry := tx.err, tx.err == TxFailed;
    }
  }

  /** `setToHalfOpen`. */
  method SetToHalfOpen<A>(store: Store, env: Env, action: Action<A>, s: Settings, now: int, expected: StateStruct)
    returns (value: Option<A>, err: Option<Error>, retry: bool)
    modifies store, env, action
    ensures var o := HalfOpenSpec(old(WorldOf(store, env)), s, now, expected, action.reply);
      && WorldOf(store, env) == o.world && value == o.value && err == o.err && retry == o.retry
      && action.calls == old(action.calls) + o.invocations
  {
    var next := StateStruct(StateHalfOpen, now + s.openTimeout);
    var text := StateStructToString(next).0;
    var tx := WatchState(store, env, expected);
    if tx.Abort? {
      return None, Some(tx.err), false;         // the loser does not retry
    }
    store.state := Some(text);                  // MULTI; SET state;
    store.half := store.half + {now};           //   ZADD half; EXEC
    env.OnStateChange(tx.current.state, next.state);
    value, err, retry := Trial(store, env, action, s, now, next);
  }

  /** The trial run of `setToHalfOpen`, after its transaction committed `next`. */
  method Trial<A>(store: Store, env: Env, action: Action<A>, s: Settings, now: int, next: StateStruct)
    returns (value: Option<A>, err: Option<Error>, retry: bool)
    modifies store, env, action
    ensures var o := TrialSpec(old(WorldOf(store, env)), s, now, next, action.reply);
      && WorldOf(store, env) == o.world && value == o.value && err == o.err && retry == o.retry
      && action.calls == old(action.calls) + o.invocations
  {
    var v, e := action.Invoke();
    if e.Some? && !s.isSuccessful(e.value) {
      var openErr, openRetry := SetToOpen(store, env, s, now, next);
      if openErr != TxFailed {
        return Some(v), Some(openErr), false;   // the trial marker stays
      }
      store.half := store.half - {now};         // ZREM half
      return Some(v), None, openRetry;
    }
    store.Clear();
    env.OnStateChange(next.state, StateClosed);
    return Some(v), e, false;
  }

  /** `runClosed`. */
  method RunClosed<A>(store: Store, action: Action<A>, s: Settings, now: int) returns (value: A, err: Option<Error>)
    modifies store, action
    ensures value == action.reply.value && err == action.reply.err
    ensures action.calls == old(action.calls) + 1
    ensures store.Value() == if IsFailure(s, err) then Failed(old(store.Value()), now) else Succeeded(old(store.Value()), now)
  {
    value, err := action.Invoke();
    if err.Some? && !s.isSuccessful(err.value) {
      store.RegisterFailure(now);
    } else {
      store.RegisterSuccess(now);
    }
  }

  /** The branch part of `protectInternal`, on the record and counts just read. */
  method Dispatch<A>(store: Store, env: Env, action: Action<A>, s: Settings, now: int, info: Info)
    returns (value: Option<A>, err: Option<Error>, retry: bool)
    modifies store, env, action
    ensures var o := DispatchSpec(old(WorldOf(store, env)), s, now, info, action.reply);
      && WorldOf(store, env) == o.world && value == o.value && err == o.err && retry == o.retry
      && action.calls == old(action.calls) + o.invocations
  {
    match Decide(info.record, info.counts, s, now)
    case RunAction =>
      var v, e := RunClosed(store, action, s, now);
      return Some(v), e, false;
    case TripOpen =>
      var openErr, openRetry := SetToOpen(store, env, s, now, info.record);
      return None, Some(openErr), openRetry;
    case TryHalfOpen =>
      value, err, retry := SetToHalfOpen(store, env, action, s, now, info.record);
    case Reject =>
      return None, Some(CircuitBreakerOpen), false;
  }

  /** `protectInternal`: read the pruned record and counts, then branch. */
  method ProtectInternal<A>(store: Store, env: Env, action: Action<A>, s: Settings, now: int)
    returns (value: Option<A>, err: Option<Error>, retry: bool)
    modifies store, env, action
    ensures var o := PassSpec(old(WorldOf(store, env)), s, now, action.reply);
      && WorldOf(store, env) == o.world && value == o.value && err == o.err && retry == o.retry
      && action.calls == old(action.calls) + o.invocations
  {
    ghost var w := WorldOf(store, env);
    var info := store.GetInformation(now, s.interval);
    ghost var pruned := WorldOf(store, env);
    assert pruned == w.(store := Pruned(w.store, now - s.interval));
    if info.Err? {
      return None, Some(info.error), false;
    }
    PassIsDispatch(w, s, now, action.reply);
    value, err, retry := Dispatch(store, env, action, s, now, info.value);
  }

  /** `protect`: runs passes until one does not ask to retry. */
  method Protect<A>(store: Store, env: Env, action: Action<A>, s: Settings, now: int)
    returns (value: Option<A>, err: Option<Error>)
    modifies store, env, action
    ensures var o := ProtectSpec(old(WorldOf(store, env)), s, now, action.reply);
      && WorldOf(store, env) == o.world && value == o.value && err == o.err
      && action.calls == old(action.calls) + o.invocations
  {
    ghost var goal := ProtectSpec(WorldOf(store, env), s, now, action.reply);
    ghost var before := action.calls;
    value, err := None, None;
    var loop := true;
    while loop
      invariant loop ==> var rest := ProtectSpec(WorldOf(store, env), s, now, action.reply);
        && rest.world == goal.world && rest.value == goal.value && rest.err == goal.err
        && before + goal.invocations == action.calls + rest.invocations
      invariant !loop ==>
        && WorldOf(store, env) == goal.world && value == goal.value && err == goal.err
        && action.calls == before + goal.invocations
      decreases |env.script|, loop
    {
      ghost var w := WorldOf(store, env);
      PassProgress(w, s, now, action.reply);
      value, err, loop := ProtectInternal(store, env, action, s, now);
    }
  }
}
