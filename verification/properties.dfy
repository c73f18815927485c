/** What the breaker protocol promises, stated over the specification
    functions that the methods of `Protocol` are proved to implement. */
module Properties {
  import opened Errors
  import opened GoStd
  import opened Gocircuit
  import opened Codec
  import opened Accounting
  import opened Protocol

  /** The stored record decodes to `record` (an absent key decodes to the Closed zero record). */
  predicate Holds(w: World, record: StateStruct) {
    ReadState(w.store.state) == (record, None)
  }

  predicate IsClosed(w: World) {
    ReadState(w.store.state).1.None? && ReadState(w.store.state).0.state == StateClosed
  }

  function Window(w: World, s: Settings, now: int): StoreValue {
    Pruned(w.store, now - s.interval)
  }

  /** The five window sets of two store values agree. */
  predicate SameWindows(a: StoreValue, b: StoreValue) {
    a.req == b.req && a.succ == b.succ && a.fail == b.fail && a.consucc == b.consucc && a.confail == b.confail
  }

  /** The transitions touch only the state value and the half-open set,
      apart from the full reset of a successful trial. */
  lemma {:induction false} TransitionsKeepWindows<A>(w: World, s: Settings, now: int, expected: StateStruct, reply: Reply<A>)
    ensures SameWindows(OpenSpec(w, s, now, expected).0.store, w.store)
    ensures var o := HalfOpenSpec(w, s, now, expected, reply);
      SameWindows(o.world.store, w.store) || SameWindows(o.world.store, Cleared(w.store))
  {
  }

  lemma ShapeFollowsWindows(a: StoreValue, b: StoreValue)
    requires SameWindows(a, b) && WellFormed(b)
    ensures WellFormed(a)
  {
  }

  /** A pass that reads no record, or rejects, changes only what pruning changes. */
  lemma {:induction false} PassWindowsIdle<A>(w: World, s: Settings, now: int, reply: Reply<A>)
    requires var p := Window(w, s, now);
      ReadInfo(p).Err? || Decide(ReadInfo(p).value.record, ReadInfo(p).value.counts, s, now) == Reject
    ensures SameWindows(PassSpec(w, s, now, reply).world.store, Window(w, s, now))
  {
  }

  /** A pass that runs the action records exactly one success or one failure. */
  lemma {:induction false} PassWindowsRun<A>(w: World, s: Settings, now: int, reply: Reply<A>)
    requires var p := Window(w, s, now);
      ReadInfo(p).Ok? && Decide(ReadInfo(p).value.record, ReadInfo(p).value.counts, s, now) == RunAction
    ensures var p, o := Window(w, s, now), PassSpec(w, s, now, reply);
      SameWindows(o.world.store, Failed(p, now)) || SameWindows(o.world.store, Succeeded(p, now))
  {
  }

  /** A pass that trips the breaker leaves the pruned window sets alone. */
  lemma {:induction false} PassWindowsTrip<A>(w: World, s: Settings, now: int, reply: Reply<A>)
    requires var p := Window(w, s, now);
      ReadInfo(p).Ok? && Decide(ReadInfo(p).value.record, ReadInfo(p).value.counts, s, now) == TripOpen
    ensures SameWindows(PassSpec(w, s, now, reply).world.store, Window(w, s, now))
  {
    var p := Window(w, s, now);
    TransitionsKeepWindows(w.(store := p), s, now, ReadInfo(p).value.record, reply);
  }

  /** A pass that tries HalfOpen leaves the pruned window sets alone or clears them. */
  lemma {:induction false} PassWindowsTrial<A>(w: World, s: Settings, now: int, reply: Reply<A>)
    requires var p := Window(w, s, now);
      ReadInfo(p).Ok? && Decide(ReadInfo(p).value.record, ReadInfo(p).value.counts, s, now) == TryHalfOpen
    ensures var p, o := Window(w, s, now), PassSpec(w, s, now, reply);
      SameWindows(o.world.store, p) || SameWindows(o.world.store, Cleared(p))
  {
    var p := Window(w, s, now);
    TransitionsKeepWindows(w.(store := p), s, now, ReadInfo(p).value.record, reply);
  }

  /** After a pass, the window sets are those of the pruned store, possibly
      with one success or failure recorded, or all cleared. */
  lemma {:induction false} PassWindows<A>(w: World, s: Settings, now: int, reply: Reply<A>)
    ensures var p, o := Window(w, s, now), PassSpec(w, s, now, reply);
      || SameWindows(o.world.store, p)
      || SameWindows(o.world.store, Failed(p, now))
      || SameWindows(o.world.store, Succeeded(p, now))
      || SameWindows(o.world.store, Cleared(p))
  {
    var p := Window(w, s, now);
    if ReadInfo(p).Err? {
      PassWindowsIdle(w, s, now, reply);
    } else {
      var info := ReadInfo(p).value;
      match Decide(info.record, info.counts, s, now)
      case RunAction => PassWindowsRun(w, s, now, reply);
      case TripOpen => PassWindowsTrip(w, s, now, reply);
      case TryHalfOpen => PassWindowsTrial(w, s, now, reply);
      case Reject => PassWindowsIdle(w, s, now, reply);
    }
  }

  /** Every pass keeps the shape of the window sets. */
  lemma {:induction false} PassKeepsShape<A>(w: World, s: Settings, now: int, reply: Reply<A>)
    requires WellFormed(w.store)
    ensures WellFormed(PassSpec(w, s, now, reply).world.store)
  {
    var p := Window(w, s, now);
    var after := PassSpec(w, s, now, reply).world.store;
    PrunedKeepsShape(w.store, now - s.interval);
    RegisterKeepsShape(p, now);
    PassWindows(w, s, now, reply);
    if SameWindows(after, p) {
      ShapeFollowsWindows(after, p);
    } else if SameWindows(after, Failed(p, now)) {
      ShapeFollowsWindows(after, Failed(p, now));
    } else if SameWindows(after, Succeeded(p, now)) {
      ShapeFollowsWindows(after, Succeeded(p, now));
    } else {
      ShapeFollowsWindows(after, Cleared(p));
    }
  }

  /** `protect` keeps the shape of the window sets, however many passes it takes. */
  lemma {:induction false} ProtectKeepsShape<A>(w: World, s: Settings, now: int, reply: Reply<A>)
    requires WellFormed(w.store)
    ensures WellFormed(ProtectSpec(w, s, now, reply).world.store)
    decreases |w.script|
  {
    PassKeepsShape(w, s, now, reply);
    var first := PassSpec(w, s, now, reply);
    PassProgress(w, s, now, reply);
    if first.retry {
      ProtectKeepsShape(first.world, s, now, reply);
    }
  }

  /** Closed and not ready to trip: the action runs once, its value and error
      are returned unchanged, and the outcome is recorded. An absent record
      counts as Closed (see `ReadState`). */
  lemma {:induction false} ClosedRuns<A>(w: World, s: Settings, now: int, reply: Reply<A>)
    requires IsClosed(w)
    requires !s.readyToTrip(CountsOf(Window(w, s, now)))
    ensures var o := ProtectSpec(w, s, now, reply);
      && o.invocations == 1 && o.value == Some(reply.value) && o.err == reply.err
      && o.world.store == (if IsFailure(s, reply.err) then Failed(Window(w, s, now), now)
                           else Succeeded(Window(w, s, now), now))
      && o.world.script == w.script && o.world.notes == w.notes
      && IsClosed(o.world)
  {
    RoundTrip(ClosedZero);
  }

  /** A breaker whose trip predicate never fires stays Closed and runs every
      call's action exactly once. */
  lemma {:induction false} NeverTrips<A>(w: World, s: Settings, now: int, reply: Reply<A>)
    requires IsClosed(w)
    requires forall c :: !s.readyToTrip(c)
    ensures var o := ProtectSpec(w, s, now, reply);
      o.invocations == 1 && o.err == reply.err && o.world.notes == w.notes && IsClosed(o.world)
  {
    ClosedRuns(w, s, now, reply);
  }

  /** Closed and ready to trip, with no other process: an Open record ending
      at `now + OpenTimeout` is written, `OnStateChange(Closed, Open)` fires
      once, and the call is rejected without running the action. */
  lemma {:induction false} TripsWhenReady<A>(w: World, s: Settings, now: int, reply: Reply<A>)
    requires IsClosed(w) && w.script == []
    requires s.readyToTrip(CountsOf(Window(w, s, now)))
    requires InInt64(now + s.openTimeout)
    ensures var o := ProtectSpec(w, s, now, reply);
      && o.invocations == 0 && o.value == None && o.err == Some(CircuitBreakerOpen)
      && Holds(o.world, StateStruct(StateOpen, now + s.openTimeout))
      && o.world.store == Window(w, s, now).(state := o.world.store.state)
      && o.world.notes == w.notes + [(StateClosed, StateOpen)]
  {
    PassProgress(w, s, now, reply);
    DecodeEncoded(StateStruct(StateOpen, now + s.openTimeout));
  }

  /** Open before the end of its period, or HalfOpen: the call is rejected
      without running the action and without consuming interference. */
  lemma {:induction false} RejectsWhileOpen<A>(w: World, s: Settings, now: int, reply: Reply<A>, record: StateStruct)
    requires Holds(w, record)
    requires (record.state == StateOpen && now < record.timeOpen) || record.state == StateHalfOpen
    ensures ProtectSpec(w, s, now, reply) ==
              Outcome(w.(store := Window(w, s, now)), None, Some(CircuitBreakerOpen), false, 0)
  {
  }

  /** Open with its period over: the pass is `setToHalfOpen` from the
      record read, on the pruned store. */
  lemma {:induction false} ExpiredOpenTriesHalfOpen<A>(w: World, s: Settings, now: int, reply: Reply<A>, record: StateStruct)
    requires Holds(w, record) && record.state == StateOpen && record.timeOpen <= now
    ensures PassSpec(w, s, now, reply) == HalfOpenSpec(w.(store := Window(w, s, now)), s, now, record, reply)
  {
  }

  /** Closed (or absent) and ready to trip: the pass is `setToOpen` from the
      record read, on the pruned store, and never runs the action. */
  lemma {:induction false} ReadyClosedTrips<A>(w: World, s: Settings, now: int, reply: Reply<A>, record: StateStruct)
    requires Holds(w, record) && record.state == StateClosed && s.readyToTrip(CountsOf(Window(w, s, now)))
    ensures var (tripped, err, retry) := OpenSpec(w.(store := Window(w, s, now)), s, now, record);
      PassSpec(w, s, now, reply) == Outcome(tripped, None, Some(err), retry, 0)
  {
  }

  /** Without other processes `protect` never retries: it is one pass. */
  lemma {:induction false} CalmRunsOnePass<A>(w: World, s: Settings, now: int, reply: Reply<A>)
    requires Calm(w.script)
    ensures ProtectSpec(w, s, now, reply) == PassSpec(w, s, now, reply)
  {
    PassProgress(w, s, now, reply);
  }

  /** A malformed stored record is an error: nothing runs, nothing is retried. */
  lemma {:induction false} MalformedIsError<A>(w: World, s: Settings, now: int, reply: Reply<A>)
    requires ReadState(w.store.state).1.Some?
    ensures ProtectSpec(w, s, now, reply) ==
              Outcome(w.(store := Window(w, s, now)), None, ReadState(w.store.state).1, false, 0)
  {
  }

  /** `setToOpen`: only the state value can change; the call retries exactly
      on `TxFailed`; on commit the record written decodes to Open until
      `now + OpenTimeout` and one notification fires; otherwise nothing of
      this caller is written and no notification fires. */
  lemma {:induction false} OpenOutcomes(w: World, s: Settings, now: int, expected: StateStruct)
    requires InInt64(now + s.openTimeout)
    ensures var (w2, err, retry) := OpenSpec(w, s, now, expected);
      && w2.store.(state := w.store.state) == w.store
      && (retry <==> err == TxFailed)
      && (err == CircuitBreakerOpen ==>
            && Holds(w2, StateStruct(StateOpen, now + s.openTimeout))
            && w2.notes == w.notes + [(ReadState(Seen(w.store.state, Pop(w.script).0)).0.state, StateOpen)])
      && (err != CircuitBreakerOpen ==>
            w2.store.state == Landed(w.store.state, Pop(w.script).0) && w2.notes == w.notes)
  {
    DecodeEncoded(StateStruct(StateOpen, now + s.openTimeout));
  }

  /** Only the caller whose half-open transaction commits runs the action;
      a caller whose transaction aborts returns that error and, as written,
      does not retry. */
  lemma {:induction false} OnlyWinnerRuns<A>(w: World, s: Settings, now: int, expected: StateStruct, reply: Reply<A>)
    ensures var o := HalfOpenSpec(w, s, now, expected, reply);
      var tx := Transaction(w.store.state, expected, Pop(w.script).0);
      && (o.invocations == 1 <==> tx.Commit?)
      && (tx.Abort? ==> o.invocations == 0 && o.value == None && o.err == Some(tx.err) && !o.retry)
  {
  }

  /** A half-open loser whose EXEC aborts gets `TxFailed` and stops: `protect`
      does not try again and the action does not run. */
  lemma {:induction false} HalfOpenLoserStops<A>(w: World, s: Settings, now: int, reply: Reply<A>, record: StateStruct, x: Option<string>)
    requires Holds(w, record) && record.state == StateOpen && record.timeOpen <= now
    requires w.script == [WriteDuringWatch(x)]
    ensures var o := ProtectSpec(w, s, now, reply);
      && o.invocations == 0 && o.err == Some(TxFailed) && o.value == None
      && o.world.store.state == x && o.world.notes == w.notes
  {
  }

  /** A successful trial (no other process) resets the breaker: the state
      key and every window set are deleted, the trial marker stays in the
      half-open set, and the notifications Open→HalfOpen and HalfOpen→Closed
      fire. The action's value and error are returned unchanged. */
  lemma {:induction false} TrialSuccessResets<A>(w: World, s: Settings, now: int, reply: Reply<A>, record: StateStruct)
    requires Holds(w, record) && record.state == StateOpen && record.timeOpen <= now
    requires w.script == [] && !IsFailure(s, reply.err)
    ensures var o := ProtectSpec(w, s, now, reply);
      && o.invocations == 1 && o.value == Some(reply.value) && o.err == reply.err
      && o.world.store == Cleared(w.store).(half := w.store.half + {now})
      && CountsOf(o.world.store) == Counts(0, 0, 0, 0, 0)
      && Holds(o.world, ClosedZero)
      && o.world.notes == w.notes + [(StateOpen, StateHalfOpen), (StateHalfOpen, StateClosed)]
  {
    PassProgress(w, s, now, reply);
  }

  /** A failed trial (no other process) reopens the breaker until
      `now + OpenTimeout` and returns `CircuitBreakerOpen` in place of the
      action's error; as written, the trial marker is not removed. */
  lemma {:induction false} TrialFailureReopens<A>(w: World, s: Settings, now: int, reply: Reply<A>, record: StateStruct)
    requires Holds(w, record) && record.state == StateOpen && record.timeOpen <= now
    requires w.script == [] && IsFailure(s, reply.err)
    requires InInt64(now + s.openTimeout)
    ensures var o := ProtectSpec(w, s, now, reply);
      && o.invocations == 1 && o.value == Some(reply.value) && o.err == Some(CircuitBreakerOpen)
      && Holds(o.world, StateStruct(StateOpen, now + s.openTimeout))
      && now in o.world.store.half
      && o.world.notes == w.notes + [(StateOpen, StateHalfOpen), (StateHalfOpen, StateOpen)]
  {
    PassProgress(w, s, now, reply);
    DecodeEncoded(StateStruct(StateHalfOpen, now + s.openTimeout));
    DecodeEncoded(StateStruct(StateOpen, now + s.openTimeout));
  }

  /** When a failed trial's reopen transaction is aborted by another writer,
      the pass asks to retry after the action has already run, so `protect`
      can run the action a second time. */
  lemma {:induction false} TrialCanRunTwice<A>(store: StoreValue, s: Settings, now: int, reply: Reply<A>)
    requires InInt64(now) && InInt64(now + s.openTimeout)
    requires IsFailure(s, reply.err)
    requires store.state == Some(Encode(StateStruct(StateOpen, now)))
    ensures var w := World(store, [Quiet, WriteDuringWatch(store.state)], []);
      ProtectSpec(w, s, now, reply).invocations == 2
  {
    var w := World(store, [Quiet, WriteDuringWatch(store.state)], []);
    var open := StateStruct(StateOpen, now);
    var half := StateStruct(StateHalfOpen, now + s.openTimeout);
    DecodeEncoded(open);
    DecodeEncoded(half);
    DecodeEncoded(StateStruct(StateOpen, now + s.openTimeout));
    var first := PassSpec(w, s, now, reply);
    assert first.retry && first.invocations == 1 && first.world.script == [];
    assert first.world.store.state == store.state;
    var second := PassSpec(first.world, s, now, reply);
    assert !second.retry && second.invocations == 1;
    assert ProtectSpec(first.world, s, now, reply) == second;
  }

  /** The conflict guard is sound (a conflict means the record changed) but
      narrow: a record whose phase alone, or whose time alone, differs from
      the expected one passes the guard and the transaction commits. */
  lemma {:induction false} ConflictGuardIsNarrow(t: int, u: int)
    requires InInt64(t) && t != u
    ensures forall a, b :: Conflicts(a, b) ==> a != b
    ensures var current := StateStruct(StateOpen, t);
      Transaction(Some(Encode(current)), StateStruct(StateOpen, u), Quiet) == Commit(current)
    ensures var current := StateStruct(StateHalfOpen, t);
      Transaction(Some(Encode(current)), StateStruct(StateOpen, t), Quiet) == Commit(current)
  {
    DecodeEncoded(StateStruct(StateOpen, t));
    DecodeEncoded(StateStruct(StateHalfOpen, t));
  }

  const Second: int := 1_000_000_000
  const Minute: int := 60 * Second

  /** The settings of the demonstration driver. */
  function DemoSettings(): Settings {
    Settings("circuitBreaker", 5 * Minute, Minute, 10 * Second,
             (c: Counts) => c.totalFailures > 1, (e: Error) => false)
  }

  function Fails(message: string): Reply<()> { Reply((), Some(Failure(message))) }
  const Succeeds: Reply<()> := Reply((), None)

  /** The driver's first call, on an empty store: its failure is recorded. */
  lemma DemoFirstFailure(t0: int)
    ensures var o1 := ProtectSpec(World(EmptyStore, [], []), DemoSettings(), t0, Fails("error 1"));
      && o1.err == Some(Failure("error 1")) && o1.invocations == 1
      && o1.world == World(Failed(EmptyStore, t0), [], [])
  {
    var s := DemoSettings();
    var w0 := World(EmptyStore, [], []);
    assert Window(w0, s, t0) == EmptyStore;
    ClosedRuns(w0, s, t0, Fails("error 1"));
  }

  /** The driver's second call, one failure on record: its failure is recorded too. */
  lemma DemoSecondFailure(t0: int)
    ensures var o2 := ProtectSpec(World(Failed(EmptyStore, t0), [], []), DemoSettings(), t0 + 1, Fails("error 2"));
      && o2.err == Some(Failure("error 2")) && o2.invocations == 1
      && IsClosed(o2.world) && o2.world.script == [] && o2.world.notes == []
      && o2.world.store.fail == {t0, t0 + 1}
  {
    var s := DemoSettings();
    var w1 := World(Failed(EmptyStore, t0), [], []);
    assert Window(w1, s, t0 + 1) == w1.store;
    ClosedRuns(w1, s, t0 + 1, Fails("error 2"));
  }

  /** The first two calls of the demonstration driver: both failures are
      recorded and the breaker stays Closed, ready to trip. */
  lemma DemoFirstFailures(t0: int)
    ensures var s := DemoSettings();
      var o1 := ProtectSpec(World(EmptyStore, [], []), s, t0, Fails("error 1"));
      var o2 := ProtectSpec(o1.world, s, t0 + 1, Fails("error 2"));
      && o1.err == Some(Failure("error 1")) && o1.invocations == 1
      && o2.err == Some(Failure("error 2")) && o2.invocations == 1
      && IsClosed(o2.world) && o2.world.script == [] && o2.world.notes == []
      && s.readyToTrip(CountsOf(Window(o2.world, s, t0 + 2)))
  {
    var s := DemoSettings();
    DemoFirstFailure(t0);
    DemoSecondFailure(t0);
    var o1 := ProtectSpec(World(EmptyStore, [], []), s, t0, Fails("error 1"));
    var o2 := ProtectSpec(o1.world, s, t0 + 1, Fails("error 2"));
    var p := Window(o2.world, s, t0 + 2);
    assert t0 in p.fail && t0 + 1 in p.fail;
    SubsetCard({t0, t0 + 1}, p.fail);
  }

  /** The first three calls of the demonstration driver: two failures are
      recorded and the third call trips the breaker and is rejected. */
  lemma DemoTrips(t0: int)
    requires 0 <= t0 && InInt64(t0 + Minute)
    ensures var s := DemoSettings();
      var o1 := ProtectSpec(World(EmptyStore, [], []), s, t0, Fails("error 1"));
      var o2 := ProtectSpec(o1.world, s, t0 + 1, Fails("error 2"));
      var o3 := ProtectSpec(o2.world, s, t0 + 2, Fails("error 3"));
      && o1.err == Some(Failure("error 1")) && o1.invocations == 1
      && o2.err == Some(Failure("error 2")) && o2.invocations == 1
      && o3.err == Some(CircuitBreakerOpen) && o3.invocations == 0
      && o3.world.script == []
      && Holds(o3.world, StateStruct(StateOpen, t0 + 2 + 10 * Second))
      && o3.world.notes == [(StateClosed, StateOpen)]
  {
    var s := DemoSettings();
    DemoFirstFailures(t0);
    var o1 := ProtectSpec(World(EmptyStore, [], []), s, t0, Fails("error 1"));
    var o2 := ProtectSpec(o1.world, s, t0 + 1, Fails("error 2"));
    TripsWhenReady(o2.world, s, t0 + 2, Fails("error 3"));
  }

  /** A call of the demonstration driver on a Closed breaker with at most
      one failure on record runs its action once and adds at most its own
      failure. */
  lemma {:induction false} DemoClosedCall(w: World, t: int, reply: Reply<()>, x: int)
    requires IsClosed(w) && w.store.fail <= {x}
    ensures var s, o := DemoSettings(), ProtectSpec(w, DemoSettings(), t, reply);
      && o.invocations == 1 && o.err == reply.err
      && o.world.script == w.script && o.world.notes == w.notes && IsClosed(o.world)
      && o.world.store.fail <= w.store.fail + (if IsFailure(s, reply.err) then {t} else {})
  {
    var s := DemoSettings();
    var p := Window(w, s, t);
    SubsetCard(p.fail, {x});
    assert !s.readyToTrip(CountsOf(p));
    ClosedRuns(w, s, t, reply);
  }

  /** The last three calls of the demonstration driver, on a Closed breaker
      with no failure on record: a success and two failures, none tripping it. */
  lemma DemoRunsClosed(w: World, t: int)
    requires IsClosed(w) && w.store.fail == {}
    ensures var s := DemoSettings();
      var o5 := ProtectSpec(w, s, t, Succeeds);
      var o6 := ProtectSpec(o5.world, s, t + 1, Fails("error 6"));
      var o7 := ProtectSpec(o6.world, s, t + 2, Fails("error 7"));
      && o5.err == None && o5.invocations == 1
      && o6.err == Some(Failure("error 6")) && o6.invocations == 1
      && o7.err == Some(Failure("error 7")) && o7.invocations == 1
      && o7.world.notes == w.notes
  {
    var s := DemoSettings();
    DemoClosedCall(w, t, Succeeds, t);
    var o5 := ProtectSpec(w, s, t, Succeeds);
    DemoClosedCall(o5.world, t + 1, Fails("error 6"), t);
    var o6 := ProtectSpec(o5.world, s, t + 1, Fails("error 6"));
    DemoClosedCall(o6.world, t + 2, Fails("error 7"), t + 1);
  }

  /** The rest of the demonstration driver: once the open period is over a
      successful trial closes the breaker and clears the counts, and the
      calls after it run normally. */
  lemma DemoRecovers(w: World, t4: int)
    requires w.script == [] && w.notes == [(StateClosed, StateOpen)]
    requires exists t :: t <= t4 && Holds(w, StateStruct(StateOpen, t))
    ensures var s := DemoSettings();
      var o4 := ProtectSpec(w, s, t4, Succeeds);
      var o5 := ProtectSpec(o4.world, s, t4 + 1, Succeeds);
      var o6 := ProtectSpec(o5.world, s, t4 + 2, Fails("error 6"));
      var o7 := ProtectSpec(o6.world, s, t4 + 3, Fails("error 7"));
      && o4.err == None && o4.invocations == 1 && CountsOf(o4.world.store) == Counts(0, 0, 0, 0, 0)
      && o5.err == None && o5.invocations == 1
      && o6.err == Some(Failure("error 6")) && o6.invocations == 1
      && o7.err == Some(Failure("error 7")) && o7.invocations == 1
      && o7.world.notes == [(StateClosed, StateOpen), (StateOpen, StateHalfOpen), (StateHalfOpen, StateClosed)]
  {
    var s := DemoSettings();
    var t :| t <= t4 && Holds(w, StateStruct(StateOpen, t));
    TrialSuccessResets(w, s, t4, Succeeds, StateStruct(StateOpen, t));
    var o4 := ProtectSpec(w, s, t4, Succeeds);
    DemoRunsClosed(o4.world, t4 + 1);
  }

  /** The demonstration driver's whole run, one process and no interference,
      with the fourth call made eleven seconds after the third. */
  lemma DemoScenario(t0: int)
    requires 0 <= t0 && InInt64(t0 + Minute)
    ensures var s := DemoSettings();
      var o1 := ProtectSpec(World(EmptyStore, [], []), s, t0, Fails("error 1"));
      var o2 := ProtectSpec(o1.world, s, t0 + 1, Fails("error 2"));
      var o3 := ProtectSpec(o2.world, s, t0 + 2, Fails("error 3"));
      var o4 := ProtectSpec(o3.world, s, t0 + 2 + 11 * Second, Succeeds);
      var o5 := ProtectSpec(o4.world, s, t0 + 3 + 11 * Second, Succeeds);
      var o6 := ProtectSpec(o5.world, s, t0 + 4 + 11 * Second, Fails("error 6"));
      var o7 := ProtectSpec(o6.world, s, t0 + 5 + 11 * Second, Fails("error 7"));
      && o1.err == Some(Failure("error 1")) && o1.invocations == 1
      && o2.err == Some(Failure("error 2")) && o2.invocations == 1
      && o3.err == Some(CircuitBreakerOpen) && o3.invocations == 0
      && o4.err == None && o4.invocations == 1 && CountsOf(o4.world.store) == Counts(0, 0, 0, 0, 0)
      && o5.err == None && o5.invocations == 1
      && o6.err == Some(Failure("error 6")) && o6.invocations == 1
      && o7.err == Some(Failure("error 7")) && o7.invocations == 1
      && o7.world.notes == [(StateClosed, StateOpen), (StateOpen, StateHalfOpen), (StateHalfOpen, StateClosed)]
  {
    DemoTrips(t0);
    var s := DemoSettings();
    var o1 := ProtectSpec(World(EmptyStore, [], []), s, t0, Fails("error 1"));
    var o2 := ProtectSpec(o1.world, s, t0 + 1, Fails("error 2"));
    var o3 := ProtectSpec(o2.world, s, t0 + 2, Fails("error 3"));
    var t4 := t0 + 2 + 11 * Second;
    assert Holds(o3.world, StateStruct(StateOpen, t0 + 2 + 10 * Second));
    DemoRecovers(o3.world, t4);
  }
}
