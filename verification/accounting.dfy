/** Window accounting: the breaker's state value and its six score sets, kept
    by an in-memory store in place of Redis. A sorted-set member is the
    event's timestamp and its score is the same nanosecond count, so each set
    is modelled as the set of its scores. */
module Accounting {
  import opened Errors
  import opened Gocircuit
  import opened Codec

  /** `Counts`: cardinalities of the five window sets. */
  datatype Counts = Counts(
    requests: int,
    totalSuccesses: int,
    totalFailures: int,
    consecutiveSuccesses: int,
    consecutiveFailures: int)

  /** What `getInformation` reports: the decoded record and the counts. */
  datatype Info = Info(record: StateStruct, counts: Counts)

  /** The values stored under one breaker's seven keys. */
  datatype StoreValue = StoreValue(
    state: Option<string>,
    req: set<int>,
    succ: set<int>,
    fail: set<int>,
    consucc: set<int>,
    confail: set<int>,
    half: set<int>)

  const EmptyStore: StoreValue := StoreValue(None, {}, {}, {}, {}, {}, {})

  /** The record text `registerSuccess` writes: a Closed record at time zero. */
  const ClosedRecord: string := StateStructToString(ClosedZero).0

  /** `ZREMRANGEBYSCORE key -inf max`: drops every member whose score is at most `max`. */
  function RemoveRangeByScore(zset: set<int>, max: int): (r: set<int>)
    ensures r <= zset
    ensures forall x :: x in zset ==> (x in r <==> max < x)
  {
    set x | x in zset && max < x
  }

  /** The effect of `clearTimings` with `cutoff = now - Interval`. */
  function Pruned(v: StoreValue, cutoff: int): (r: StoreValue)
    ensures r.state == v.state && r.half == v.half
    ensures r.req <= v.req && r.succ <= v.succ && r.fail <= v.fail && r.consucc <= v.consucc && r.confail <= v.confail
    ensures forall x :: x in r.req + r.succ + r.fail + r.consucc + r.confail ==> cutoff < x
  {
    v.(req := RemoveRangeByScore(v.req, cutoff),
       fail := RemoveRangeByScore(v.fail, cutoff),
       succ := RemoveRangeByScore(v.succ, cutoff),
       consucc := RemoveRangeByScore(v.consucc, cutoff),
       confail := RemoveRangeByScore(v.confail, cutoff))
  }

  /** The effect of `registerSuccess` at instant `t`. */
  function Succeeded(v: StoreValue, t: int): (r: StoreValue)
    ensures r.state == Some(ClosedRecord) && ReadState(r.state) == (ClosedZero, None)
    ensures t in r.req && t in r.succ && t in r.consucc && r.confail == {}
    ensures r.req - {t} == v.req - {t} && r.succ - {t} == v.succ - {t} && r.consucc - {t} == v.consucc - {t}
    ensures r.fail == v.fail && r.half == v.half
  {
    RoundTrip(ClosedZero);
    v.(state := Some(ClosedRecord),
       req := v.req + {t},
       succ := v.succ + {t},
       consucc := v.consucc + {t},
       confail := {})
  }

  /** The effect of `registerFailure` at instant `t`. */
  function Failed(v: StoreValue, t: int): (r: StoreValue)
    ensures t in r.req && t in r.fail && t in r.confail && r.consucc == {}
    ensures r.req - {t} == v.req - {t} && r.fail - {t} == v.fail - {t} && r.confail - {t} == v.confail - {t}
    ensures r.state == v.state && r.succ == v.succ && r.half == v.half
  {
    v.(req := v.req + {t},
       fail := v.fail + {t},
       confail := v.confail + {t},
       consucc := {})
  }

  /** The effect of `clear`: the half-open set is not among the deleted keys. */
  function Cleared(v: StoreValue): (r: StoreValue)
    ensures r.state == None && ReadState(r.state) == (ClosedZero, None)
    ensures r.req == {} && r.succ == {} && r.fail == {} && r.consucc == {} && r.confail == {}
    ensures r.half == v.half
  {
    v.(state := None, req := {}, fail := {}, succ := {}, consucc := {}, confail := {})
  }

  function CountsOf(v: StoreValue): Counts {
    Counts(|v.req|, |v.succ|, |v.fail|, |v.consucc|, |v.confail|)
  }

  /** What a read of the pruned store reports: a malformed record is an error. */
  function ReadInfo(v: StoreValue): (r: Result<Info>)
    ensures r.Ok? <==> ReadState(v.state).1.None?
    ensures r.Ok? ==> r.value == Info(ReadState(v.state).0, CountsOf(v))
  {
    var (record, err) := ReadState(v.state);
    if err.Some? then Err(err.value) else Ok(Info(record, CountsOf(v)))
  }

  /** The shape every operation keeps: each request is a success or a failure,
      each consecutive set lies inside its total set, and at most one of the
      two consecutive sets is non-empty. */
  ghost predicate WellFormed(v: StoreValue) {
    && v.succ + v.fail == v.req
    && v.consucc <= v.succ
    && v.confail <= v.fail
    && (v.consucc == {} || v.confail == {})
  }

  lemma PrunedKeepsShape(v: StoreValue, cutoff: int)
    requires WellFormed(v)
    ensures WellFormed(Pruned(v, cutoff))
  {
    var p := Pruned(v, cutoff);
    assert p.succ + p.fail == p.req by {
      forall x | x in p.req ensures x in p.succ + p.fail { }
    }
  }

  lemma RegisterKeepsShape(v: StoreValue, t: int)
    requires WellFormed(v)
    ensures WellFormed(Succeeded(v, t)) && WellFormed(Failed(v, t)) && WellFormed(Cleared(v))
  {
  }

  /** Pruning removes exactly the members at or before the cutoff from the
      five window sets and touches nothing else; pruning twice, the second
      time at the same or an earlier cutoff, is pruning once. */
  lemma {:induction false} PrunedSpec(v: StoreValue, cutoff: int, earlier: int)
    requires earlier <= cutoff
    ensures var p := Pruned(v, cutoff);
      && p.state == v.state && p.half == v.half
      && (forall x :: x in p.req <==> x in v.req && cutoff < x)
      && (forall x :: x in p.fail <==> x in v.fail && cutoff < x)
      && (forall x :: x in p.succ <==> x in v.succ && cutoff < x)
      && (forall x :: x in p.consucc <==> x in v.consucc && cutoff < x)
      && (forall x :: x in p.confail <==> x in v.confail && cutoff < x)
    ensures Pruned(Pruned(v, cutoff), earlier) == Pruned(v, cutoff)
    ensures Pruned(Pruned(v, cutoff), cutoff) == Pruned(v, cutoff)
  {
  }

  lemma {:induction false} SubsetCard(a: set<int>, b: set<int>)
    requires a <= b
    ensures |a| <= |b|
  {
    assert b == a + (b - a);
    assert a * (b - a) == {};
  }

  /** Consequences of the shape for the counts the trip predicate sees. */
  lemma {:induction false} CountsBounds(v: StoreValue)
    requires WellFormed(v)
    ensures var c := CountsOf(v);
      && 0 <= c.consecutiveSuccesses <= c.totalSuccesses <= c.requests
      && 0 <= c.consecutiveFailures <= c.totalFailures <= c.requests
      && c.requests <= c.totalSuccesses + c.totalFailures
      && (c.consecutiveSuccesses == 0 || c.consecutiveFailures == 0)
  {
    SubsetCard(v.consucc, v.succ);
    SubsetCard(v.confail, v.fail);
    SubsetCard(v.succ, v.req);
    SubsetCard(v.fail, v.req);
    assert |v.succ + v.fail| + |v.succ * v.fail| == |v.succ| + |v.fail|;
  }

  /** `registerSuccess` with a fresh timestamp adds one request and one
      success, extends the success run by one and resets the failure run. */
  lemma {:induction false} SucceededCounts(v: StoreValue, t: int)
    requires WellFormed(v) && t !in v.req
    ensures var c := CountsOf(v);
      CountsOf(Succeeded(v, t)) == Counts(c.requests + 1, c.totalSuccesses + 1, c.totalFailures, c.consecutiveSuccesses + 1, 0)
  {
    assert t !in v.succ && t !in v.consucc;
  }

  /** `registerFailure` with a fresh timestamp adds one request and one
      failure, extends the failure run by one and resets the success run. */
  lemma {:induction false} FailedCounts(v: StoreValue, t: int)
    requires WellFormed(v) && t !in v.req
    ensures var c := CountsOf(v);
      CountsOf(Failed(v, t)) == Counts(c.requests + 1, c.totalSuccesses, c.totalFailures + 1, 0, c.consecutiveFailures + 1)
  {
    assert t !in v.fail && t !in v.confail;
  }

  /** `registerSuccess` and `registerFailure` mirror each other: with a fresh
      timestamp each adds one request and one event of its kind, extends its
      own consecutive run by one and resets the other run to zero. */
  lemma {:induction false} RegisterCounts(v: StoreValue, t: int)
    requires WellFormed(v) && t !in v.req
    ensures var c, s, f := CountsOf(v), CountsOf(Succeeded(v, t)), CountsOf(Failed(v, t));
      && s == Counts(c.requests + 1, c.totalSuccesses + 1, c.totalFailures, c.consecutiveSuccesses + 1, 0)
      && f == Counts(c.requests + 1, c.totalSuccesses, c.totalFailures + 1, 0, c.consecutiveFailures + 1)
  {
    SucceededCounts(v, t);
    FailedCounts(v, t);
  }

  /** The in-memory store of one breaker: the state key and six sorted sets. */
  class Store {
    var state: Option<string>
    var req: set<int>
    var succ: set<int>
    var fail: set<int>
    var consucc: set<int>
    var confail: set<int>
    var half: set<int>

    function Value(): StoreValue
      reads this
    {
      StoreValue(state, req, succ, fail, consucc, confail, half)
    }

    constructor ()
      ensures Value() == EmptyStore
    {
      state, req, succ, fail, consucc, confail, half := None, {}, {}, {}, {}, {}, {};
    }

    /** `clearTimings`: one ZREMRANGEBYSCORE per window set. */
    method ClearTimings(now: int, interval: int)
      modifies this
      ensures Value() == Pruned(old(Value()), now - interval)
    {
      var currentWindow := now - interval;
      req := RemoveRangeByScore(req, currentWindow);
      fail := RemoveRangeByScore(fail, currentWindow);
      succ := RemoveRangeByScore(succ, currentWindow);
      consucc := RemoveRangeByScore(consucc, currentWindow);
      confail := RemoveRangeByScore(confail, currentWindow);
    }

    /** `registerSuccess` at instant `now`. */
    method RegisterSuccess(now: int)
      modifies this
      ensures Value() == Succeeded(old(Value()), now)
      ensures state == Some(ClosedRecord) && ReadState(state) == (ClosedZero, None)
      ensures fail == old(fail) && half == old(half)
    {
      var record := StateStructToString(ClosedZero).0;
      state := Some(record);            // SET state
      req := req + {now};               // ZADD req
      succ := succ + {now};             // ZADD succ
      consucc := consucc + {now};       // ZADD consucc
      confail := {};                    // DEL confail
      RoundTrip(ClosedZero);
    }

    /** `registerFailure` at instant `now`. */
    method RegisterFailure(now: int)
      modifies this
      ensures Value() == Failed(old(Value()), now)
      ensures state == old(state) && succ == old(succ) && half == old(half)
    {
      req := req + {now};               // ZADD req
      fail := fail + {now};             // ZADD fail
      confail := confail + {now};       // ZADD confail
      consucc := {};                    // DEL consucc
    }

    /** `clear`: deletes the state key and the five window sets. */
    method Clear()
      modifies this
      ensures Value() == Cleared(old(Value()))
      ensures half == old(half)
    {
      state := None;
      req := {};
      fail := {};
      succ := {};
      consucc := {};
      confail := {};
    }

    /** `getInformation`: prune, then read the record and the five counts. */
    method GetInformation(now: int, interval: int) returns (r: Result<Info>)
      modifies this
      ensures Value() == Pruned(old(Value()), now - interval)
      ensures r == ReadInfo(Value())
      ensures r.Ok? ==> r.value.counts == CountsOf(Pruned(old(Value()), now - interval))
    {
      ClearTimings(now, interval);
      var stored := state;
      var counts := Counts(|req|, |succ|, |fail|, |consucc|, |confail|);
      var (record, err) := ReadState(stored);
      if err.Some? {
        return Err(err.value);
      }
      r := Ok(Info(record, counts));
    }
  }
}
