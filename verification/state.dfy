/** The breaker phases of the `gocircuit` package and their names. */
module Gocircuit {
  import opened Errors
  import GoStd

  /** Go's `type State int`: any integer is a `State`, only three are named. */
  newtype State = int

  const StateClosed: State := 0
  const StateHalfOpen: State := 1
  const StateOpen: State := 2

  const ClosedName: string := "closed"
  const HalfOpenName: string := "half"
  const OpenName: string := "open"

  predicate Known(s: State) {
    s == StateClosed || s == StateHalfOpen || s == StateOpen
  }

  predicate IsName(t: string) {
    t == ClosedName || t == HalfOpenName || t == OpenName
  }

  /** Parses a phase name; any other text is an error that comes with `StateClosed`. */
  function StateFromString(t: string): (r: (State, Option<Error>))
    ensures r.1.None? <==> IsName(t)
    ensures t == ClosedName ==> r == (StateClosed, None)
    ensures t == HalfOpenName ==> r == (StateHalfOpen, None)
    ensures t == OpenName ==> r == (StateOpen, None)
    ensures r.1.Some? ==> r == (StateClosed, Some(Failure("unknown state: " + t)))
  {
    if t == ClosedName then (StateClosed, None)
    else if t == HalfOpenName then (StateHalfOpen, None)
    else if t == OpenName then (StateOpen, None)
    else (StateClosed, Some(Failure("unknown state: " + t)))
  }

  /** Names a phase; an out-of-range value is an error that comes with "closed". */
  function StateToString(s: State): (r: (string, Option<Error>))
    ensures r.1.None? <==> Known(s)
    ensures s == StateClosed ==> r == (ClosedName, None)
    ensures s == StateHalfOpen ==> r == (HalfOpenName, None)
    ensures s == StateOpen ==> r == (OpenName, None)
    ensures r.1.Some? ==> r == (ClosedName, Some(Failure("unknown state: " + GoStd.FormatInt(s as int))))
  {
    if s == StateClosed then (ClosedName, None)
    else if s == StateHalfOpen then (HalfOpenName, None)
    else if s == StateOpen then (OpenName, None)
    else (ClosedName, Some(Failure("unknown state: " + GoStd.FormatInt(s as int))))
  }

  /** `State.String()`: the name, or "unknown state" for an out-of-range value. */
  function StateString(s: State): (r: string)
    ensures r == "unknown state" <==> !Known(s)
    ensures Known(s) ==> StateFromString(r) == (s, None)
  {
    var (name, err) := StateToString(s);
    if err.Some? then "unknown state" else name
  }

  /** Naming a phase and parsing the name gives the phase back. */
  lemma FromToRoundTrip(s: State)
    requires Known(s)
    ensures StateToString(s).1 == None
    ensures StateFromString(StateToString(s).0) == (s, None)
  {
  }

  /** Parsing a name and naming the phase gives the name back. */
  lemma ToFromRoundTrip(t: string)
    requires IsName(t)
    ensures StateToString(StateFromString(t).0) == (t, None)
  {
  }
}
