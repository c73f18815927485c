/** The state record stored at `prefix:state:key`: a phase and the instant,
    in Unix nanoseconds, at which the current Open or HalfOpen period ends.
    Its text form is `"<phase-name> <nanos>"`. */
module Codec {
  import opened Errors
  import opened GoStd
  import opened Gocircuit

  /** `StateStruct`; Go's zero `time.Time{}` is represented by 0. */
  datatype StateStruct = StateStruct(state: State, timeOpen: int)

  /** The zero `StateStruct`, which is also `closedZero`. */
  const ClosedZero: StateStruct := StateStruct(StateClosed, 0)

  /** `StateStructToString`: the three phases are written alike. */
  function StateStructToString(s: StateStruct): (r: (string, Option<Error>))
    ensures r.1.None? <==> Known(s.state)
    ensures r.1.Some? ==> r.0 == ""
    ensures r.1.None? ==> Split(r.0, ' ') == [StateToString(s.state).0, FormatInt(s.timeOpen)]
  {
    var (name, err) := StateToString(s.state);
    if err.Some? then ("", err)
    else
      var text := name + " " + FormatInt(s.timeOpen);
      SplitAround(name, FormatInt(s.timeOpen), ' ');
      (text, None)
  }

  /** The text of a record whose phase is known. */
  function Encode(s: StateStruct): string
    requires Known(s.state)
  {
    StateStructToString(s).0
  }

  /** `timeFromString`: an empty field and a field `ParseInt` rejects are errors. */
  function TimeFromString(t: string): (r: (int, Option<Error>))
    ensures t == "" ==> r == (0, Some(Failure("empty string")))
    ensures t != "" && ParseInt64(t).None? ==> r == (0, Some(Failure("invalid time string: " + t)))
    ensures r.1.None? <==> ParseInt64(t).Some?
    ensures r.1.None? ==> r.0 == ParseInt64(t).value && InInt64(r.0)
  {
    if t == "" then (0, Some(Failure("empty string")))
    else
      match ParseInt64(t)
      case None => (0, Some(Failure("invalid time string: " + t)))
      case Some(i) => (i, None)
  }

  /** The decoding of the (at most two) space-separated fields of a record. */
  function DecodeFields(parts: seq<string>): (r: (StateStruct, Option<Error>))
    requires 1 <= |parts| <= 2
    ensures !IsName(parts[0]) ==> r == (ClosedZero, Some(Failure("unknown state: " + parts[0])))
    ensures |parts| == 2 && IsName(parts[0]) && parts[1] == "" ==> r == (ClosedZero, Some(Failure("empty string")))
    ensures |parts| == 2 && IsName(parts[0]) && parts[1] != "" && ParseInt64(parts[1]).None? ==>
              r == (ClosedZero, Some(Failure("invalid time string: " + parts[1])))
    ensures |parts| == 2 && IsName(parts[0]) && ParseInt64(parts[1]).Some? ==>
              r == (StateStruct(StateFromString(parts[0]).0, ParseInt64(parts[1]).value), None)
    ensures |parts| == 1 && IsName(parts[0]) ==> r == (StateStruct(StateFromString(parts[0]).0, 0), None)
    ensures r.1.Some? ==> r.0 == ClosedZero && r.1.value.Failure?
    ensures r.1.None? ==> Known(r.0.state) && InInt64(r.0.timeOpen)
  {
    var (state, err) := StateFromString(parts[0]);
    if err.Some? then (ClosedZero, err)
    else if |parts| == 2 then
      var (timeOpen, timeErr) := TimeFromString(parts[1]);
      if timeErr.Some? then (ClosedZero, timeErr)
      else (StateStruct(state, timeOpen), None)
    else (StateStruct(state, 0), None)
  }

  /** `StateStructFromString`. It rejects more than two space-separated
      fields, an unknown phase name (the empty string included), and an empty
      or non-integer second field; a lone phase name decodes with time 0.
      Every error comes with the zero record. */
  function StateStructFromString(t: string): (r: (StateStruct, Option<Error>))
    ensures |Split(t, ' ')| > 2 ==> r == (ClosedZero, Some(Failure("invalid state string: " + t)))
    ensures |Split(t, ' ')| <= 2 && !IsName(Split(t, ' ')[0]) ==>
              r == (ClosedZero, Some(Failure("unknown state: " + Split(t, ' ')[0])))
    ensures |Split(t, ' ')| == 2 && IsName(Split(t, ' ')[0]) && Split(t, ' ')[1] == "" ==>
              r == (ClosedZero, Some(Failure("empty string")))
    ensures |Split(t, ' ')| == 2 && IsName(Split(t, ' ')[0]) && Split(t, ' ')[1] != "" &&
            ParseInt64(Split(t, ' ')[1]).None? ==>
              r == (ClosedZero, Some(Failure("invalid time string: " + Split(t, ' ')[1])))
    ensures |Split(t, ' ')| == 2 && IsName(Split(t, ' ')[0]) && ParseInt64(Split(t, ' ')[1]).Some? ==>
              r == (StateStruct(StateFromString(Split(t, ' ')[0]).0, ParseInt64(Split(t, ' ')[1]).value), None)
    ensures |Split(t, ' ')| == 1 && IsName(t) ==> r == (StateStruct(StateFromString(t).0, 0), None)
    ensures r.1.Some? ==> r.0 == ClosedZero && r.1.value.Failure?
    ensures r.1.None? ==> Known(r.0.state) && InInt64(r.0.timeOpen)
  {
    var parts := Split(t, ' ');
    if |parts| > 2 then (ClosedZero, Some(Failure("invalid state string: " + t)))
    else if |parts| == 1 then
      assert parts == [t] by { JoinSplit(t, ' '); }
      DecodeFields(parts)
    else DecodeFields(parts)
  }

  /** Decoding an encoded record gives the record back when its time is an
      int64, and the range error of `ParseInt` otherwise. */
  lemma {:induction false} DecodeEncoded(s: StateStruct)
    requires Known(s.state)
    ensures StateStructFromString(Encode(s)) ==
              if InInt64(s.timeOpen) then (s, None)
              else (ClosedZero, Some(Failure("invalid time string: " + FormatInt(s.timeOpen))))
  {
    FromToRoundTrip(s.state);
    ParseFormat(s.timeOpen);
  }

  /** The round-trip law `decode(encode(r)) == r` for every int64 record. */
  lemma RoundTrip(s: StateStruct)
    requires Known(s.state) && InInt64(s.timeOpen)
    ensures StateStructToString(s).1 == None
    ensures StateStructFromString(StateStructToString(s).0) == (s, None)
  {
    DecodeEncoded(s);
  }

  /** What a read of the state key yields: an absent key is the zero (Closed)
      record, a present value is decoded and may be malformed. */
  function ReadState(stored: Option<string>): (r: (StateStruct, Option<Error>))
    ensures stored.None? ==> r == (ClosedZero, None)
    ensures stored.Some? ==> r == StateStructFromString(stored.value)
    ensures r.1.None? ==> Known(r.0.state)
    ensures r.1.Some? ==> r.1.value.Failure?
  {
    match stored
    case None => (ClosedZero, None)
    case Some(t) => StateStructFromString(t)
  }
}
