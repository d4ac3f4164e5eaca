/**
 * Duration checks. A protobuf Duration is a (seconds, nanos) pair; a nil
 * pointer is None. Decoding into a Go time.Duration (signed 64-bit
 * nanoseconds) is a simplified model of the protobuf library's conversion.
 */
module Durations {
  import opened Wrappers
  import opened Errors

  datatype Duration = Duration(seconds: int, nanos: int)

  const Millisecond: int := 1_000_000
  const Second: int := 1_000_000_000
  const Minute: int := 60 * Second
  const Hour: int := 60 * Minute

  const MinInt64: int := -0x8000_0000_0000_0000
  const MaxInt64: int := 0x7FFF_FFFF_FFFF_FFFF

  // Bounds used by the mesh and proxy configuration checks.
  const DiscoveryRefreshDelayMax: int := 10 * Minute
  const DiscoveryRefreshDelayMin: int := Second
  const ConnectTimeoutMax: int := 30 * Second
  const ConnectTimeoutMin: int := Millisecond
  const DrainTimeMax: int := Hour
  const ParentShutdownTimeMax: int := Hour

  const DecodeError := "invalid duration"
  const TooShort := "duration must be greater than 1ms"
  const NotMillis := "only durations to ms precision are supported"

  /** The time.Duration a protobuf duration stands for, or None when it cannot be converted. */
  function Decode(d: Option<Duration>): (r: Option<int>)
    ensures r.Some? ==> d.Some? && r.value == d.value.seconds * Second + d.value.nanos
    ensures r.Some? ==> MinInt64 <= r.value <= MaxInt64
    ensures r.Some? ==> -Second < d.value.nanos < Second
    ensures r.Some? <==>
      && d.Some?
      && -Second < d.value.nanos < Second
      && !(d.value.seconds > 0 && d.value.nanos < 0)
      && !(d.value.seconds < 0 && d.value.nanos > 0)
      && MinInt64 <= d.value.seconds * Second + d.value.nanos <= MaxInt64
  {
    match d
    case None => None
    case Some(Duration(s, n)) =>
      if n <= -Second || n >= Second then None
      else if (s > 0 && n < 0) || (s < 0 && n > 0) then None
      else if s * Second + n < MinInt64 || s * Second + n > MaxInt64 then None
      else Some(s * Second + n)
  }

  /**
   * ValidateDuration, ValidateDurationGogo and ValidateGogoDuration: the
   * duration must decode, be at least 1ms and be a whole number of
   * milliseconds. At most one error is reported.
   */
  function ValidateDuration(d: Option<Duration>): (r: Error)
    ensures |r| <= 1
    ensures r == [] <==> Decode(d).Some? && Decode(d).value >= Millisecond && Decode(d).value % Millisecond == 0
    ensures r == [] ==> d.Some? && d.value.seconds >= 0 && d.value.nanos >= 0
  {
    match Decode(d)
    case None => [DecodeError]
    case Some(dur) =>
      if dur < Millisecond then [TooShort]
      else if dur % Millisecond != 0 then [NotMillis]
      else []
  }

  /** What ValidateDuration accepts: a decodable duration of at least 1ms in whole milliseconds. */
  predicate IsValidDuration(d: Option<Duration>)
  {
    Decode(d).Some? && Decode(d).value >= Millisecond && Decode(d).value % Millisecond == 0
  }

  /** ValidateDurationRange: accepts exactly the values in the inclusive window [min, max]. */
  function ValidateDurationRange(dur: int, min: int, max: int): (r: Error)
    ensures |r| <= 1
    ensures r == [] <==> min <= dur <= max
  {
    if dur > max || dur < min then ["time out of range"] else []
  }

  /** ValidateRefreshDelay: a valid duration inside [1s, 10m]. */
  function ValidateRefreshDelay(d: Option<Duration>): (r: Error)
    ensures |r| <= 1
    ensures r == [] <==> ValidateDuration(d) == [] && DiscoveryRefreshDelayMin <= Decode(d).value <= DiscoveryRefreshDelayMax
  {
    if ValidateDuration(d) != [] then ValidateDuration(d)
    else ValidateDurationRange(Decode(d).value, DiscoveryRefreshDelayMin, DiscoveryRefreshDelayMax)
  }

  /** ValidateConnectTimeout: a valid duration inside [1ms, 30s]. */
  function ValidateConnectTimeout(d: Option<Duration>): (r: Error)
    ensures |r| <= 1
    ensures r == [] <==> ValidateDuration(d) == [] && ConnectTimeoutMin <= Decode(d).value <= ConnectTimeoutMax
  {
    if ValidateDuration(d) != [] then ValidateDuration(d)
    else ValidateDurationRange(Decode(d).value, ConnectTimeoutMin, ConnectTimeoutMax)
  }

  /** The combined rule ValidateParentAndDrain enforces once both durations are individually valid. */
  predicate ParentAndDrainCompatible(drain: int, parent: int)
  {
    && drain % Second == 0
    && parent % Second == 0
    && drain < parent
    && drain <= DrainTimeMax
    && parent <= ParentShutdownTimeMax
  }

  /** One check: the message when the condition fails, nothing otherwise. */
  function Require(cond: bool, msg: string): (e: Error)
    ensures |e| <= 1
    ensures e == [] <==> cond
  {
    if cond then [] else [msg]
  }

  /** The errors of the combined rule, one per violated condition. */
  function CombinedErrors(d: int, p: int): (r: Error)
    ensures |r| <= 5
    ensures r == [] <==> ParentAndDrainCompatible(d, p)
  {
    Require(d % Second == 0, "drain time only supports durations to seconds precision")
    + Require(p % Second == 0, "parent shutdown time only supports durations to seconds precision")
    + Require(d < p, "parent shutdown time must be greater than drain time")
    + Require(d <= DrainTimeMax, "drain time too long")
    + Require(p <= ParentShutdownTimeMax, "parent shutdown time too long")
  }

  /**
   * ValidateParentAndDrain: when either duration is invalid only those
   * per-field errors are returned; otherwise both must be whole seconds,
   * parent shutdown must exceed drain, and both are capped at one hour.
   */
  function ValidateParentAndDrain(drain: Option<Duration>, parent: Option<Duration>): (r: Error)
    ensures ValidateDuration(drain) != [] || ValidateDuration(parent) != [] ==>
      r == Prefix("invalid drain duration: ", ValidateDuration(drain))
         + Prefix("invalid parent shutdown duration: ", ValidateDuration(parent))
    ensures ValidateDuration(drain) == [] && ValidateDuration(parent) == [] ==>
      (r == [] <==> ParentAndDrainCompatible(Decode(drain).value, Decode(parent).value))
    ensures |r| <= 5
  {
    var errs := Prefix("invalid drain duration: ", ValidateDuration(drain))
              + Prefix("invalid parent shutdown duration: ", ValidateDuration(parent));
    if errs != [] then errs
    else CombinedErrors(Decode(drain).value, Decode(parent).value)
  }

  /** A pair that passes ValidateParentAndDrain satisfies 1s <= drain < parent <= 1h. */
  lemma ParentAndDrainBounds(drain: Option<Duration>, parent: Option<Duration>)
    requires ValidateParentAndDrain(drain, parent) == []
    ensures Second <= Decode(drain).value < Decode(parent).value <= Hour
  {
    var d := Decode(drain).value;
    assert d >= Millisecond && d % Second == 0;
  }

  /** Any duration under 1ms, zero included, is rejected as too short. */
  lemma SubMillisecondRejected(nanos: int)
    requires 0 <= nanos < Millisecond
    ensures ValidateDuration(Some(Duration(0, nanos))) == [TooShort]
  {
  }

  /** A duration of at least 1ms that is not a whole number of milliseconds is rejected for its precision. */
  lemma FractionalMillisecondRejected(seconds: int, nanos: int)
    requires 0 <= seconds <= 9_000_000_000 && 0 <= nanos < Second
    requires seconds > 0 || nanos >= Millisecond
    requires nanos % Millisecond != 0
    ensures ValidateDuration(Some(Duration(seconds, nanos))) == [NotMillis]
  {
    WholeSecondsMillis(seconds, nanos);
  }

  /** Every positive whole number of milliseconds within 9e9 seconds is accepted. */
  lemma WholeMillisecondsAccepted(seconds: int, millis: int)
    requires 0 <= seconds <= 9_000_000_000 && 0 <= millis < 1000
    requires seconds > 0 || millis > 0
    ensures ValidateDuration(Some(Duration(seconds, millis * Millisecond))) == []
  {
    WholeSecondsMillis(seconds, millis * Millisecond);
  }

  /** Whole seconds do not change the remainder modulo 1ms. */
  lemma WholeSecondsMillis(seconds: int, nanos: int)
    ensures (seconds * Second + nanos) % Millisecond == nanos % Millisecond
  {
    assert seconds * Second == (seconds * 1000) * Millisecond;
  }
}
