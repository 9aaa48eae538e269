/** The sliding log throttler with its log updated in place. */
module SlidingLogThrottler {
  import opened SlidingLog

  /** The library's binary search for the first entry that is not below a value. */
  method LowerBound(s: seq<nat>, value: nat) returns (first: nat)
    requires Partitioned(s, value)
    ensures first <= |s|
    ensures forall j :: 0 <= j < first ==> s[j] < value
    ensures forall j :: first <= j < |s| ==> s[j] >= value
  {
    first := 0;
    var count := |s|;
    while count > 0
      invariant 0 <= count && first + count <= |s|
      invariant forall j :: 0 <= j < first ==> s[j] < value
      invariant forall j :: first + count <= j < |s| ==> s[j] >= value
    {
      var half := count / 2;
      if s[first + half] < value {
        first := first + half + 1;
        count := count - half - 1;
      } else {
        count := half;
      }
    }
  }

  class LogThrottler {
    var windowDuration: nat
    var allowedRequestCount: nat
    var timeStampLog: seq<nat>

    function State(): Throttler
      reads this
    {
      Throttler(windowDuration, allowedRequestCount, timeStampLog)
    }

    constructor (window: nat, allowed: nat)
      ensures State() == Throttler(window, allowed, [])
    {
      windowDuration, allowedRequestCount, timeStampLog := window, allowed, [];
    }

    method TruncateLog(t: nat)
      requires Partitioned(timeStampLog, Minus64(t, windowDuration))
      modifies this
      ensures State() == Truncate(old(State()), t)
    {
      var threshold := Minus64(t, windowDuration);
      var first := LowerBound(timeStampLog, threshold);
      AtLeastSuffix(timeStampLog, first, threshold);
      timeStampLog := timeStampLog[first..];
    }

    method AddTimestamp(t: nat)
      requires CanEvaluate(State(), t, true)
      modifies this
      ensures State() == Add(old(State()), t)
    {
      timeStampLog := timeStampLog + [t];
      if |timeStampLog| >= allowedRequestCount {
        TruncateLog(t);
      }
    }

    method ReEvaluateAt(t: nat)
      requires CanEvaluate(State(), t, false)
      modifies this
      ensures State() == ReEvaluate(old(State()), t)
    {
      if |timeStampLog| >= allowedRequestCount {
        TruncateLog(t);
      }
    }

    predicate IsAllowed()
      reads this
    {
      |timeStampLog| <= allowedRequestCount
    }

    method SetWindowDuration(window: nat)
      modifies this
      ensures State() == old(State()).(window := window)
    {
      windowDuration := window;
    }

    method SetAllowedRequestCount(allowed: nat)
      modifies this
      ensures State() == old(State()).(allowed := allowed)
    {
      allowedRequestCount := allowed;
    }
  }
}
