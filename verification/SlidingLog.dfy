/** The sliding log throttler: a sorted log of admitted time stamps that is cut back only when it is
    long enough to matter. Time stamps and windows are 64-bit unsigned. */
module SlidingLog {
  import opened Word64

  /** `a - b` on 64-bit unsigned operands. */
  function Minus64(a: nat, b: nat): nat {
    (a - b) % U64
  }

  predicate Sorted(s: seq<nat>) {
    forall i, j :: 0 <= i < j < |s| ==> s[i] <= s[j]
  }

  predicate Bounded(s: seq<nat>, last: nat) {
    forall i :: 0 <= i < |s| ==> s[i] <= last
  }

  /** The entries that are not older than c. */
  function AtLeast(s: seq<nat>, c: int): seq<nat> {
    if s == [] then []
    else AtLeast(s[..|s| - 1], c) + if s[|s| - 1] >= c then [s[|s| - 1]] else []
  }

  lemma {:induction false} AtLeastConcat(a: seq<nat>, b: seq<nat>, c: int)
    ensures AtLeast(a + b, c) == AtLeast(a, c) + AtLeast(b, c)
  {
    if b == [] {
      assert a + b == a;
    } else {
      AtLeastConcat(a, b[..|b| - 1], c);
      assert (a + b)[..|a + b| - 1] == a + b[..|b| - 1];
    }
  }

  lemma {:induction false} AtLeastAll(s: seq<nat>, c: int)
    ensures |AtLeast(s, c)| <= |s|
    ensures (forall i :: 0 <= i < |s| ==> s[i] >= c) ==> AtLeast(s, c) == s
    ensures (forall i :: 0 <= i < |s| ==> s[i] < c) ==> AtLeast(s, c) == []
  {
    if s != [] {
      AtLeastAll(s[..|s| - 1], c);
    }
  }

  lemma AtLeastOne(x: nat, c: int)
    ensures AtLeast([x], c) == if x >= c then [x] else []
  {
    assert [x][..0] == [];
  }

  function Max(a: int, b: int): int { if a < b then b else a }

  /** Cutting twice is cutting once at the later threshold. */
  lemma {:induction false} AtLeastTwice(s: seq<nat>, c: int, e: int)
    ensures AtLeast(AtLeast(s, c), e) == AtLeast(s, Max(c, e))
    ensures c <= e ==> |AtLeast(s, e)| <= |AtLeast(s, c)|
  {
    if s != [] {
      var s', x := s[..|s| - 1], s[|s| - 1];
      AtLeastTwice(s', c, e);
      AtLeastOne(x, e);
      AtLeastConcat(AtLeast(s', c), [x], e);
      assert AtLeast(s, Max(c, e)) == AtLeast(s', Max(c, e)) + if x >= Max(c, e) then [x] else [];
      assert AtLeast(s, c) == if x >= c then AtLeast(s', c) + [x] else AtLeast(s', c);
    }
  }

  /** In a sorted log the entries not older than c are a suffix. */
  lemma AtLeastSuffix(s: seq<nat>, i: nat, c: int)
    requires i <= |s|
    requires forall j :: 0 <= j < i ==> s[j] < c
    requires forall j :: i <= j < |s| ==> s[j] >= c
    ensures AtLeast(s, c) == s[i..]
  {
    assert s == s[..i] + s[i..];
    AtLeastConcat(s[..i], s[i..], c);
    AtLeastAll(s[..i], c);
    AtLeastAll(s[i..], c);
  }

  lemma {:induction false} AtLeastSorted(s: seq<nat>, c: int, last: nat)
    requires Sorted(s) && Bounded(s, last)
    ensures Sorted(AtLeast(s, c)) && Bounded(AtLeast(s, c), last)
  {
    if s != [] {
      AtLeastSorted(s[..|s| - 1], c, s[|s| - 1]);
    }
  }

  // ---------------------------------------------------------------------------------------------
  // The throttler on values
  // ---------------------------------------------------------------------------------------------

  datatype Throttler = Throttler(window: nat, allowed: nat, log: seq<nat>)

  function Truncate(th: Throttler, t: nat): Throttler {
    th.(log := AtLeast(th.log, Minus64(t, th.window)))
  }

  function ReEvaluate(th: Throttler, t: nat): Throttler {
    if |th.log| >= th.allowed then Truncate(th, t) else th
  }

  function Add(th: Throttler, t: nat): Throttler {
    ReEvaluate(th.(log := th.log + [t]), t)
  }

  predicate Allows(th: Throttler) {
    |th.log| <= th.allowed
  }

  /** What a binary search for c demands of a log: the entries below c come first. */
  predicate Partitioned(s: seq<nat>, c: int) {
    forall i, j :: 0 <= i < j < |s| && s[j] < c ==> s[i] < c
  }

  predicate Searchable(th: Throttler, t: nat) {
    |th.log| >= th.allowed ==> Partitioned(th.log, Minus64(t, th.window))
  }

  predicate CanEvaluate(th: Throttler, t: nat, admitted: bool) {
    Searchable(if admitted then th.(log := th.log + [t]) else th, t)
  }

  /** A log in order can always be evaluated, if no admission is behind it, and stays in order. */
  lemma StaysSorted(th: Throttler, t: nat)
    requires Sorted(th.log) && Bounded(th.log, t)
    ensures CanEvaluate(th, t, true) && Sorted(Add(th, t).log) && Bounded(Add(th, t).log, t)
  {
    AtLeastSorted(th.log + [t], Minus64(t, th.window), t);
  }

  lemma CutStaysSorted(th: Throttler, t: nat)
    requires Sorted(th.log)
    ensures CanEvaluate(th, t, false) && Sorted(ReEvaluate(th, t).log)
  {
    if th.log != [] {
      AtLeastSorted(th.log, Minus64(t, th.window), th.log[|th.log| - 1]);
    }
  }

  // ---------------------------------------------------------------------------------------------
  // The log against the full history
  // ---------------------------------------------------------------------------------------------

  datatype Event = Admit(t: nat) | Suppress(t: nat) | SetWindow(w: nat) | SetAllowed(n: nat)

  /** A throttler with everything it was ever given: all admitted time stamps, the largest threshold
      it has truncated at, and the time of its latest evaluation. */
  datatype Audit = Audit(th: Throttler, history: seq<nat>, cut: int, now: nat)

  function Observe(a: Audit, e: Event): Audit {
    match e
    case Admit(t) =>
      a.(th := Add(a.th, t), history := a.history + [t], now := t,
         cut := if |a.th.log| + 1 >= a.th.allowed then Max(a.cut, t - a.th.window) else a.cut)
    case Suppress(t) =>
      a.(th := ReEvaluate(a.th, t), now := t,
         cut := if |a.th.log| >= a.th.allowed then Max(a.cut, t - a.th.window) else a.cut)
    case SetWindow(w) => a.(th := a.th.(window := w))
    case SetAllowed(n) => a.(th := a.th.(allowed := n))
  }

  function Start(window: nat, allowed: nat): Audit {
    Audit(Throttler(window, allowed, []), [], 0, 0)
  }

  function Observed(a: Audit, run: seq<Event>): Audit {
    if run == [] then a else Observe(Observed(a, run[..|run| - 1]), run[|run| - 1])
  }

  /** The event evaluates the throttler and does not reconfigure it. */
  predicate Fixed(e: Event) { e.Admit? || e.Suppress? }

  /** Time never goes back, fits 64 bits, and is at least one window old. */
  predicate Timely(a: Audit, e: Event) {
    Fixed(e) ==> a.now <= e.t < U64 && a.th.window <= e.t
  }

  ghost predicate TimelyRun(a: Audit, run: seq<Event>) {
    run != [] ==> TimelyRun(a, run[..|run| - 1]) && Timely(Observed(a, run[..|run| - 1]), run[|run| - 1])
  }

  /** The log is the history from the cut on. */
  ghost predicate Faithful(a: Audit) {
    a.th.log == AtLeast(a.history, a.cut)
  }

  ghost predicate Ordered(history: seq<nat>, now: nat) {
    Sorted(history) && Bounded(history, now)
  }

  lemma OrderedAppend(h: seq<nat>, now: nat, t: nat)
    requires Ordered(h, now) && now <= t
    ensures Ordered(h, t) && Ordered(h + [t], t)
  {}

  lemma AtLeastAppend(h: seq<nat>, t: nat, c: int)
    ensures AtLeast(h + [t], c) == AtLeast(h, c) + if t >= c then [t] else []
  {
    AtLeastConcat(h, [t], c);
    AtLeastOne(t, c);
  }

  /** An evaluation at least one window after the beginning of time does not wrap. */
  lemma Evaluation64(th: Throttler, t: nat)
    requires th.window <= t < U64
    ensures ReEvaluate(th, t).log == if |th.log| >= th.allowed then AtLeast(th.log, t - th.window) else th.log
    ensures Add(th, t).log ==
              if |th.log| + 1 >= th.allowed then AtLeast(th.log + [t], t - th.window) else th.log + [t]
  {
    assert Minus64(t, th.window) == t - th.window;
  }

  /** A log that was cut before, and is now cut again if it is long enough: what is left of the history,
      and that its length tells whether the history fits. */
  lemma CutOrNot(history: seq<nat>, log: seq<nat>, cut: int, from: int, allowed: nat, left: seq<nat>)
    requires log == AtLeast(history, cut) && left == if |log| >= allowed then AtLeast(log, from) else log
    ensures left == AtLeast(history, if |log| >= allowed then Max(cut, from) else cut)
    ensures |left| <= allowed <==> |AtLeast(history, Max(cut, from))| <= allowed
  {
    AtLeastTwice(history, cut, from);
    AtLeastTwice(history, cut, Max(cut, from));
  }

  /** What an admission leaves of the history h, and what it says of it. */
  lemma AddCuts(th: Throttler, h: seq<nat>, cut: int, t: nat)
    requires th.log == AtLeast(h, cut) && cut <= t && th.window <= t < U64
    ensures var from := Max(cut, t - th.window);
      && Add(th, t).log == AtLeast(h + [t], if |th.log| + 1 >= th.allowed then from else cut)
      && (Allows(Add(th, t)) <==> |AtLeast(h + [t], from)| <= th.allowed)
  {
    Evaluation64(th, t);
    AtLeastAppend(h, t, cut);
    var log := th.log + [t];
    assert |log| == |th.log| + 1;
    CutOrNot(h + [t], log, cut, t - th.window, th.allowed, Add(th, t).log);
  }

  /** What a re-evaluation leaves of the history h, and what it says of it. */
  lemma ReEvaluateCuts(th: Throttler, h: seq<nat>, cut: int, t: nat)
    requires th.log == AtLeast(h, cut) && th.window <= t < U64
    ensures var from := Max(cut, t - th.window);
      && ReEvaluate(th, t).log == AtLeast(h, if |th.log| >= th.allowed then from else cut)
      && (Allows(ReEvaluate(th, t)) <==> |AtLeast(h, from)| <= th.allowed)
  {
    Evaluation64(th, t);
    CutOrNot(h, th.log, cut, t - th.window, th.allowed, ReEvaluate(th, t).log);
  }

  lemma ObserveFaithful(a: Audit, e: Event)
    requires Faithful(a) && Timely(a, e) && a.cut <= a.now
    ensures Faithful(Observe(a, e)) && Observe(a, e).cut <= Observe(a, e).now
  {
    if e.Admit? {
      AddCuts(a.th, a.history, a.cut, e.t);
    } else if e.Suppress? {
      ReEvaluateCuts(a.th, a.history, a.cut, e.t);
    }
  }

  lemma ObserveOrdered(a: Audit, e: Event)
    requires Ordered(a.history, a.now) && Timely(a, e)
    ensures Ordered(Observe(a, e).history, Observe(a, e).now)
  {
    if Fixed(e) {
      OrderedAppend(a.history, a.now, e.t);
    }
  }

  /** Whatever was admitted, suppressed and reconfigured, the lazily cut log is exactly the full
      history, which is in order, from the largest threshold used so far. */
  lemma {:induction false} LogIsHistory(w: nat, n: nat, run: seq<Event>)
    requires TimelyRun(Start(w, n), run)
    ensures var a := Observed(Start(w, n), run); Faithful(a) && a.cut <= a.now && Ordered(a.history, a.now)
  {
    if run != [] {
      var before, e := Observed(Start(w, n), run[..|run| - 1]), run[|run| - 1];
      LogIsHistory(w, n, run[..|run| - 1]);
      ObserveFaithful(before, e);
      ObserveOrdered(before, e);
    }
  }

  /** The verdict is whether at most n time stamps from some time on were admitted. */
  ghost predicate CountsFrom(a: Audit, from: int, n: nat) {
    Allows(a.th) <==> |AtLeast(a.history, from)| <= n
  }

  lemma VerdictCounts(before: Audit, e: Event)
    requires Faithful(before) && before.cut <= before.now && Timely(before, e) && Fixed(e)
    ensures CountsFrom(Observe(before, e), Max(before.cut, e.t - before.th.window), before.th.allowed)
  {
    if e.Admit? {
      AddCuts(before.th, before.history, before.cut, e.t);
    } else {
      ReEvaluateCuts(before.th, before.history, before.cut, e.t);
    }
  }

  /** So the verdict right after an evaluation at time t is the comparison of the number of admitted
      time stamps from t - window on with the allowed count, also when the log was not cut; the one
      exception is a window that reaches back beyond an earlier cut, where only the time stamps from
      the cut on are counted. */
  lemma VerdictIsWindowCount(w: nat, n: nat, run: seq<Event>, e: Event)
    requires TimelyRun(Start(w, n), run) && Fixed(e) && Timely(Observed(Start(w, n), run), e)
    ensures var before := Observed(Start(w, n), run);
            var from, allowed := e.t - before.th.window, before.th.allowed;
      && CountsFrom(Observe(before, e), Max(before.cut, from), allowed)
      && (from >= before.cut ==> CountsFrom(Observe(before, e), from, allowed))
  {
    LogIsHistory(w, n, run);
    VerdictCounts(Observed(Start(w, n), run), e);
  }

  /** The log was never cut later than one window back. */
  ghost predicate Recent(a: Audit, w: nat, n: nat) {
    Faithful(a) && a.th.window == w && a.th.allowed == n && a.cut <= Max(0, a.now - w)
  }

  lemma RecentVerdict(before: Audit, e: Event, w: nat, n: nat)
    requires Recent(before, w, n) && Fixed(e) && Timely(before, e)
    ensures CountsFrom(Observe(before, e), e.t - w, n)
  {
    VerdictCounts(before, e);
  }

  lemma ObserveRecent(a: Audit, e: Event, w: nat, n: nat)
    requires Recent(a, w, n) && Fixed(e) && Timely(a, e)
    ensures Recent(Observe(a, e), w, n)
  {
    ObserveFaithful(a, e);
  }

  ghost predicate FixedRun(run: seq<Event>) {
    run != [] ==> FixedRun(run[..|run| - 1]) && Fixed(run[|run| - 1])
  }

  lemma {:induction false} FixedRunIsRecent(w: nat, n: nat, run: seq<Event>)
    requires TimelyRun(Start(w, n), run) && FixedRun(run)
    ensures Recent(Observed(Start(w, n), run), w, n)
  {
    if run != [] {
      FixedRunIsRecent(w, n, run[..|run| - 1]);
      ObserveRecent(Observed(Start(w, n), run[..|run| - 1]), run[|run| - 1], w, n);
    }
  }

  /** With a fixed window the exception does not arise. */
  lemma FixedWindowVerdict(w: nat, n: nat, run: seq<Event>, e: Event)
    requires TimelyRun(Start(w, n), run) && FixedRun(run) && Fixed(e) && Timely(Observed(Start(w, n), run), e)
    ensures CountsFrom(Observe(Observed(Start(w, n), run), e), e.t - w, n)
  {
    FixedRunIsRecent(w, n, run);
    RecentVerdict(Observed(Start(w, n), run), e, w, n);
  }

  // ---------------------------------------------------------------------------------------------
  // Time stamps below the window
  // ---------------------------------------------------------------------------------------------

  lemma AboveIsKept(s: seq<nat>, c: int)
    requires c <= 0
    ensures AtLeast(s, c) == s
  {
    AtLeastAll(s, c);
  }

  lemma BelowIsCut(s: seq<nat>, c: int)
    requires forall i :: 0 <= i < |s| ==> s[i] < c
    ensures AtLeast(s, c) == []
  {
    AtLeastAll(s, c);
  }

  /** With a time stamp below the window the subtraction wraps: an evaluation erases the whole log if it
      truncates, the time stamp just admitted included, and otherwise leaves it alone. */
  lemma WrappedEvaluation(th: Throttler, t: nat)
    requires t < th.window < U64 && Bounded(th.log, t)
    ensures ReEvaluate(th, t).log == if |th.log| >= th.allowed then [] else th.log
    ensures Add(th, t).log == if |th.log| + 1 >= th.allowed then [] else th.log + [t]
  {
    var threshold := t - th.window + U64;
    assert Minus64(t, th.window) == threshold;
    BelowIsCut(th.log, threshold);
    BelowIsCut(th.log + [t], threshold);
  }

  /** Every entry of the log is then in the window. So an admission keeps the entries in the window if
      and only if the log stays shorter than the allowed count; it is always followed by the verdict
      to admit, which is wrong if and only if the log was as long as the allowed count or longer. */
  lemma WrapErasesLog(th: Throttler, t: nat)
    requires t < th.window < U64 && Bounded(th.log, t)
    ensures Add(th, t).log == AtLeast(th.log + [t], t - th.window) <==> |th.log| + 1 < th.allowed
    ensures Allows(Add(th, t))
    ensures (Allows(Add(th, t)) <==> |AtLeast(th.log + [t], t - th.window)| <= th.allowed) <==>
            |th.log| + 1 <= th.allowed
  {
    WrappedEvaluation(th, t);
    AboveIsKept(th.log + [t], t - th.window);
  }

  /** Like TimelyRun, but every time stamp is below the window. */
  ghost predicate EarlyRun(w: nat, n: nat, run: seq<Event>) {
    run != [] ==>
      var a, e := Observed(Start(w, n), run[..|run| - 1]), run[|run| - 1];
      EarlyRun(w, n, run[..|run| - 1]) && Fixed(e) && a.now <= e.t < w
  }

  ghost predicate Unthrottled(a: Audit) {
    && Bounded(a.history, a.now) && Bounded(a.th.log, a.now)
    && |a.th.log| <= |a.history|
    && (|a.history| < a.th.allowed ==> a.th.log == a.history)
    && (|a.history| >= a.th.allowed && a.history != [] ==> |a.th.log| < |a.history|)
    && (|a.th.log| < a.th.allowed || a.th.log == [])
  }

  lemma ObserveUnthrottled(a: Audit, e: Event)
    requires Unthrottled(a) && Fixed(e) && a.now <= e.t < a.th.window < U64
    ensures Unthrottled(Observe(a, e))
  {
    WrappedEvaluation(a.th, e.t);
  }

  lemma {:induction false} EarlyRunIsUnthrottled(w: nat, n: nat, run: seq<Event>)
    requires w < U64 && EarlyRun(w, n, run)
    ensures var a := Observed(Start(w, n), run);
      Unthrottled(a) && a.th.window == w && a.th.allowed == n && (run != [] ==> a.now < w)
  {
    if run != [] {
      EarlyRunIsUnthrottled(w, n, run[..|run| - 1]);
      ObserveUnthrottled(Observed(Start(w, n), run[..|run| - 1]), run[|run| - 1]);
    }
  }

  /** The whole history is in the window, and the verdict is to admit; so it is wrong exactly when more
      than n were admitted. The log is the window's content exactly when fewer were, or none. */
  ghost predicate AdmitsAll(a: Audit, w: nat, n: nat) {
    var recent := AtLeast(a.history, a.now - w);
    && recent == a.history && Allows(a.th)
    && ((Allows(a.th) <==> |recent| <= n) <==> |a.history| <= n)
    && (a.th.log == recent <==> |a.history| < n || a.history == [])
  }

  lemma UnthrottledVerdict(a: Audit, w: nat, n: nat)
    requires Unthrottled(a) && a.th.allowed == n && a.now < w
    ensures AdmitsAll(a, w, n)
  {
    AtLeastAll(a.history, a.now - w);
  }

  /** While all time stamps are below the window, nothing is ever throttled. */
  lemma NothingIsThrottledBelowWindow(w: nat, n: nat, run: seq<Event>)
    requires w < U64 && run != [] && EarlyRun(w, n, run)
    ensures AdmitsAll(Observed(Start(w, n), run), w, n)
  {
    EarlyRunIsUnthrottled(w, n, run);
    UnthrottledVerdict(Observed(Start(w, n), run), w, n);
  }
}
