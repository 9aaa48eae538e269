/** How many messages the closed throttling loop can admit in a window, and why a suppressed
    throttler recovers. One throttler is watched, while everything else about the loop is free. */
module AdmissionBound {
  import opened Word64
  import opened SlidingLog
  import opened Throttling
  import opened ThrottlingLoop

  /** The loop, the full history of the watched throttler, the time stamps of the admitted messages
      that name it, and both as they were at the last flush. */
  datatype Watch = Watch(
    loop: Loop,
    audit: Audit,
    admitted: seq<nat>,
    flushedHistory: seq<nat>,
    flushedAdmitted: seq<nat>
  )

  function Times(a: Audit, e: Event, k: nat): Audit {
    if k == 0 then a else Observe(Times(a, e, k - 1), e)
  }

  /** How many of a message's lookup fields name x. */
  function Count(ids: seq<Id>, x: string): nat {
    if ids == [] then 0 else Count(ids[..|ids| - 1], x) + if ids[|ids| - 1] == Known(x) then 1 else 0
  }

  function Evaluation(t: nat, admitted: bool): Event {
    if admitted then Admit(t) else Suppress(t)
  }

  function WatchTurn(w: Watch, x: string, e: LoopEvent): Watch {
    var l := Turn(w.loop, e);
    match e
    case Arrive(t, ids) =>
      var admits, k := Admits(w.loop.verdicts, ids), Count(ids, x);
      w.(loop := l, audit := Times(w.audit, Evaluation(t, admits), k),
         admitted := if admits && Known(x) in ids then w.admitted + [t] else w.admitted)
    case Flush => w.(loop := l, flushedHistory := w.audit.history, flushedAdmitted := w.admitted)
    case UpdateConfig(id, kind, window, allowed) =>
      if id == x && kind == "sliding_log" then
        w.(loop := l, audit := Observe(Observe(w.audit, SetWindow(window)), SetAllowed(allowed)))
      else w.(loop := l)
    case _ => w.(loop := l)
  }

  function Watched(w: Watch, x: string, run: seq<LoopEvent>): Watch {
    if run == [] then w else WatchTurn(Watched(w, x, run[..|run| - 1]), x, run[|run| - 1])
  }

  /** A watch begins when the throttler has just been added and no verdict about it exists. */
  ghost predicate JustAdded(w: Watch, x: string, window: nat, allowed: nat) {
    && w.audit == Start(window, allowed) && w.admitted == w.flushedHistory == w.flushedAdmitted == []
    && x in w.loop.b.throttlers && w.loop.b.throttlers[x] == Throttler(window, allowed, [])
    && x !in Latest(w.loop) && x !in w.loop.verdicts
  }

  /** Messages that name x are timely, and x is not reconfigured. */
  predicate Allowed(w: Watch, x: string, e: LoopEvent) {
    match e
    case Arrive(t, ids) => Known(x) in ids ==> w.audit.now <= t < U64 && w.audit.th.window <= t
    case UpdateConfig(id, _, _, _) => id != x
    case _ => true
  }

  /** At most d messages naming x are admitted between consecutive flushes. */
  ghost predicate Budgeted(w: Watch, x: string, run: seq<LoopEvent>, d: nat) {
    run != [] ==>
      && Budgeted(w, x, run[..|run| - 1], d)
      && Allowed(Watched(w, x, run[..|run| - 1]), x, run[|run| - 1])
      && |Watched(w, x, run).admitted| - |Watched(w, x, run).flushedAdmitted| <= d
  }

  // ---------------------------------------------------------------------------------------------
  // What the loop knows about x
  // ---------------------------------------------------------------------------------------------

  ghost predicate Tracks(w: Watch, x: string, window: nat, allowed: nat) {
    && x in w.loop.b.throttlers && w.loop.b.throttlers[x] == w.audit.th
    && w.audit.th.window == window && w.audit.th.allowed == allowed
    && Steady(w.audit)
    && (x in Latest(w.loop) ==> Latest(w.loop)[x] == Allows(w.audit.th))
    && (x !in Latest(w.loop) ==> w.audit.history == [] && w.admitted == [])
  }

  /** Between reconfigurations the log is the history from at most one window back, and exactly one
      window back if the throttler does not allow. */
  ghost predicate Steady(a: Audit) {
    && Faithful(a) && 0 <= a.cut <= Max(0, a.now - a.th.window)
    && (!Allows(a.th) ==> a.cut == a.now - a.th.window)
  }

  /** A throttler that was not cut allows. */
  lemma UncutAllows(th: Throttler, t: nat)
    requires th.window <= t < U64
    ensures !Allows(Add(th, t)) ==> |th.log| + 1 >= th.allowed
    ensures !Allows(ReEvaluate(th, t)) ==> |th.log| >= th.allowed
  {
    Evaluation64(th, t);
  }

  lemma AdmitSteady(a: Audit, t: nat)
    requires Steady(a) && Timely(a, Admit(t))
    ensures Steady(Observe(a, Admit(t)))
  {
    AddCuts(a.th, a.history, a.cut, t);
    UncutAllows(a.th, t);
  }

  lemma SuppressSteady(a: Audit, t: nat)
    requires Steady(a) && Timely(a, Suppress(t))
    ensures Steady(Observe(a, Suppress(t)))
  {
    ReEvaluateCuts(a.th, a.history, a.cut, t);
    UncutAllows(a.th, t);
  }

  lemma OnceSteady(a: Audit, e: Event)
    requires Steady(a) && Fixed(e) && Timely(a, e)
    ensures var b := Observe(a, e);
      Steady(b) && b.th.window == a.th.window && b.th.allowed == a.th.allowed && b.now == e.t
  {
    if e.Admit? {
      AdmitSteady(a, e.t);
    } else {
      SuppressSteady(a, e.t);
    }
  }

  lemma {:induction false} TimesSteady(a: Audit, e: Event, k: nat)
    requires Steady(a) && Fixed(e) && Timely(a, e)
    ensures var b := Times(a, e, k);
      && Steady(b) && b.th.window == a.th.window && b.th.allowed == a.th.allowed
      && b.now == (if k == 0 then a.now else e.t)
  {
    if k > 0 {
      TimesSteady(a, e, k - 1);
      OnceSteady(Times(a, e, k - 1), e);
    }
  }

  lemma {:induction false} TimesHistory(a: Audit, e: Event, k: nat)
    requires Fixed(e)
    ensures Times(a, e, k).history == a.history + (if e.Admit? then seq(k, _ => e.t) else [])
  {
    if k > 0 {
      TimesHistory(a, e, k - 1);
    }
  }

  lemma EvaluateOn(b: Builder, v: map<string, bool>, t: nat, id: Id, admits: bool, x: string)
    requires x in b.throttlers
    ensures var c := Evaluate(b, t, id, admits);
            var th := if admits then Add(b.throttlers[x], t) else ReEvaluate(b.throttlers[x], t);
      && x in c.throttlers
      && (id == Known(x) ==>
            c.throttlers[x] == th && x in Apply(v, c.updates) && Apply(v, c.updates)[x] == Allows(th))
      && (id != Known(x) ==>
            && c.throttlers[x] == b.throttlers[x]
            && (x in Apply(v, c.updates) <==> x in Apply(v, b.updates))
            && (x in Apply(v, b.updates) ==> Apply(v, c.updates)[x] == Apply(v, b.updates)[x]))
  {
    var c := Evaluate(b, t, id, admits);
    if id.Known? && id.id in b.throttlers {
      ApplyOneMore(v, b.updates, (id.id, Allows(c.throttlers[id.id])));
    }
  }

  lemma {:induction false} EvaluateAllOn(b: Builder, v: map<string, bool>, t: nat, ids: seq<Id>, admits: bool,
                                       x: string, a: Audit)
    requires x in b.throttlers && b.throttlers[x] == a.th
    ensures var k := Count(ids, x);
      Evaluated(b, EvaluateAll(b, t, ids, admits), v, x, Times(a, Evaluation(t, admits), k).th, k)
  {
    if ids != [] {
      var n := |ids| - 1;
      var e, k := Evaluation(t, admits), Count(ids[..n], x);
      EvaluateAllOn(b, v, t, ids[..n], admits, x, a);
      EvaluateOn(EvaluateAll(b, t, ids[..n], admits), v, t, ids[n], admits, x);
      assert Times(a, e, k + 1).th == if admits then Add(Times(a, e, k).th, t) else ReEvaluate(Times(a, e, k).th, t);
    }
  }

  /** After k evaluations of x its throttler is th, and its collected verdict is that of th, or what it
      was if there was no evaluation. */
  ghost predicate Evaluated(b: Builder, c: Builder, v: map<string, bool>, x: string, th: Throttler, k: nat) {
    var latest := Apply(v, c.updates);
    && x in c.throttlers && c.throttlers[x] == th
    && (k > 0 ==> x in latest && latest[x] == Allows(th))
    && (k == 0 ==> (x in latest <==> x in Apply(v, b.updates)) && (x in latest ==> latest[x] == Apply(v, b.updates)[x]))
  }

  lemma {:induction false} CountPositive(ids: seq<Id>, x: string)
    ensures Count(ids, x) > 0 <==> Known(x) in ids
  {
    if ids != [] {
      CountPositive(ids[..|ids| - 1], x);
      assert ids == ids[..|ids| - 1] + [ids[|ids| - 1]];
    }
  }

  lemma ArriveTracks(w: Watch, x: string, e: LoopEvent, window: nat, allowed: nat)
    requires Tracks(w, x, window, allowed) && Allowed(w, x, e) && e.Arrive?
    ensures Tracks(WatchTurn(w, x, e), x, window, allowed)
  {
    var admits := Admits(w.loop.verdicts, e.ids);
    CountPositive(e.ids, x);
    EvaluateAllOn(w.loop.b, w.loop.verdicts, e.t, e.ids, admits, x, w.audit);
    if Known(x) in e.ids {
      TimesSteady(w.audit, Evaluation(e.t, admits), Count(e.ids, x));
    }
  }

  lemma TurnTracks(w: Watch, x: string, e: LoopEvent, window: nat, allowed: nat)
    requires Tracks(w, x, window, allowed) && Allowed(w, x, e)
    ensures Tracks(WatchTurn(w, x, e), x, window, allowed)
  {
    if e.Arrive? {
      ArriveTracks(w, x, e, window, allowed);
    }
  }

  // ---------------------------------------------------------------------------------------------
  // The bound
  // ---------------------------------------------------------------------------------------------

  /** Every admitted message left at least one time stamp in the history. */
  ghost predicate Recorded(admitted: seq<nat>, history: seq<nat>) {
    forall c :: |AtLeast(admitted, c)| <= |AtLeast(history, c)|
  }

  ghost predicate Bound(admitted: seq<nat>, window: nat, most: nat) {
    forall i :: 0 <= i < |admitted| ==> |AtLeast(admitted[..i + 1], admitted[i] - window)| <= most
  }

  /** What the last flush guarantees for messages admitted since. */
  ghost predicate Guards(w: Watch, x: string, window: nat, allowed: nat) {
    && w.flushedAdmitted <= w.admitted
    && Recorded(w.admitted, w.audit.history) && Recorded(w.flushedAdmitted, w.flushedHistory)
    && Ordered(w.admitted, w.audit.now)
    && (x in w.loop.verdicts && w.loop.verdicts[x] ==> |AtLeast(w.flushedHistory, w.audit.now - window)| <= allowed)
    && (x !in w.loop.verdicts ==> w.flushedAdmitted == [])
  }

  lemma LaterIsFewer(s: seq<nat>, c: int, e: int)
    requires c <= e || c <= 0
    ensures |AtLeast(s, e)| <= |AtLeast(s, c)|
  {
    AtLeastTwice(s, c, e);
    AtLeastAll(s, c);
    AtLeastAll(s, e);
  }

  lemma {:induction false} SameStamps(k: nat, t: nat, c: int)
    ensures |AtLeast(seq(k, _ => t), c)| == if t >= c then k else 0
  {
    AtLeastAll(seq(k, _ => t), c);
  }

  lemma RecordedGrows(admitted: seq<nat>, history: seq<nat>, t: nat, k: nat)
    requires Recorded(admitted, history) && k > 0
    ensures Recorded(admitted + [t], history + seq(k, _ => t))
  {
    forall c
      ensures |AtLeast(admitted + [t], c)| <= |AtLeast(history + seq(k, _ => t), c)|
    {
      AtLeastConcat(admitted, [t], c);
      AtLeastOne(t, c);
      AtLeastConcat(history, seq(k, _ => t), c);
      SameStamps(k, t, c);
    }
  }

  lemma FlushGuards(w: Watch, x: string, window: nat, allowed: nat)
    requires Tracks(w, x, window, allowed) && Guards(w, x, window, allowed)
    ensures Guards(WatchTurn(w, x, Flush), x, window, allowed)
  {
    LaterIsFewer(w.audit.history, w.audit.cut, w.audit.now - window);
  }

  /** What one message naming x changes. */
  lemma ArriveChanges(w: Watch, x: string, e: LoopEvent)
    requires Steady(w.audit) && e.Arrive? && Known(x) in e.ids && Allowed(w, x, e)
    ensures var v, admits, k := WatchTurn(w, x, e), Admits(w.loop.verdicts, e.ids), Count(e.ids, x);
      && k > 0 && v.audit.now == e.t && v.loop.verdicts == w.loop.verdicts
      && v.flushedAdmitted == w.flushedAdmitted && v.flushedHistory == w.flushedHistory
      && v.admitted == (if admits then w.admitted + [e.t] else w.admitted)
      && v.audit.history == w.audit.history + (if admits then seq(k, _ => e.t) else [])
  {
    var event, k := Evaluation(e.t, Admits(w.loop.verdicts, e.ids)), Count(e.ids, x);
    CountPositive(e.ids, x);
    TimesSteady(w.audit, event, k);
    TimesHistory(w.audit, event, k);
  }

  lemma RecordedOnce(admitted: seq<nat>, history: seq<nat>, t: nat, k: nat, admits: bool)
    requires Recorded(admitted, history) && k > 0
    ensures Recorded(if admits then admitted + [t] else admitted, history + if admits then seq(k, _ => t) else [])
  {
    if admits {
      RecordedGrows(admitted, history, t, k);
    } else {
      assert history + [] == history;
    }
  }

  lemma ArriveGuards(w: Watch, x: string, e: LoopEvent, window: nat, allowed: nat)
    requires Steady(w.audit) && Guards(w, x, window, allowed)
    requires e.Arrive? && Known(x) in e.ids && Allowed(w, x, e)
    ensures Guards(WatchTurn(w, x, e), x, window, allowed)
  {
    ArriveChanges(w, x, e);
    OrderedAppend(w.admitted, w.audit.now, e.t);
    LaterIsFewer(w.flushedHistory, w.audit.now - window, e.t - window);
    RecordedOnce(w.admitted, w.audit.history, e.t, Count(e.ids, x), Admits(w.loop.verdicts, e.ids));
  }

  lemma TurnGuards(w: Watch, x: string, e: LoopEvent, window: nat, allowed: nat)
    requires Tracks(w, x, window, allowed) && Guards(w, x, window, allowed) && Allowed(w, x, e)
    ensures Guards(WatchTurn(w, x, e), x, window, allowed)
  {
    if e.Arrive? {
      CountPositive(e.ids, x);
      if Known(x) in e.ids {
        ArriveGuards(w, x, e, window, allowed);
      }
    } else if e.Flush? {
      FlushGuards(w, x, window, allowed);
    }
  }

  lemma BoundExtends(s: seq<nat>, t: nat, window: nat, most: nat)
    requires Bound(s, window, most) && |AtLeast(s + [t], t - window)| <= most
    ensures Bound(s + [t], window, most)
  {
    forall i | 0 <= i < |s + [t]|
      ensures |AtLeast((s + [t])[..i + 1], (s + [t])[i] - window)| <= most
    {
      if i < |s| {
        assert (s + [t])[..i + 1] == s[..i + 1];
      } else {
        assert (s + [t])[..i + 1] == s + [t];
      }
    }
  }

  lemma SplitCount(flushed: seq<nat>, s: seq<nat>, c: int)
    requires flushed <= s
    ensures |AtLeast(s, c)| <= |AtLeast(flushed, c)| + |s| - |flushed|
  {
    assert s == flushed + s[|flushed|..];
    AtLeastConcat(flushed, s[|flushed|..], c);
    AtLeastAll(s[|flushed|..], c);
  }

  lemma FlushedFit(w: Watch, x: string, e: LoopEvent, window: nat, allowed: nat)
    requires Guards(w, x, window, allowed)
    requires e.Arrive? && Known(x) in e.ids && Admits(w.loop.verdicts, e.ids) && w.audit.now <= e.t
    ensures |AtLeast(w.flushedAdmitted, e.t - window)| <= allowed
  {
    LaterIsFewer(w.flushedHistory, w.audit.now - window, e.t - window);
    assert x in w.loop.verdicts ==> w.loop.verdicts[x];
    if x in w.loop.verdicts {
      assert |AtLeast(w.flushedAdmitted, e.t - window)| <= |AtLeast(w.flushedHistory, e.t - window)|;
    }
  }

  lemma OneMoreFits(flushed: seq<nat>, s: seq<nat>, t: nat, window: nat, allowed: nat, d: nat)
    requires flushed <= s && |s| + 1 - |flushed| <= d
    requires |AtLeast(flushed, t - window)| <= allowed && Bound(s, window, allowed + d)
    ensures Bound(s + [t], window, allowed + d)
  {
    SplitCount(flushed, s + [t], t - window);
    BoundExtends(s, t, window, allowed + d);
  }

  /** One admission: the flushed history lets at most `allowed` of the earlier messages into the
      window, and at most d more were admitted since. */
  lemma TurnBound(w: Watch, x: string, e: LoopEvent, window: nat, allowed: nat, d: nat)
    requires Tracks(w, x, window, allowed) && Guards(w, x, window, allowed) && Allowed(w, x, e)
    requires Bound(w.admitted, window, allowed + d)
    requires |WatchTurn(w, x, e).admitted| - |WatchTurn(w, x, e).flushedAdmitted| <= d
    ensures Bound(WatchTurn(w, x, e).admitted, window, allowed + d)
  {
    if e.Arrive? && Known(x) in e.ids && Admits(w.loop.verdicts, e.ids) {
      FlushedFit(w, x, e, window, allowed);
      OneMoreFits(w.flushedAdmitted, w.admitted, e.t, window, allowed, d);
    }
  }

  ghost predicate Keeps(v: Watch, x: string, window: nat, allowed: nat, d: nat) {
    Tracks(v, x, window, allowed) && Guards(v, x, window, allowed) && Bound(v.admitted, window, allowed + d)
  }

  lemma {:induction false} RunIsBounded(w: Watch, x: string, run: seq<LoopEvent>, window: nat, allowed: nat, d: nat)
    requires JustAdded(w, x, window, allowed) && Budgeted(w, x, run, d)
    ensures Keeps(Watched(w, x, run), x, window, allowed, d)
  {
    if run != [] {
      var before, e := run[..|run| - 1], run[|run| - 1];
      RunIsBounded(w, x, before, window, allowed, d);
      var u := Watched(w, x, before);
      TurnTracks(u, x, e, window, allowed);
      TurnGuards(u, x, e, window, allowed);
      TurnBound(u, x, e, window, allowed, d);
    }
  }

  /** The entries from lo to hi. */
  function Within(s: seq<nat>, lo: int, hi: int): seq<nat> {
    if s == [] then []
    else Within(s[..|s| - 1], lo, hi) + if lo <= s[|s| - 1] <= hi then [s[|s| - 1]] else []
  }

  lemma BoundPrefix(s: seq<nat>, n: nat, window: nat, most: nat)
    requires Bound(s, window, most) && n <= |s|
    ensures Bound(s[..n], window, most)
  {
    forall i | 0 <= i < n
      ensures |AtLeast(s[..n][..i + 1], s[..n][i] - window)| <= most
    {
      assert s[..n][..i + 1] == s[..i + 1];
    }
  }

  lemma {:induction false} WithinBound(s: seq<nat>, window: nat, most: nat, hi: int)
    requires Sorted(s) && Bound(s, window, most)
    ensures |Within(s, hi - window, hi)| <= most
  {
    if s != [] {
      var n := |s| - 1;
      if s[n] <= hi {
        WithinAtLeast(s, hi - window, hi);
        LaterIsFewer(s, s[n] - window, hi - window);
        assert s[..n + 1] == s;
      } else {
        BoundPrefix(s, n, window, most);
        WithinBound(s[..n], window, most, hi);
      }
    }
  }

  lemma {:induction false} WithinAtLeast(s: seq<nat>, lo: int, hi: int)
    requires forall i :: 0 <= i < |s| ==> s[i] <= hi
    ensures Within(s, lo, hi) == AtLeast(s, lo)
  {
    if s != [] {
      WithinAtLeast(s[..|s| - 1], lo, hi);
    }
  }

  lemma KeepsWithin(v: Watch, x: string, window: nat, allowed: nat, d: nat, t: int)
    requires Keeps(v, x, window, allowed, d)
    ensures |Within(v.admitted, t - window, t)| <= allowed + d
  {
    WithinBound(v.admitted, window, allowed + d, t);
  }

  /** In every run of the closed loop in which at most d messages naming the throttler are admitted
      between consecutive flushes, every interval of one window holds at most allowed + d of them. */
  lemma AdmissionsAreBounded(w: Watch, x: string, run: seq<LoopEvent>, window: nat, allowed: nat, d: nat, t: int)
    requires JustAdded(w, x, window, allowed) && Budgeted(w, x, run, d)
    ensures |Within(Watched(w, x, run).admitted, t - window, t)| <= allowed + d
  {
    RunIsBounded(w, x, run, window, allowed, d);
    KeepsWithin(Watched(w, x, run), x, window, allowed, d, t);
  }

  /** Every registration of a new throttler, at any point of any run, starts such a watch. */
  lemma RegistrationStartsWatch(run: seq<LoopEvent>, x: string, window: nat, allowed: nat)
    requires x !in Turned(run).b.throttlers
    ensures var l := Turned(run + [AddConfig(x, "sliding_log", window, allowed)]);
      JustAdded(Watch(l, Start(window, allowed), [], [], []), x, window, allowed)
  {
    VerdictsCohere(run);
    assert (run + [AddConfig(x, "sliding_log", window, allowed)])[..|run|] == run;
    ApplyKeepsKeys(Turned(run).verdicts, Turned(run).b.updates);
  }

  lemma {:induction false} ApplyKeepsKeys(v: map<string, bool>, updates: seq<Update>)
    ensures v.Keys <= Apply(v, updates).Keys
  {
    if updates != [] {
      ApplyKeepsKeys(v, updates[..|updates| - 1]);
    }
  }

  // ---------------------------------------------------------------------------------------------
  // Exactness and recovery
  // ---------------------------------------------------------------------------------------------

  ghost predicate Stale(a: Audit, t: nat) {
    Steady(a) && Timely(a, Suppress(t)) && forall h :: h in a.history ==> h + a.th.window < t
  }

  lemma StaleLog(history: seq<nat>, from: int)
    requires forall h :: h in history ==> h < from
    ensures forall c :: c >= from ==> AtLeast(history, c) == []
  {
    forall c | c >= from
      ensures AtLeast(history, c) == []
    {
      assert forall i :: 0 <= i < |history| ==> history[i] in history;
      AtLeastAll(history, c);
    }
  }

  lemma StaleEvaluation(a: Audit, t: nat)
    requires Stale(a, t)
    ensures var b := Observe(a, Suppress(t));
      && Stale(b, t) && Allows(b.th)
      && (!Allows(a.th) || a.th.log == [] ==> b.th.log == [])
  {
    OnceSteady(a, Suppress(t));
    ReEvaluateCuts(a.th, a.history, a.cut, t);
    StaleLog(a.history, t - a.th.window);
  }

  lemma {:induction false} StaleEvaluations(a: Audit, t: nat, k: nat)
    requires Stale(a, t) && k > 0
    ensures var b := Times(a, Suppress(t), k);
      && Stale(b, t) && Allows(b.th)
      && (!Allows(a.th) || a.th.log == [] ==> b.th.log == [])
  {
    StaleEvaluation(a, t);
    if k > 1 {
      StaleEvaluations(a, t, k - 1);
      StaleEvaluation(Times(a, Suppress(t), k - 1), t);
    } else {
      assert Times(a, Suppress(t), 1) == Observe(Times(a, Suppress(t), 0), Suppress(t));
    }
  }

  /** Once a message that names the throttler is suppressed later than one window after the last
      admitted one, the log of a throttler that did not allow is empty, and the next flush unblocks the
      throttler, however it was blocked. */
  lemma SuppressionEnds(w: Watch, x: string, run: seq<LoopEvent>, window: nat, allowed: nat, d: nat, e: LoopEvent)
    requires JustAdded(w, x, window, allowed) && Budgeted(w, x, run, d)
    requires var v := Watched(w, x, run);
      && e.Arrive? && Known(x) in e.ids && Allowed(v, x, e) && !Admits(v.loop.verdicts, e.ids)
      && forall h :: h in v.audit.history ==> h + window < e.t
    ensures var v := Watched(w, x, run);
            var l := Turn(Turn(v.loop, e), Flush);
      && x in l.verdicts && l.verdicts[x]
      && x in l.b.throttlers && (!Allows(v.audit.th) ==> l.b.throttlers[x].log == [])
  {
    var v := Watched(w, x, run);
    RunIsBounded(w, x, run, window, allowed, d);
    CountPositive(e.ids, x);
    StaleEvaluations(v.audit, e.t, Count(e.ids, x));
    EvaluateAllOn(v.loop.b, v.loop.verdicts, e.t, e.ids, false, x, v.audit);
  }

  /** The last verdict about x, if there is one, is whether its window holds at most the allowed number
      of admitted time stamps. */
  ghost predicate Exact(w: Watch, x: string, window: nat, allowed: nat) {
    x in Latest(w.loop) ==>
      (Latest(w.loop)[x] <==> |AtLeast(w.audit.history, w.audit.now - window)| <= allowed)
  }

  lemma TracksExactly(w: Watch, x: string, window: nat, allowed: nat)
    requires Tracks(w, x, window, allowed)
    ensures Exact(w, x, window, allowed)
  {
    LaterIsFewer(w.audit.history, w.audit.cut, w.audit.now - window);
  }

  /** In every run the last verdict is exact: it neither admits nor suppresses wrongly. */
  lemma VerdictIsExact(w: Watch, x: string, run: seq<LoopEvent>, window: nat, allowed: nat, d: nat)
    requires JustAdded(w, x, window, allowed) && Budgeted(w, x, run, d)
    ensures Exact(Watched(w, x, run), x, window, allowed)
  {
    RunIsBounded(w, x, run, window, allowed, d);
    TracksExactly(Watched(w, x, run), x, window, allowed);
  }

  // ---------------------------------------------------------------------------------------------
  // The bound is reached
  // ---------------------------------------------------------------------------------------------

  function FreshWatch(x: string, window: nat, allowed: nat): Watch {
    Watch(Loop(Builder(map[x := Throttler(window, allowed, [])], []), map[]), Start(window, allowed), [], [], [])
  }

  /** A run, and then so many messages at time t, each followed by a flush. */
  function Rounds(run: seq<LoopEvent>, k: nat, x: string, t: nat): seq<LoopEvent>
    decreases k
  {
    if k == 0 then run else Rounds(run + [Arrive(t, [Known(x)])] + [Flush], k - 1, x, t)
  }

  /** A run, and then so many messages at time t without a flush. */
  function Burst(run: seq<LoopEvent>, more: nat, x: string, t: nat): seq<LoopEvent>
    decreases more
  {
    if more == 0 then run else Burst(run + [Arrive(t, [Known(x)])], more - 1, x, t)
  }

  lemma OneName(x: string)
    ensures Count([Known(x)], x) == 1
  {
    assert [Known(x)][..0] == [];
  }

  /** Only messages at time window so far, i of them, all admitted; the last verdict lets one more in. */
  ghost predicate Open(w: Watch, x: string, window: nat, allowed: nat, i: nat) {
    && Tracks(w, x, window, allowed)
    && |w.audit.history| == i && w.audit.now <= window
    && w.admitted == seq(i, _ => window)
    && (x in w.loop.verdicts ==> w.loop.verdicts[x])
  }

  lemma ArriveIsAdmitted(w: Watch, x: string, t: nat)
    requires x in w.loop.verdicts ==> w.loop.verdicts[x]
    ensures var v := WatchTurn(w, x, Arrive(t, [Known(x)]));
      && v.audit == Times(w.audit, Admit(t), 1) && v.admitted == w.admitted + [t]
      && v.loop.verdicts == w.loop.verdicts && v.flushedAdmitted == w.flushedAdmitted
  {
    OneName(x);
  }

  lemma ArriveStaysOpen(w: Watch, x: string, window: nat, allowed: nat, i: nat)
    requires 0 < window < U64 && Open(w, x, window, allowed, i)
    ensures Allowed(w, x, Arrive(window, [Known(x)]))
    ensures var v := WatchTurn(w, x, Arrive(window, [Known(x)]));
      Open(v, x, window, allowed, i + 1) && v.flushedAdmitted == w.flushedAdmitted
  {
    ArriveIsAdmitted(w, x, window);
    TurnTracks(w, x, Arrive(window, [Known(x)]), window, allowed);
    TimesSteady(w.audit, Admit(window), 1);
    TimesHistory(w.audit, Admit(window), 1);
  }

  lemma FlushStaysOpen(w: Watch, x: string, window: nat, allowed: nat, i: nat)
    requires Open(w, x, window, allowed, i) && i <= allowed
    ensures var v := WatchTurn(w, x, Flush); Open(v, x, window, allowed, i) && v.flushedAdmitted == w.admitted
  {
    TurnTracks(w, x, Flush, window, allowed);
    AtLeastAll(w.audit.history, w.audit.cut);
  }

  /** The run is within its budget and has led to an open watch, with some messages flushed. */
  ghost predicate Led(x: string, window: nat, allowed: nat, d: nat, run: seq<LoopEvent>, i: nat, flushed: nat) {
    var w := FreshWatch(x, window, allowed);
    var v := Watched(w, x, run);
    Budgeted(w, x, run, d) && Open(v, x, window, allowed, i) && |v.flushedAdmitted| == flushed
  }

  lemma ArriveLeadsOn(x: string, window: nat, allowed: nat, d: nat, run: seq<LoopEvent>, i: nat, flushed: nat)
    requires 0 < window < U64 && i < flushed + d && Led(x, window, allowed, d, run, i, flushed)
    ensures Led(x, window, allowed, d, run + [Arrive(window, [Known(x)])], i + 1, flushed)
  {
    var w, e := FreshWatch(x, window, allowed), Arrive(window, [Known(x)]);
    ArriveStaysOpen(Watched(w, x, run), x, window, allowed, i);
    WatchedOneMore(w, x, run, e);
    BudgetedOneMore(w, x, run, e, d);
  }

  lemma FlushLeadsOn(x: string, window: nat, allowed: nat, d: nat, run: seq<LoopEvent>, i: nat, flushed: nat)
    requires i <= allowed && Led(x, window, allowed, d, run, i, flushed)
    ensures Led(x, window, allowed, d, run + [Flush], i, i)
  {
    var w := FreshWatch(x, window, allowed);
    FlushStaysOpen(Watched(w, x, run), x, window, allowed, i);
    WatchedOneMore(w, x, run, Flush);
    BudgetedOneMore(w, x, run, Flush, d);
  }

  lemma {:induction false} RoundsLead(x: string, window: nat, allowed: nat, d: nat,
                                      run: seq<LoopEvent>, i: nat, k: nat, total: nat)
    requires 0 < window < U64 && total == i + k <= allowed && d > 0 && Led(x, window, allowed, d, run, i, i)
    ensures Led(x, window, allowed, d, Rounds(run, k, x, window), total, total)
    decreases k
  {
    if k > 0 {
      ArriveLeadsOn(x, window, allowed, d, run, i, i);
      FlushLeadsOn(x, window, allowed, d, run + [Arrive(window, [Known(x)])], i + 1, i);
      RoundsLead(x, window, allowed, d, run + [Arrive(window, [Known(x)])] + [Flush], i + 1, k - 1, total);
    }
  }

  lemma {:induction false} BurstLeads(x: string, window: nat, allowed: nat, d: nat,
                                      run: seq<LoopEvent>, i: nat, flushed: nat, more: nat, total: nat)
    requires 0 < window < U64 && total == i + more <= flushed + d && Led(x, window, allowed, d, run, i, flushed)
    ensures Led(x, window, allowed, d, Burst(run, more, x, window), total, flushed)
    decreases more
  {
    if more > 0 {
      ArriveLeadsOn(x, window, allowed, d, run, i, flushed);
      BurstLeads(x, window, allowed, d, run + [Arrive(window, [Known(x)])], i + 1, flushed, more - 1, total);
    }
  }

  /** For every allowed count and every d > 0 the bound is reached: as many messages as are allowed, each
      followed by a flush, and then d more at the same time are all admitted within one window. */
  lemma BoundIsTight(x: string, window: nat, allowed: nat, d: nat)
    requires 0 < window < U64 && d > 0
    ensures var w, run := FreshWatch(x, window, allowed), Burst(Rounds([], allowed, x, window), d, x, window);
      && JustAdded(w, x, window, allowed) && Budgeted(w, x, run, d)
      && |Within(Watched(w, x, run).admitted, 0, window)| == allowed + d
  {
    var rounds := Rounds([], allowed, x, window);
    FreshIsLed(x, window, allowed, d);
    RoundsLead(x, window, allowed, d, [], 0, allowed, allowed);
    BurstLeads(x, window, allowed, d, rounds, allowed, allowed, d, allowed + d);
    LedWithin(x, window, allowed, d, Burst(rounds, d, x, window), allowed + d, allowed);
  }

  lemma FreshIsLed(x: string, window: nat, allowed: nat, d: nat)
    ensures JustAdded(FreshWatch(x, window, allowed), x, window, allowed) && Led(x, window, allowed, d, [], 0, 0)
  {}

  lemma LedWithin(x: string, window: nat, allowed: nat, d: nat, run: seq<LoopEvent>, i: nat, flushed: nat)
    requires Led(x, window, allowed, d, run, i, flushed)
    ensures |Within(Watched(FreshWatch(x, window, allowed), x, run).admitted, 0, window)| == i
  {
    AllWithin(Watched(FreshWatch(x, window, allowed), x, run).admitted, window);
  }

  lemma AllWithin(s: seq<nat>, t: nat)
    requires forall i :: 0 <= i < |s| ==> s[i] == t
    ensures |Within(s, 0, t)| == |s|
  {
    WithinAtLeast(s, 0, t);
    AtLeastAll(s, 0);
  }

  lemma WatchedOneMore(w: Watch, x: string, run: seq<LoopEvent>, e: LoopEvent)
    ensures Watched(w, x, run + [e]) == WatchTurn(Watched(w, x, run), x, e)
  {
    assert (run + [e])[..|run|] == run;
  }

  lemma BudgetedOneMore(w: Watch, x: string, run: seq<LoopEvent>, e: LoopEvent, d: nat)
    requires Budgeted(w, x, run, d) && Allowed(Watched(w, x, run), x, e)
    requires |Watched(w, x, run + [e]).admitted| - |Watched(w, x, run + [e]).flushedAdmitted| <= d
    ensures Budgeted(w, x, run + [e], d)
  {
    assert (run + [e])[..|run|] == run;
  }
}
