/** Throttlers that are reconfigured while the loop runs: whatever the updates, the next verdict is about
    the window and the allowed count set last. */
module ThrottlerUpdates {
  import opened Word64
  import opened SlidingLog
  import opened Throttling
  import opened ThrottlingLoop
  import opened AdmissionBound

  /** Messages that name x are timely. */
  predicate InOrder(w: Watch, x: string, e: LoopEvent) {
    e.Arrive? && Known(x) in e.ids ==> w.audit.now <= e.t < U64 && w.audit.th.window <= e.t
  }

  ghost predicate InOrderRun(w: Watch, x: string, run: seq<LoopEvent>) {
    run != [] ==>
      InOrderRun(w, x, run[..|run| - 1]) && InOrder(Watched(w, x, run[..|run| - 1]), x, run[|run| - 1])
  }

  /** The watch knows the throttler and its log. */
  ghost predicate Follows(w: Watch, x: string) {
    && x in w.loop.b.throttlers && w.loop.b.throttlers[x] == w.audit.th
    && Faithful(w.audit) && w.audit.cut <= w.audit.now
  }

  lemma {:induction false} TimesFaithful(a: Audit, e: Event, k: nat)
    requires Faithful(a) && a.cut <= a.now && Fixed(e) && Timely(a, e)
    ensures var b := Times(a, e, k);
      && Faithful(b) && b.cut <= b.now && Timely(b, e)
      && b.th.window == a.th.window && b.th.allowed == a.th.allowed
      && a.cut <= b.cut <= Max(a.cut, e.t - a.th.window)
  {
    if k > 0 {
      TimesFaithful(a, e, k - 1);
      OnceFaithful(Times(a, e, k - 1), e);
    }
  }

  lemma OnceFaithful(a: Audit, e: Event)
    requires Faithful(a) && a.cut <= a.now && Fixed(e) && Timely(a, e)
    ensures var b := Observe(a, e);
      && Faithful(b) && b.cut <= b.now && Timely(b, e)
      && b.th.window == a.th.window && b.th.allowed == a.th.allowed
      && a.cut <= b.cut <= Max(a.cut, e.t - a.th.window)
  {
    ObserveFaithful(a, e);
  }

  lemma TimesCount(a: Audit, e: Event, k: nat)
    requires Faithful(a) && a.cut <= a.now && Fixed(e) && Timely(a, e) && k > 0
    ensures CountsFrom(Times(a, e, k), Max(a.cut, e.t - a.th.window), a.th.allowed)
  {
    TimesFaithful(a, e, k - 1);
    OnceCounts(Times(a, e, k - 1), e, Max(a.cut, e.t - a.th.window), a.th.allowed);
  }

  lemma OnceCounts(b: Audit, e: Event, from: int, allowed: nat)
    requires Faithful(b) && b.cut <= b.now && Fixed(e) && Timely(b, e)
    requires from == Max(b.cut, e.t - b.th.window) && allowed == b.th.allowed
    ensures CountsFrom(Observe(b, e), from, allowed)
  {
    VerdictCounts(b, e);
  }

  lemma UpdateFollows(w: Watch, x: string, e: LoopEvent)
    requires Follows(w, x) && e.UpdateConfig?
    ensures Follows(WatchTurn(w, x, e), x)
  {
    UpdateSets(w.loop.b, e.id, e.kind, e.w, e.n);
    if e.id == x {
      UpdateIsObserved(w.loop.b, x, e.w, e.n, w.audit);
    }
  }

  lemma ArriveFollows(w: Watch, x: string, e: LoopEvent)
    requires Follows(w, x) && e.Arrive? && InOrder(w, x, e)
    ensures Follows(WatchTurn(w, x, e), x)
  {
    var event, k := Evaluation(e.t, Admits(w.loop.verdicts, e.ids)), Count(e.ids, x);
    EvaluateAllOn(w.loop.b, w.loop.verdicts, e.t, e.ids, Admits(w.loop.verdicts, e.ids), x, w.audit);
    CountPositive(e.ids, x);
    if k > 0 {
      TimesFaithful(w.audit, event, k);
    }
  }

  lemma TurnFollows(w: Watch, x: string, e: LoopEvent)
    requires Follows(w, x) && InOrder(w, x, e)
    ensures Follows(WatchTurn(w, x, e), x)
  {
    match e
    case Arrive(_, _) => ArriveFollows(w, x, e);
    case UpdateConfig(_, _, _, _) => UpdateFollows(w, x, e);
    case AddConfig(id, kind, window, allowed) => AddingRegisters(w.loop.b, id, kind, window, allowed);
    case Flush =>
  }

  /** The window and the allowed count set last. */
  function InForce(x: string, run: seq<LoopEvent>, window: nat, allowed: nat): (nat, nat) {
    if run == [] then (window, allowed) else
    match run[|run| - 1]
    case UpdateConfig(id, kind, w, n) =>
      if id == x && kind == "sliding_log" then (w, n) else InForce(x, run[..|run| - 1], window, allowed)
    case _ => InForce(x, run[..|run| - 1], window, allowed)
  }

  lemma TurnConfigures(w: Watch, x: string, e: LoopEvent)
    requires Follows(w, x) && InOrder(w, x, e)
    ensures var th := WatchTurn(w, x, e).audit.th;
      (th.window, th.allowed) ==
        if e.UpdateConfig? && e.id == x && e.kind == "sliding_log" then (e.w, e.n)
        else (w.audit.th.window, w.audit.th.allowed)
  {
    if e.Arrive? {
      CountPositive(e.ids, x);
      if Count(e.ids, x) > 0 {
        TimesFaithful(w.audit, Evaluation(e.t, Admits(w.loop.verdicts, e.ids)), Count(e.ids, x));
      }
    }
  }

  lemma {:induction false} RunFollows(w: Watch, x: string, run: seq<LoopEvent>, window: nat, allowed: nat)
    requires JustAdded(w, x, window, allowed) && InOrderRun(w, x, run)
    ensures var v := Watched(w, x, run);
      Follows(v, x) && (v.audit.th.window, v.audit.th.allowed) == InForce(x, run, window, allowed)
  {
    if run != [] {
      var before, e := run[..|run| - 1], run[|run| - 1];
      RunFollows(w, x, before, window, allowed);
      TurnFollows(Watched(w, x, before), x, e);
      TurnConfigures(Watched(w, x, before), x, e);
    }
  }

  lemma ArriveCounts(w: Watch, x: string, e: LoopEvent)
    requires Follows(w, x) && e.Arrive? && Known(x) in e.ids && InOrder(w, x, e)
    ensures var v := WatchTurn(w, x, e);
            var from := Max(w.audit.cut, e.t - w.audit.th.window);
      x in Latest(v.loop) && (Latest(v.loop)[x] <==> |AtLeast(v.audit.history, from)| <= w.audit.th.allowed)
  {
    var admits := Admits(w.loop.verdicts, e.ids);
    CountPositive(e.ids, x);
    EvaluateAllOn(w.loop.b, w.loop.verdicts, e.t, e.ids, admits, x, w.audit);
    TimesCount(w.audit, Evaluation(e.t, admits), Count(e.ids, x));
  }

  /** In every run of the loop, with any updates: a message that names the throttler at time t brings the
      verdict whether at most n of the admitted time stamps from t - window on fit, window and n being
      those set last; where that window reaches back beyond the last cut, counting begins at the cut. */
  lemma UpdatesTakeEffect(w: Watch, x: string, run: seq<LoopEvent>, window: nat, allowed: nat, e: LoopEvent)
    requires JustAdded(w, x, window, allowed) && InOrderRun(w, x, run)
    requires e.Arrive? && Known(x) in e.ids && InOrder(Watched(w, x, run), x, e)
    ensures var before := Watched(w, x, run);
            var v := WatchTurn(before, x, e);
            var (last, n) := InForce(x, run, window, allowed);
      && x in Latest(v.loop)
      && (Latest(v.loop)[x] <==> |AtLeast(v.audit.history, Max(before.audit.cut, e.t - last))| <= n)
  {
    RunFollows(w, x, run, window, allowed);
    ArriveCounts(Watched(w, x, run), x, e);
  }
}
