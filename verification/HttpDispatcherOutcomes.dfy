/** What becomes of a request for good, and when the dispatcher turns one away. */
module HttpDispatcherOutcomes {
  import opened HttpChannel
  import opened HttpConnection
  import opened HttpDispatcher
  import opened HttpDispatcherLedger
  import opened HttpDispatcherConnections

  predicate Final(p: Place) { p.Answered? || p.Dropped? || p.Abandoned? }

  ghost predicate Extends(n: Machine, m: Machine) {
    m.w.skipped <= n.w.skipped && m.r.skipped <= n.r.skipped
  }

  /** A handler runs once, and its request keeps the key it gets then. */
  ghost predicate KeysStay(d: Dispatcher, e: Dispatcher) {
    && |d.keys| <= |e.keys|
    && forall r: nat :: r < |d.keys| && r !in d.posted ==> r !in e.posted && e.keys[r] == d.keys[r]
  }

  /** Outputs, refusals and skips are only ever added to. */
  ghost predicate Grows(d: Dispatcher, e: Dispatcher) {
    && KeysStay(d, e)
    && d.responses <= e.responses && d.dropped <= e.dropped && d.refused <= e.refused
    && forall k :: Extends(MachineOf(e, k), MachineOf(d, k))
  }

  lemma ChannelGrows(c: Channel, x: nat, i: nat, ok: bool, busy: bool)
    ensures Submit(c, x, busy).skipped == c.skipped
    ensures i < |c.inFlight| ==> c.skipped <= Complete(c, i, ok, busy).skipped
  {}

  lemma PassesOn(c: Dispatcher, d: Dispatcher, e: Dispatcher)
    requires Grows(c, d) && Grows(d, e)
    ensures Grows(c, e)
  {
    forall k
      ensures Extends(MachineOf(e, k), MachineOf(c, k))
    {
      assert Extends(MachineOf(e, k), MachineOf(d, k)) && Extends(MachineOf(d, k), MachineOf(c, k));
    }
  }

  lemma ChangeGrows(d: Dispatcher, e: Dispatcher, k: Key, m: Machine)
    requires k in d.pool && Extends(m, d.pool[k]) && e.pool == d.pool[k := m] && KeysStay(d, e)
    requires d.responses <= e.responses && d.dropped <= e.dropped && d.refused <= e.refused
    ensures Grows(d, e)
  {}

  lemma OutcomeGrows(d: Dispatcher, k: Key, m: Machine, r: nat)
    requires k in d.pool && Extends(m, d.pool[k])
    ensures var e := d.(pool := d.pool[k := m]);
      && Grows(d, ConnectFor(e, k, r)) && Grows(d, Perform(e, k, r)) && Grows(d, ReadFor(e, k, r))
      && Grows(d, e.(dropped := d.dropped + [r])) && Grows(d, e.(responses := d.responses + [r]))
  {
    var e := d.(pool := d.pool[k := m]);
    ChannelGrows(m.w, r, 0, true, WBusy(m.phase));
    ChannelGrows(m.r, r, 0, true, RBusy(m.phase));
    ChangeGrows(d, ConnectFor(e, k, r), k, if m.phase.Resolved? then Connect(m, r) else m);
    ChangeGrows(d, Perform(e, k, r), k, if IsLive(m.phase) then Write(m, r) else m);
    ChangeGrows(d, ReadFor(e, k, r), k, if IsLive(m.phase) then Read(m, r) else m);
    ChangeGrows(d, e.(dropped := d.dropped + [r]), k, m);
    ChangeGrows(d, e.(responses := d.responses + [r]), k, m);
  }

  lemma HandlerGrows(d: Dispatcher, j: nat, host: string, port: string)
    requires j < |d.posted| && d.posted[j] < |d.keys|
    ensures Grows(d, Handle(d, j, host, port))
  {
    var r, k := d.posted[j], Key(false, host, port);
    var d1 := d.(posted := Without(d.posted, j), keys := d.keys[r := k]);
    assert Grows(d, d1);
    if k in d.pool {
      assert d.pool[k := d.pool[k]] == d.pool;
      OutcomeGrows(d1, k, d.pool[k], r);
      PassesOn(d, d1, Handle(d, j, host, port));
    }
  }

  lemma NextGrows(d: Dispatcher, h: Happening)
    ensures Grows(d, Next(d, h))
  {
    if Possible(d, h) {
      match h
      case Message =>
      case Handler(j, host, port) => HandlerGrows(d, j, host, port);
      case Resolution(k, i, ok) => OutcomeGrows(d, k, ResolveDone(d.pool[k], i, ok), d.pool[k].resolves[i]);
      case Connection(k, i, ok) => OutcomeGrows(d, k, ConnectDone(d.pool[k], i, ok), d.pool[k].connects[i]);
      case Written(k, i, ok) =>
        ChannelGrows(d.pool[k].w, 0, i, ok, WBusy(d.pool[k].phase));
        OutcomeGrows(d, k, WriteDone(d.pool[k], i, ok), d.pool[k].w.inFlight[i]);
      case Received(k, i, ok) =>
        ChannelGrows(d.pool[k].r, 0, i, ok, RBusy(d.pool[k].phase));
        OutcomeGrows(d, k, ReadDone(d.pool[k], i, ok), d.pool[k].r.inFlight[i]);
    }
  }

  lemma DispatchedOneMore(run: seq<Happening>, h: Happening)
    ensures Dispatched(run + [h]) == Next(Dispatched(run), h)
  {
    assert (run + [h])[..|run|] == run;
  }

  lemma {:induction false} RunGrows(run: seq<Happening>, more: seq<Happening>)
    ensures Grows(Dispatched(run), Dispatched(run + more))
  {
    if more == [] {
      assert run + more == run;
    } else {
      var n := |more| - 1;
      var mid := run + more[..n];
      RunGrows(run, more[..n]);
      NextGrows(Dispatched(mid), more[n]);
      PassesOn(Dispatched(run), Dispatched(mid), Next(Dispatched(mid), more[n]));
      DispatchedOneMore(mid, more[n]);
      assert run + more == mid + [more[n]];
    }
  }

  lemma PrefixCounts(a: seq<nat>, b: seq<nat>, r: nat)
    requires a <= b
    ensures multiset(a)[r] <= multiset(b)[r]
  {
    assert b == a + b[|a|..];
  }

  lemma FinalGrows(d: Dispatcher, e: Dispatcher, m: Machine, n: Machine, r: nat, p: Place)
    requires d.responses <= e.responses && d.dropped <= e.dropped && d.refused <= e.refused
    requires Extends(n, m) && Final(p)
    ensures Copies(d, m, r, p) <= Copies(e, n, r, p)
  {
    PrefixCounts(d.responses, e.responses, r);
    PrefixCounts(d.dropped, e.dropped, r);
    PrefixCounts(d.refused, e.refused, r);
    PrefixCounts(m.w.skipped, n.w.skipped, r);
    PrefixCounts(m.r.skipped, n.r.skipped, r);
  }

  lemma OneCopy(d: Dispatcher, m: Machine, r: nat, p: Place)
    requires Ledger(d) && r < |d.keys| && m == MachineOf(d, d.keys[r])
    ensures Copies(d, m, r, p) <= 1
  {
    CopiesAddUp(d, r);
    OneOfSum(p => Copies(d, m, r, p), p);
  }

  lemma OneOfSum(f: Place -> nat, p: Place)
    requires Sum(f) == 1
    ensures f(p) <= 1
  {
    Unique(f);
  }

  lemma TwoCopies(d: Dispatcher, m: Machine, r: nat, p: Place, q: Place)
    requires Ledger(d) && r < |d.keys| && m == MachineOf(d, d.keys[r])
    requires p != q && Copies(d, m, r, p) == 1
    ensures Copies(d, m, r, q) == 0
  {
    CopiesAddUp(d, r);
    OnlyOne(p => Copies(d, m, r, p), p, q);
  }

  lemma OnlyOne(f: Place -> nat, p: Place, q: Place)
    requires Sum(f) == 1 && p != q && f(p) == 1
    ensures f(q) == 0
  {
    Unique(f);
  }

  lemma FinalIsNotPosted(d: Dispatcher, m: Machine, r: nat, p: Place)
    requires Ledger(d) && r < |d.keys| && m == MachineOf(d, d.keys[r])
    requires Final(p) && Copies(d, m, r, p) == 1
    ensures r !in d.posted
  {
    TwoCopies(d, m, r, p, Posted);
    assert r in d.posted ==> r in multiset(d.posted);
  }

  lemma FinalStays(d: Dispatcher, e: Dispatcher, r: nat, p: Place)
    requires Ledger(d) && Ledger(e) && Grows(d, e) && r < |d.keys| && Final(p)
    requires Copies(d, MachineOf(d, d.keys[r]), r, p) == 1
    ensures r < |e.keys| && e.keys[r] == d.keys[r] && Copies(e, MachineOf(e, e.keys[r]), r, p) == 1
  {
    var k := d.keys[r];
    FinalIsNotPosted(d, MachineOf(d, k), r, p);
    assert Extends(MachineOf(e, k), MachineOf(d, k));
    FinalGrows(d, e, MachineOf(d, k), MachineOf(e, k), r, p);
    OneCopy(e, MachineOf(e, k), r, p);
  }

  /** A request that was answered, dropped or abandoned stays so, whatever happens later. */
  lemma OutcomesAreFinal(run: seq<Happening>, more: seq<Happening>, r: nat, p: Place)
    requires r < |Dispatched(run).keys| && Final(p)
    requires var d := Dispatched(run); Copies(d, MachineOf(d, d.keys[r]), r, p) == 1
    ensures var e := Dispatched(run + more);
      && r < |e.keys| && e.keys[r] == Dispatched(run).keys[r]
      && Copies(e, MachineOf(e, e.keys[r]), r, p) == 1
  {
    EveryDispatchBalances(run);
    EveryDispatchBalances(run + more);
    RunGrows(run, more);
    FinalStays(Dispatched(run), Dispatched(run + more), r, p);
  }

  // ---------------------------------------------------------------------------------------------
  // When a request is lost
  // ---------------------------------------------------------------------------------------------

  lemma WrittenPhase(m: Machine, i: nat)
    requires i < |m.w.inFlight|
    ensures IsLive(WriteDone(m, i, true).phase) == IsLive(m.phase)
  {}

  predicate TurnsAway(d: Dispatcher, h: Happening)
    requires Possible(d, h)
  {
    match h
    case Handler(_, host, port) =>
      var k := Key(false, host, port);
      k in d.pool && d.pool[k].phase in {Phase.NotConnected, Phase.Resolving, Phase.Connecting, Phase.Error}
    case Written(k, i, ok) => ok && !IsLive(d.pool[k].phase)
    case _ => false
  }

  /** The request that a handler or a completed write is about. */
  function Subject(d: Dispatcher, h: Happening): nat
    requires Possible(d, h) && (h.Handler? || h.Written?)
  {
    if h.Handler? then d.posted[h.j] else d.pool[h.k].w.inFlight[h.i]
  }

  lemma RefusedExactly(d: Dispatcher, h: Happening)
    requires Possible(d, h)
    requires h.Resolution? ==> d.pool[h.k].phase.Resolving?
    requires h.Connection? ==> d.pool[h.k].phase.Connecting?
    ensures Next(d, h).refused == d.refused + if TurnsAway(d, h) then [Subject(d, h)] else []
  {
    if h.Written? {
      WrittenPhase(d.pool[h.k], h.i);
    }
  }

  /** The dispatcher turns a request away in two cases only: its handler finds the machine neither
      connected nor ready to reconnect, or its write completes after the connection was lost. In
      particular the connect after a resolve and the write after a connect are never refused. */
  lemma RefusedExactlyWhen(run: seq<Happening>, h: Happening)
    requires Possible(Dispatched(run), h)
    ensures var d := Dispatched(run);
      Next(d, h).refused == d.refused + if TurnsAway(d, h) then [Subject(d, h)] else []
  {
    EveryDispatchBalances(run);
    RefusedExactly(Dispatched(run), h);
  }

  /** The head of the queue has not been started: it was queued first while the channel was busy, or
      the connection was lost while it was waiting. */
  function NextSkip(c: Channel, busy: bool): seq<nat> {
    if busy && c.queue != [] && !c.headStarted then [c.queue[0]] else []
  }

  function SkippedWrite(d: Dispatcher, h: Happening, k: Key): seq<nat> {
    if h.Written? && h.k == k && Possible(d, h) then NextSkip(d.pool[k].w, WBusy(d.pool[k].phase)) else []
  }

  function SkippedRead(d: Dispatcher, h: Happening, k: Key): seq<nat> {
    if h.Received? && h.k == k && Possible(d, h) then NextSkip(d.pool[k].r, RBusy(d.pool[k].phase)) else []
  }

  lemma ChannelSkips(c: Channel, x: nat, i: nat, ok: bool, busy: bool)
    ensures Submit(c, x, busy).skipped == c.skipped
    ensures i < |c.inFlight| ==> Complete(c, i, ok, busy).skipped == c.skipped + NextSkip(c, busy)
  {}

  lemma StepSkips(m: Machine, e: Event)
    ensures Step(m, e).w.skipped ==
              m.w.skipped + if e.OnWrite? && Enabled(m, e) then NextSkip(m.w, WBusy(m.phase)) else []
    ensures Step(m, e).r.skipped ==
              m.r.skipped + if e.OnRead? && Enabled(m, e) then NextSkip(m.r, RBusy(m.phase)) else []
  {
    if e.OnWrite? && Enabled(m, e) {
      ChannelSkips(m.w, 0, e.i, e.ok, WBusy(m.phase));
    } else if e.OnRead? && Enabled(m, e) {
      ChannelSkips(m.r, 0, e.i, e.ok, RBusy(m.phase));
    }
  }

  lemma TwoStepsSkip(m: Machine, e: Event, call: Event)
    requires IsCall(call)
    ensures Step(Step(m, e), call).w.skipped == Step(m, e).w.skipped
    ensures Step(Step(m, e), call).r.skipped == Step(m, e).r.skipped
  {
    StepSkips(Step(m, e), call);
  }

  lemma EventsSkip(d: Dispatcher, h: Happening, k: Key)
    ensures var m, events := MachineOf(d, k), Events(d, h, k);
      && |events| <= 2 && (|events| == 2 ==> IsCall(events[1]))
      && SkippedWrite(d, h, k) ==
           (if events != [] && events[0].OnWrite? && Enabled(m, events[0]) then NextSkip(m.w, WBusy(m.phase)) else [])
      && SkippedRead(d, h, k) ==
           (if events != [] && events[0].OnRead? && Enabled(m, events[0]) then NextSkip(m.r, RBusy(m.phase)) else [])
  {}

  lemma NextSkips(d: Dispatcher, h: Happening, k: Key)
    ensures MachineOf(Next(d, h), k).w.skipped == MachineOf(d, k).w.skipped + SkippedWrite(d, h, k)
    ensures MachineOf(Next(d, h), k).r.skipped == MachineOf(d, k).r.skipped + SkippedRead(d, h, k)
  {
    var m, events := MachineOf(d, k), Events(d, h, k);
    NextIsSteps(d, h, k);
    EventsSkip(d, h, k);
    if events != [] {
      StepSkips(m, events[0]);
      if |events| == 2 {
        TwoStepsSkip(m, events[0], events[1]);
      }
    }
  }

  ghost function Abandonments(d: Dispatcher, r: nat): nat
    requires r < |d.keys|
  {
    Copies(d, MachineOf(d, d.keys[r]), r, Abandoned)
  }

  ghost predicate IsAbandoned(d: Dispatcher, r: nat) {
    r < |d.keys| && Abandonments(d, r) == 1
  }

  /** h turns r away, or completes an operation on a busy channel at the head of whose queue r waits
      without having been started. */
  predicate Loses(d: Dispatcher, h: Happening, r: nat)
    requires Possible(d, h)
  {
    || (TurnsAway(d, h) && Subject(d, h) == r)
    || (h.Written? && r in SkippedWrite(d, h, h.k))
    || (h.Received? && r in SkippedRead(d, h, h.k))
  }

  lemma AbandonedCount(d: Dispatcher, e: Dispatcher, h: Happening, r: nat, k: Key)
    requires Possible(d, h) && e == Next(d, h)
    requires e.refused == d.refused + if TurnsAway(d, h) then [Subject(d, h)] else []
    ensures Copies(e, MachineOf(e, k), r, Abandoned) == Copies(d, MachineOf(d, k), r, Abandoned) + Losses(d, h, r, k)
  {
    NextSkips(d, h, k);
  }

  lemma KeysKept(d: Dispatcher, e: Dispatcher, h: Happening, r: nat)
    requires Possible(d, h) && r < |d.keys| && e == Next(d, h)
    ensures |d.keys| <= |e.keys| && (!h.Handler? || d.posted[h.j] != r ==> e.keys[r] == d.keys[r])
  {}

  /** Only the machine of r's own key can skip r. */
  lemma SkipsItsOwn(d: Dispatcher, h: Happening, r: nat)
    requires Ledger(d) && Possible(d, h)
    ensures h.Written? && r in SkippedWrite(d, h, h.k) ==> r < |d.keys| && d.keys[r] == h.k
    ensures h.Received? && r in SkippedRead(d, h, h.k) ==> r < |d.keys| && d.keys[r] == h.k
  {
    if h.Written? && r in SkippedWrite(d, h, h.k) {
      HeadIsHeld(d, h.k, d.pool[h.k].w, r);
    } else if h.Received? && r in SkippedRead(d, h, h.k) {
      HeadIsHeld(d, h.k, d.pool[h.k].r, r);
    }
  }

  lemma HeadIsHeld(d: Dispatcher, k: Key, c: Channel, r: nat)
    requires Ledger(d) && k in d.pool && (c == d.pool[k].w || c == d.pool[k].r) && r in Waiting(c)
    ensures r < |d.keys| && d.keys[r] == k
  {
    HeldByCount(d.pool[k], r);
    assert r in multiset(Waiting(c));
    assert At(Holdings(d), k, r) == HeldBy(d.pool[k])[r];
  }

  lemma OutsideIsNotHeld(d: Dispatcher, r: nat, k: Key)
    requires Ledger(d) && r < |d.keys| && Outside(d)[r] > 0
    ensures HeldBy(MachineOf(d, k))[r] == 0
  {
    HeldByCount(MachineOf(d, k), r);
    assert At(Holdings(d), k, r) == HeldBy(MachineOf(d, k))[r];
    assert Outside(d)[r] + At(Holdings(d), d.keys[r], r) == 1;
  }

  lemma OutsideOnce(d: Dispatcher, r: nat)
    requires Ledger(d) && r < |d.keys|
    ensures Outside(d)[r] <= 1
  {
    assert Outside(d)[r] + At(Holdings(d), d.keys[r], r) == 1;
  }

  lemma NotHeldNotSkipped(m: Machine, r: nat)
    requires HeldBy(m)[r] == 0
    ensures multiset(m.w.skipped)[r] == 0 && multiset(m.r.skipped)[r] == 0
  {
    HeldByCount(m, r);
  }

  lemma PostedIsNotAbandoned(d: Dispatcher, r: nat, k: Key)
    requires Ledger(d) && r < |d.keys| && r in d.posted
    ensures Copies(d, MachineOf(d, k), r, Abandoned) == 0
  {
    assert r in multiset(d.posted);
    OutsideCount(d, r);
    OutsideOnce(d, r);
    OutsideIsNotHeld(d, r, k);
    NotHeldNotSkipped(MachineOf(d, k), r);
  }

  lemma HandlerLoses(d: Dispatcher, e: Dispatcher, h: Happening, r: nat)
    requires Ledger(d) && Possible(d, h) && e == Next(d, h) && r < |d.keys| <= |e.keys|
    requires h.Handler? && d.posted[h.j] == r
    ensures Abandonments(e, r) == Abandonments(d, r) + if Loses(d, h, r) then 1 else 0
  {
    RefusedExactly(d, h);
    AbandonedCount(d, e, h, r, e.keys[r]);
    PostedIsNotAbandoned(d, r, e.keys[r]);
    PostedIsNotAbandoned(d, r, d.keys[r]);
  }

  /** How often h makes r abandoned, counted in one machine. */
  ghost function Losses(d: Dispatcher, h: Happening, r: nat, k: Key): nat
    requires Possible(d, h)
  {
    (if TurnsAway(d, h) && Subject(d, h) == r then 1 else 0)
    + multiset(SkippedWrite(d, h, k))[r] + multiset(SkippedRead(d, h, k))[r]
  }

  lemma CountsIn(s: seq<nat>, r: nat)
    ensures multiset(s)[r] > 0 <==> r in s
  {
    assert r in s <==> r in multiset(s);
  }

  lemma LossesAreOne(d: Dispatcher, h: Happening, r: nat)
    requires Ledger(d) && Possible(d, h) && r < |d.keys|
    ensures (Losses(d, h, r, d.keys[r]) > 0 <==> Loses(d, h, r))
  {
    SkipsItsOwn(d, h, r);
    CountsIn(SkippedWrite(d, h, d.keys[r]), r);
    CountsIn(SkippedRead(d, h, d.keys[r]), r);
  }

  lemma OthersLose(d: Dispatcher, e: Dispatcher, h: Happening, r: nat)
    requires Ledger(d) && Ledger(e) && Possible(d, h) && e == Next(d, h) && r < |d.keys| <= |e.keys|
    requires e.keys[r] == d.keys[r] && (h.Handler? ==> d.posted[h.j] != r)
    ensures Abandonments(e, r) == Abandonments(d, r) + if Loses(d, h, r) then 1 else 0
  {
    LedgerRefuses(d, h);
    AbandonedCount(d, e, h, r, d.keys[r]);
    LossesAreOne(d, h, r);
    AtMostOnePlace(e, r);
  }

  lemma LedgerRefuses(d: Dispatcher, h: Happening)
    requires Ledger(d) && Possible(d, h)
    ensures Next(d, h).refused == d.refused + if TurnsAway(d, h) then [Subject(d, h)] else []
  {
    RefusedExactly(d, h);
  }

  lemma NextLoses(d: Dispatcher, e: Dispatcher, h: Happening, r: nat)
    requires Ledger(d) && Ledger(e) && Possible(d, h) && e == Next(d, h) && r < |d.keys| <= |e.keys|
    ensures Abandonments(e, r) == Abandonments(d, r) + if Loses(d, h, r) then 1 else 0
  {
    KeysKept(d, e, h, r);
    if h.Handler? && d.posted[h.j] == r {
      HandlerLoses(d, e, h, r);
    } else {
      OthersLose(d, e, h, r);
    }
  }

  lemma AtMostOnePlace(d: Dispatcher, r: nat)
    requires Ledger(d) && r < |d.keys|
    ensures Abandonments(d, r) <= 1
  {
    CopiesAddUp(d, r);
  }

  /** At some moment of the run r was turned away or skipped. */
  predicate LostIn(run: seq<Happening>, r: nat) {
    run != [] &&
    var d, h := Dispatched(run[..|run| - 1]), run[|run| - 1];
    LostIn(run[..|run| - 1], r) || (r < |d.keys| && Possible(d, h) && Loses(d, h, r))
  }

  lemma NewIsPosted(d: Dispatcher, h: Happening, r: nat)
    requires |d.keys| <= r < |Next(d, h).keys|
    ensures r in Next(d, h).posted
  {
    assert h.Message? && Next(d, h).posted[|d.posted|] == r;
  }

  lemma NewIsNotAbandoned(d: Dispatcher, h: Happening, r: nat)
    requires Ledger(Next(d, h)) && |d.keys| <= r
    ensures !IsAbandoned(Next(d, h), r)
  {
    var e := Next(d, h);
    if r < |e.keys| {
      NewIsPosted(d, h, r);
      PostedIsNotAbandoned(e, r, e.keys[r]);
    }
  }

  lemma AbandonedNext(d: Dispatcher, e: Dispatcher, h: Happening, r: nat)
    requires Ledger(d) && Ledger(e) && Possible(d, h) && e == Next(d, h) && r < |d.keys|
    ensures IsAbandoned(e, r) && !IsAbandoned(d, r) <==> Loses(d, h, r)
    ensures IsAbandoned(d, r) ==> IsAbandoned(e, r)
  {
    KeysKept(d, e, h, r);
    NextLoses(d, e, h, r);
    AtMostOnePlace(d, r);
    AtMostOnePlace(e, r);
  }

  /** In every run, with any errors and reconnects, a request is lost at a happening if and only if its
      handler or the completion of its write is turned away, or it waits, never started, at the head of
      the queue of a busy channel on which an operation completes. */
  lemma LostExactlyWhen(run: seq<Happening>, h: Happening, r: nat)
    requires Possible(Dispatched(run), h) && r < |Dispatched(run).keys|
    ensures var d := Dispatched(run);
      IsAbandoned(Next(d, h), r) && !IsAbandoned(d, r) <==> Loses(d, h, r)
  {
    EveryDispatchBalances(run);
    NextLedger(Dispatched(run), h);
    AbandonedNext(Dispatched(run), Next(Dispatched(run), h), h, r);
  }

  /** In every run, with any errors and reconnects, a request ends up abandoned if and only if at some
      moment it was lost in one of these ways. */
  lemma {:induction false} AbandonedExactlyWhen(run: seq<Happening>, r: nat)
    ensures IsAbandoned(Dispatched(run), r) <==> LostIn(run, r)
  {
    if run != [] {
      var before, h := run[..|run| - 1], run[|run| - 1];
      var d := Dispatched(before);
      AbandonedExactlyWhen(before, r);
      EveryDispatchBalances(before);
      EveryDispatchBalances(run);
      if |d.keys| <= r {
        NewIsNotAbandoned(d, h, r);
        assert !LostIn(before, r);
      } else if Possible(d, h) {
        AbandonedNext(d, Dispatched(run), h, r);
      }
    }
  }

  // ---------------------------------------------------------------------------------------------
  // Dead connections
  // ---------------------------------------------------------------------------------------------

  predicate Dead(m: Machine) { m.phase.NotConnected? || m.phase.Error? }

  lemma DeadStep(d: Dispatcher, k: Key, h: Happening)
    requires k in d.pool && Dead(d.pool[k])
    ensures var e := Next(d, h); k in e.pool && e.pool[k].phase == d.pool[k].phase
  {
    if Possible(d, h) && h.Written? {
      WrittenPhase(d.pool[h.k], h.i);
    }
  }

  /** Once a resolve or a connect has failed, the machine stays in the pool under its key and never
      leaves its state: nothing reconnects it, so the handler of every later request for that key is
      turned away. */
  lemma {:induction false} DeadForever(run: seq<Happening>, more: seq<Happening>, k: Key)
    requires k in Dispatched(run).pool && Dead(Dispatched(run).pool[k])
    ensures var e := Dispatched(run + more);
      && k in e.pool && e.pool[k].phase == Dispatched(run).pool[k].phase
      && forall j, host, port ::
           Possible(e, Handler(j, host, port)) && Key(false, host, port) == k ==> TurnsAway(e, Handler(j, host, port))
  {
    if more == [] {
      assert run + more == run;
    } else {
      var n := |more| - 1;
      DeadForever(run, more[..n], k);
      assert (run + more)[..|run + more| - 1] == run + more[..n];
      DeadStep(Dispatched(run + more[..n]), k, more[n]);
    }
  }

  ghost predicate DeadIn(d: Dispatcher, k: Key) {
    k in d.pool && Dead(d.pool[k])
  }

  predicate FailsAt(d: Dispatcher, h: Happening, k: Key) {
    (h.Resolution? || h.Connection?) && h.k == k && !h.ok && Possible(d, h)
  }

  /** A resolve or a connect for the key failed at some moment of the run. */
  predicate FailedIn(run: seq<Happening>, k: Key) {
    run != [] &&
    (FailedIn(run[..|run| - 1], k) || FailsAt(Dispatched(run[..|run| - 1]), run[|run| - 1], k))
  }

  predicate Fails(m: Machine, e: Event) {
    (e.OnResolve? || e.OnConnect?) && Enabled(m, e) && !e.ok
  }

  lemma WriteDoneDead(m: Machine, i: nat, ok: bool)
    requires i < |m.w.inFlight|
    ensures Dead(WriteDone(m, i, ok)) <==> Dead(m)
  {}

  lemma ReadDoneDead(m: Machine, i: nat, ok: bool)
    requires i < |m.r.inFlight|
    ensures Dead(ReadDone(m, i, ok)) <==> Dead(m)
  {}

  lemma CallDead(m: Machine, x: nat)
    ensures (Dead(Write(m, x)) <==> Dead(m)) && (Dead(Read(m, x)) <==> Dead(m))
    ensures Dead(Connect(m, x)) <==> Dead(m)
  {}

  lemma AwaitDead(m: Machine, i: nat, ok: bool)
    requires Waits(m)
    ensures i < |m.resolves| ==> (Dead(ResolveDone(m, i, ok)) <==> Dead(m) || !ok)
    ensures i < |m.connects| ==> (Dead(ConnectDone(m, i, ok)) <==> Dead(m) || !ok)
  {}

  lemma StepDead(m: Machine, e: Event)
    requires Waits(m) && !e.CallResolve?
    ensures Dead(Step(m, e)) <==> Dead(m) || Fails(m, e)
  {
    if Enabled(m, e) {
      match e
      case OnWrite(i, ok) => WriteDoneDead(m, i, ok);
      case OnRead(i, ok) => ReadDoneDead(m, i, ok);
      case OnResolve(i, ok) => AwaitDead(m, i, ok);
      case OnConnect(i, ok) => AwaitDead(m, i, ok);
      case CallConnect(x) => CallDead(m, x);
      case CallWrite(x) => CallDead(m, x);
      case CallRead(x) => CallDead(m, x);
    }
  }

  lemma TwoStepsDead(m: Machine, e: Event, call: Event)
    requires Sound(m) && !e.CallResolve? && IsCall(call) && !call.CallResolve?
    ensures Dead(Step(Step(m, e), call)) <==> Dead(m) || Fails(m, e)
  {
    StepDead(m, e);
    StepSound(m, e);
    StepDead(Step(m, e), call);
  }

  lemma EventsFail(d: Dispatcher, h: Happening, k: Key)
    requires k in d.pool
    ensures var events := Events(d, h, k);
      && |events| <= 2
      && (forall e :: e in events ==> !e.CallResolve?)
      && (|events| == 2 ==> IsCall(events[1]))
      && (FailsAt(d, h, k) <==> events != [] && Fails(d.pool[k], events[0]))
      && k in Next(d, h).pool
  {}

  lemma PooledDead(d: Dispatcher, h: Happening, k: Key)
    requires k in d.pool && Sound(d.pool[k])
    ensures DeadIn(Next(d, h), k) <==> DeadIn(d, k) || FailsAt(d, h, k)
  {
    var m, events := d.pool[k], Events(d, h, k);
    EventsFail(d, h, k);
    NextIsSteps(d, h, k);
    if |events| == 1 {
      StepDead(m, events[0]);
    } else if |events| == 2 {
      TwoStepsDead(m, events[0], events[1]);
    }
  }

  lemma NewIsAlive(d: Dispatcher, h: Happening, k: Key)
    requires k !in d.pool
    ensures !DeadIn(Next(d, h), k) && !FailsAt(d, h, k)
  {}

  /** A connection is dead if and only if a resolve or a connect for its key failed. */
  lemma {:induction false} DeadExactlyWhen(run: seq<Happening>, k: Key)
    ensures DeadIn(Dispatched(run), k) <==> FailedIn(run, k)
  {
    if run != [] {
      var d, h := Dispatched(run[..|run| - 1]), run[|run| - 1];
      DeadExactlyWhen(run[..|run| - 1], k);
      EveryDispatchBalances(run[..|run| - 1]);
      if k in d.pool {
        PooledDead(d, h, k);
      } else {
        NewIsAlive(d, h, k);
      }
    }
  }

  // ---------------------------------------------------------------------------------------------
  // Broken connections
  // ---------------------------------------------------------------------------------------------

  /** A write of a writing connection or a read of a reading one fails. */
  predicate BreaksAt(d: Dispatcher, h: Happening) {
    && Possible(d, h)
    && ((h.Written? && !h.ok && WBusy(d.pool[h.k].phase)) || (h.Received? && !h.ok && RBusy(d.pool[h.k].phase)))
  }

  lemma BreakResolves(d: Dispatcher, h: Happening)
    requires BreaksAt(d, h)
    ensures h.k in Next(d, h).pool && Next(d, h).pool[h.k].phase.Resolved?
    ensures Next(d, h).pool[h.k].connects == d.pool[h.k].connects
  {
    if h.Written? {
      WriteFailureBreaks(d.pool[h.k], h.i);
    } else {
      ReadFailureBreaks(d.pool[h.k], h.i);
    }
  }

  lemma ResolvedConnects(d: Dispatcher, j: nat, host: string, port: string)
    requires Possible(d, Handler(j, host, port))
    requires var k := Key(false, host, port); k in d.pool && d.pool[k].phase.Resolved? && d.pool[k].connects == []
    ensures var e, k := Handle(d, j, host, port), Key(false, host, port);
      && k in e.pool && e.pool[k].phase.Connecting? && e.pool[k].connects == [d.posted[j]]
      && e.refused == d.refused
  {}

  /** A connection on which an operation failed is used again only through a reconnect: the next handler
      for its key connects for its request, and refuses nothing. */
  lemma BrokenIsReconnected(run: seq<Happening>, h: Happening, j: nat, host: string, port: string)
    requires BreaksAt(Dispatched(run), h)
    requires Possible(Next(Dispatched(run), h), Handler(j, host, port)) && Key(false, host, port) == h.k
    ensures var e := Next(Dispatched(run), h);
            var f := Next(e, Handler(j, host, port));
      && h.k in f.pool && f.pool[h.k].phase.Connecting? && f.pool[h.k].connects == [e.posted[j]]
      && f.refused == e.refused
  {
    EveryDispatchBalances(run);
    BreakResolves(Dispatched(run), h);
    BusyIsNotConnecting(Dispatched(run).pool[h.k]);
    ResolvedConnects(Next(Dispatched(run), h), j, host, port);
  }

  lemma BusyIsNotConnecting(m: Machine)
    requires Sound(m) && IsLive(m.phase)
    ensures m.connects == []
  {}

  /** In every run a connection of the pool is usable if and only if, in what happened to it, some connect
      succeeded and no operation has failed on a busy channel since. */
  lemma PooledLiveExactlyWhen(run: seq<Happening>, k: Key)
    requires k in Dispatched(run).pool
    ensures IsLive(Dispatched(run).pool[k].phase) <==>
              exists i :: 0 <= i < |Trace(run, k)| && LastedSince(Trace(run, k), i)
  {
    EachConnectionIsARun(run, k);
    LiveExactlyWhen(Trace(run, k));
  }
}
