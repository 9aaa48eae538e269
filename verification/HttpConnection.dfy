/** The nine-state connection as a transition system on values. A connected machine is the product
    of two independent channels, one for writes and one for reads; the handler table is recovered
    from it by `Live`. The imperative machine in HttpConnectionStateMachine is proved to take
    exactly these steps. */
module HttpConnection {
  import opened HttpChannel

  datatype Phase =
    | NotConnected | Resolving | Resolved | Connecting
    | Connected | Writing | Reading | WritingAndReading | Error

  datatype Machine = Machine(
    phase: Phase,
    resolves: seq<nat>,  // resolve operations in flight
    connects: seq<nat>,  // connect operations in flight
    w: Channel,
    r: Channel
  )

  const FRESH: Machine := Machine(NotConnected, [], [], EMPTY, EMPTY)

  predicate WBusy(p: Phase) { p.Writing? || p.WritingAndReading? }

  predicate RBusy(p: Phase) { p.Reading? || p.WritingAndReading? }

  predicate IsLive(p: Phase) { p.Connected? || WBusy(p) || RBusy(p) }

  function Live(w: bool, r: bool): Phase {
    if w then (if r then WritingAndReading else Writing) else (if r then Reading else Connected)
  }

  // The public calls.

  function Resolve(m: Machine, x: nat): Machine {
    if m.phase.NotConnected? then m.(phase := Resolving, resolves := m.resolves + [x]) else m
  }

  function Connect(m: Machine, x: nat): Machine {
    if m.phase.Resolved? then m.(phase := Connecting, connects := m.connects + [x]) else m
  }

  function Write(m: Machine, x: nat): Machine {
    if !IsLive(m.phase) then m
    else m.(phase := Live(true, RBusy(m.phase)), w := Submit(m.w, x, WBusy(m.phase)))
  }

  function Read(m: Machine, x: nat): Machine {
    if !IsLive(m.phase) then m
    else m.(phase := Live(WBusy(m.phase), true), r := Submit(m.r, x, RBusy(m.phase)))
  }

  // The completions of the i-th operation in flight of their kind.

  function ResolveDone(m: Machine, i: nat, ok: bool): Machine
    requires i < |m.resolves|
  {
    m.(resolves := Without(m.resolves, i),
       phase := if !m.phase.Resolving? then m.phase else if ok then Resolved else Error)
  }

  function ConnectDone(m: Machine, i: nat, ok: bool): Machine
    requires i < |m.connects|
  {
    m.(connects := Without(m.connects, i),
       phase := if !m.phase.Connecting? then m.phase else if ok then Connected else NotConnected)
  }

  function WriteDone(m: Machine, i: nat, ok: bool): Machine
    requires i < |m.w.inFlight|
  {
    AfterWrite(m, Complete(m.w, i, ok, WBusy(m.phase)), ok)
  }

  function ReadDone(m: Machine, i: nat, ok: bool): Machine
    requires i < |m.r.inFlight|
  {
    AfterRead(m, Complete(m.r, i, ok, RBusy(m.phase)), ok)
  }

  function AfterWrite(m: Machine, w: Channel, ok: bool): Machine {
    m.(w := w,
       phase := if !WBusy(m.phase) then m.phase else if ok then Live(w.queue != [], RBusy(m.phase)) else Resolved)
  }

  function AfterRead(m: Machine, r: Channel, ok: bool): Machine {
    m.(r := r,
       phase := if !RBusy(m.phase) then m.phase else if ok then Live(WBusy(m.phase), r.queue != []) else Resolved)
  }

  datatype Event =
    | CallResolve(id: nat) | CallConnect(id: nat) | CallWrite(id: nat) | CallRead(id: nat)
    | OnResolve(i: nat, ok: bool) | OnConnect(i: nat, ok: bool) | OnWrite(i: nat, ok: bool) | OnRead(i: nat, ok: bool)

  /** A completion can only happen to an operation in flight. */
  predicate Enabled(m: Machine, e: Event) {
    match e
    case OnResolve(i, _) => i < |m.resolves|
    case OnConnect(i, _) => i < |m.connects|
    case OnWrite(i, _) => i < |m.w.inFlight|
    case OnRead(i, _) => i < |m.r.inFlight|
    case _ => true
  }

  function Step(m: Machine, e: Event): Machine {
    if !Enabled(m, e) then m else
    match e
    case CallResolve(x) => Resolve(m, x)
    case CallConnect(x) => Connect(m, x)
    case CallWrite(x) => Write(m, x)
    case CallRead(x) => Read(m, x)
    case OnResolve(i, ok) => ResolveDone(m, i, ok)
    case OnConnect(i, ok) => ConnectDone(m, i, ok)
    case OnWrite(i, ok) => WriteDone(m, i, ok)
    case OnRead(i, ok) => ReadDone(m, i, ok)
  }

  /** The state of a fresh machine after any interleaving of calls and completions; user callbacks
      re-enter the machine through calls, which are events of their own. */
  function After(run: seq<Event>): Machine {
    if run == [] then FRESH else Step(After(run[..|run| - 1]), run[|run| - 1])
  }

  // ---------------------------------------------------------------------------------------------
  // Every run: accounting
  // ---------------------------------------------------------------------------------------------

  ghost predicate Sound(m: Machine) {
    && Balanced(m.w) && SkipsBounded(m.w, WBusy(m.phase))
    && Balanced(m.r) && SkipsBounded(m.r, RBusy(m.phase))
    && Waits(m)
  }

  lemma AfterWriteSound(m: Machine, w: Channel, ok: bool)
    requires Sound(m) && Balanced(w) && SkipsBounded(w, WBusy(m.phase) && ok && w.queue != [])
    ensures Sound(AfterWrite(m, w, ok))
  {}

  lemma AfterReadSound(m: Machine, r: Channel, ok: bool)
    requires Sound(m) && Balanced(r) && SkipsBounded(r, RBusy(m.phase) && ok && r.queue != [])
    ensures Sound(AfterRead(m, r, ok))
  {}

  lemma WriteSound(m: Machine, x: nat)
    requires Sound(m)
    ensures Sound(Write(m, x))
    ensures Held(Write(m, x).w) == Held(m.w) + if IsLive(m.phase) then multiset{x} else multiset{}
  {
    SubmitAccounts(m.w, x, WBusy(m.phase));
  }

  lemma ReadSound(m: Machine, x: nat)
    requires Sound(m)
    ensures Sound(Read(m, x))
    ensures Held(Read(m, x).r) == Held(m.r) + if IsLive(m.phase) then multiset{x} else multiset{}
  {
    SubmitAccounts(m.r, x, RBusy(m.phase));
  }

  lemma WriteDoneSound(m: Machine, i: nat, ok: bool)
    requires Sound(m) && i < |m.w.inFlight|
    ensures Sound(WriteDone(m, i, ok))
    ensures Held(WriteDone(m, i, ok).w) + multiset{m.w.inFlight[i]} == Held(m.w)
  {
    CompleteAccounts(m.w, i, ok, WBusy(m.phase));
    AfterWriteSound(m, Complete(m.w, i, ok, WBusy(m.phase)), ok);
  }

  lemma ReadDoneSound(m: Machine, i: nat, ok: bool)
    requires Sound(m) && i < |m.r.inFlight|
    ensures Sound(ReadDone(m, i, ok))
    ensures Held(ReadDone(m, i, ok).r) + multiset{m.r.inFlight[i]} == Held(m.r)
  {
    CompleteAccounts(m.r, i, ok, RBusy(m.phase));
    AfterReadSound(m, Complete(m.r, i, ok, RBusy(m.phase)), ok);
  }

  lemma AwaitSound(m: Machine, e: Event)
    requires Sound(m) && (e.CallResolve? || e.CallConnect? || e.OnResolve? || e.OnConnect?)
    ensures Sound(Step(m, e))
  {
    AwaitWaits(m, e);
    SameChannelsSound(m, Step(m, e));
  }

  /** What is waited for is in flight, exactly in the state that waits for it. */
  ghost predicate Waits(m: Machine) {
    && |m.resolves| == (if m.phase.Resolving? then 1 else 0)
    && |m.connects| == (if m.phase.Connecting? then 1 else 0)
  }

  lemma AwaitWaits(m: Machine, e: Event)
    requires Waits(m) && (e.CallResolve? || e.CallConnect? || e.OnResolve? || e.OnConnect?)
    ensures var n := Step(m, e);
      && Waits(n) && n.w == m.w && n.r == m.r
      && (WBusy(n.phase) ==> WBusy(m.phase)) && (RBusy(n.phase) ==> RBusy(m.phase))
  {}

  lemma SameChannelsSound(m: Machine, n: Machine)
    requires Sound(m) && Waits(n) && n.w == m.w && n.r == m.r
    requires (WBusy(n.phase) ==> WBusy(m.phase)) && (RBusy(n.phase) ==> RBusy(m.phase))
    ensures Sound(n)
  {}

  lemma StepSound(m: Machine, e: Event)
    requires Sound(m)
    ensures Sound(Step(m, e))
  {
    if e.CallWrite? {
      WriteSound(m, e.id);
    } else if e.CallRead? {
      ReadSound(m, e.id);
    } else if !(e.OnWrite? || e.OnRead?) {
      AwaitSound(m, e);
    } else if Enabled(m, e) {
      if e.OnWrite? { WriteDoneSound(m, e.i, e.ok); } else { ReadDoneSound(m, e.i, e.ok); }
    }
  }

  /** In every run, with any errors, leftovers and reconnects: accepted operations are conserved, a
      channel skips at most one operation for each one it started directly, and at most one resolve
      and one connect are in flight, exactly in the states that wait for them. */
  lemma {:induction false} EveryRunIsAccounted(run: seq<Event>)
    ensures Sound(After(run))
  {
    if run != [] {
      EveryRunIsAccounted(run[..|run| - 1]);
      StepSound(After(run[..|run| - 1]), run[|run| - 1]);
    } else {
      assert Ids([]) == [];
    }
  }

  /** In every run, a write or read accepted once is started at most once and gets at most one of its
      two callbacks, at most once; a skipped or waiting one gets none. */
  lemma StartedAtMostOnce(run: seq<Event>, c: Channel, x: nat)
    requires c == After(run).w || c == After(run).r
    requires multiset(Ids(c.accepted))[x] <= 1
    ensures multiset(c.started)[x] <= 1
    ensures multiset(c.succeeded)[x] + multiset(c.failed)[x] + multiset(c.inFlight)[x] <= 1
    ensures x in c.skipped || x in Waiting(c) ==> x !in c.started
  {
    EveryRunIsAccounted(run);
    AtMostOnce(c, x);
  }

  lemma StepHoldsLatest(m: Machine, e: Event)
    requires HoldsLatest(m.w) && HoldsLatest(m.r)
    ensures HoldsLatest(Step(m, e).w) && HoldsLatest(Step(m, e).r)
  {
    match e
    case CallWrite(x) => SubmitHoldsLatest(m.w, x, WBusy(m.phase));
    case CallRead(x) => SubmitHoldsLatest(m.r, x, RBusy(m.phase));
    case OnWrite(i, ok) => if Enabled(m, e) { CompleteHoldsLatest(m.w, i, ok, WBusy(m.phase)); }
    case OnRead(i, ok) => if Enabled(m, e) { CompleteHoldsLatest(m.r, i, ok, RBusy(m.phase)); }
    case _ =>
  }

  /** In every run, with any errors and reconnects, both queues hold the operations queued last, in
      order of acceptance. */
  lemma {:induction false} QueuesHoldLatest(run: seq<Event>)
    ensures HoldsLatest(After(run).w) && HoldsLatest(After(run).r)
  {
    if run != [] {
      QueuesHoldLatest(run[..|run| - 1]);
      StepHoldsLatest(After(run[..|run| - 1]), run[|run| - 1]);
    }
  }

  // ---------------------------------------------------------------------------------------------
  // Every run: where the machine stands
  // ---------------------------------------------------------------------------------------------

  /** A failed write of a writing machine, or a failed read of a reading one. */
  predicate Breaks(m: Machine, e: Event) {
    Enabled(m, e) && ((e.OnWrite? && !e.ok && WBusy(m.phase)) || (e.OnRead? && !e.ok && RBusy(m.phase)))
  }

  /** The calls that are not ignored, the completions they wait for, and what breaks a connection. */
  predicate Moves(m: Machine, e: Event) {
    match e
    case CallResolve(_) => m.phase.NotConnected?
    case CallConnect(_) => m.phase.Resolved?
    case OnResolve(_, _) => Enabled(m, e)
    case OnConnect(_, _) => Enabled(m, e)
    case _ => Breaks(m, e)
  }

  /** Where the last of these events leaves a machine. */
  predicate Stands(last: Event, p: Phase) {
    match last
    case CallResolve(_) => p.Resolving?
    case CallConnect(_) => p.Connecting?
    case OnResolve(_, ok) => if ok then p.Resolved? else p.Error?
    case OnConnect(_, ok) => if ok then IsLive(p) else p.NotConnected?
    case OnWrite(_, _) => p.Resolved?
    case OnRead(_, _) => p.Resolved?
    case _ => false
  }

  lemma WriteFailureBreaks(m: Machine, i: nat)
    requires i < |m.w.inFlight| && WBusy(m.phase)
    ensures WriteDone(m, i, false).phase.Resolved?
  {}

  lemma ReadFailureBreaks(m: Machine, i: nat)
    requires i < |m.r.inFlight| && RBusy(m.phase)
    ensures ReadDone(m, i, false).phase.Resolved?
  {}

  lemma AwaitMoves(m: Machine, e: Event)
    requires Waits(m) && (e.CallResolve? || e.CallConnect? || e.OnResolve? || e.OnConnect?)
    ensures if Moves(m, e) then Stands(e, Step(m, e).phase) else Step(m, e).phase == m.phase
  {}

  lemma CallMoves(m: Machine, x: nat)
    ensures IsLive(Write(m, x).phase) <==> IsLive(m.phase)
    ensures IsLive(Read(m, x).phase) <==> IsLive(m.phase)
    ensures !IsLive(m.phase) ==> Write(m, x).phase == Read(m, x).phase == m.phase
  {}

  lemma WriteDoneMoves(m: Machine, i: nat, ok: bool)
    requires i < |m.w.inFlight| && !(WBusy(m.phase) && !ok)
    ensures IsLive(WriteDone(m, i, ok).phase) <==> IsLive(m.phase)
    ensures !IsLive(m.phase) ==> WriteDone(m, i, ok).phase == m.phase
  {}

  lemma ReadDoneMoves(m: Machine, i: nat, ok: bool)
    requires i < |m.r.inFlight| && !(RBusy(m.phase) && !ok)
    ensures IsLive(ReadDone(m, i, ok).phase) <==> IsLive(m.phase)
    ensures !IsLive(m.phase) ==> ReadDone(m, i, ok).phase == m.phase
  {}

  lemma StepMoves(m: Machine, e: Event)
    requires Waits(m)
    ensures var p := Step(m, e).phase;
      if Moves(m, e) then Stands(e, p) else (IsLive(p) <==> IsLive(m.phase)) && (!IsLive(p) ==> p == m.phase)
  {
    match e
    case CallWrite(x) => CallMoves(m, x);
    case CallRead(x) => CallMoves(m, x);
    case OnWrite(i, ok) =>
      if Breaks(m, e) { WriteFailureBreaks(m, i); } else if Enabled(m, e) { WriteDoneMoves(m, i, ok); }
    case OnRead(i, ok) =>
      if Breaks(m, e) { ReadFailureBreaks(m, i); } else if Enabled(m, e) { ReadDoneMoves(m, i, ok); }
    case _ => AwaitMoves(m, e);
  }

  lemma StepStands(m: Machine, e: Event, last: Event)
    requires Waits(m)
    ensures Moves(m, e) ==> Stands(e, Step(m, e).phase)
    ensures !Moves(m, e) && Stands(last, m.phase) ==> Stands(last, Step(m, e).phase)
    ensures !Moves(m, e) && m.phase.NotConnected? ==> Step(m, e).phase.NotConnected?
  {
    StepMoves(m, e);
  }

  datatype LastMove = Never | Last(e: Event)

  /** The last event of a run that moved the machine. */
  function LastMoveOf(run: seq<Event>): LastMove {
    if run == [] then Never
    else if Moves(After(run[..|run| - 1]), run[|run| - 1]) then Last(run[|run| - 1])
    else LastMoveOf(run[..|run| - 1])
  }

  /** In every run the state is the one in which the last such event left the machine, and before any
      of them it is `NotConnected`. */
  lemma {:induction false} StandsWhereLeft(run: seq<Event>)
    ensures match LastMoveOf(run)
      case Never => After(run).phase.NotConnected?
      case Last(e) => Stands(e, After(run).phase)
  {
    if run != [] {
      var m, e := After(run[..|run| - 1]), run[|run| - 1];
      StandsWhereLeft(run[..|run| - 1]);
      EveryRunIsAccounted(run[..|run| - 1]);
      match LastMoveOf(run[..|run| - 1])
      case Never => StepStands(m, e, e);
      case Last(last) => StepStands(m, e, last);
    }
  }

  predicate Connects(run: seq<Event>, i: nat)
    requires i < |run|
  {
    run[i].OnConnect? && run[i].ok && Enabled(After(run[..i]), run[i])
  }

  /** A connect succeeded, and no operation has failed on a busy channel since. */
  predicate LastedSince(run: seq<Event>, i: nat)
    requires i < |run|
  {
    Connects(run, i) && forall j :: i < j < |run| ==> !Breaks(After(run[..j]), run[j])
  }

  /** In every run the connection is usable if and only if some connect succeeded and no operation has
      failed on a busy channel since. */
  lemma {:induction false} LiveExactlyWhen(run: seq<Event>)
    ensures IsLive(After(run).phase) <==> exists i :: 0 <= i < |run| && LastedSince(run, i)
  {
    if run != [] {
      var n := |run| - 1;
      var before, e := run[..n], run[n];
      LiveExactlyWhen(before);
      EveryRunIsAccounted(before);
      LastedPrefix(run);
      LiveStep(After(before), e);
    }
  }

  lemma StandsLive(e: Event, p: Phase)
    requires Stands(e, p)
    ensures IsLive(p) <==> e.OnConnect? && e.ok
  {}

  lemma MovesOnlyWaiting(m: Machine, e: Event)
    requires Waits(m) && Moves(m, e) && !Breaks(m, e)
    ensures !IsLive(m.phase)
  {}

  lemma LiveStep(m: Machine, e: Event)
    requires Waits(m)
    ensures IsLive(Step(m, e).phase) <==>
              (e.OnConnect? && e.ok && Enabled(m, e)) || (IsLive(m.phase) && !Breaks(m, e))
  {
    StepMoves(m, e);
    if Moves(m, e) {
      StandsLive(e, Step(m, e).phase);
      if !Breaks(m, e) {
        MovesOnlyWaiting(m, e);
      }
    }
  }

  lemma LastedPrefix(run: seq<Event>)
    requires run != []
    ensures var n := |run| - 1;
      && (LastedSince(run, n) <==> Connects(run, n))
      && (Connects(run, n) <==> run[n].OnConnect? && run[n].ok && Enabled(After(run[..n]), run[n]))
      && forall i :: 0 <= i < n ==>
           (LastedSince(run, i) <==> LastedSince(run[..n], i) && !Breaks(After(run[..n]), run[n]))
  {
    var n := |run| - 1;
    assert forall i :: 0 <= i < n ==> run[..n][..i] == run[..i] && run[..n][i] == run[i];
  }

  // ---------------------------------------------------------------------------------------------
  // Runs in which leftovers of an error complete before the reconnect does
  // ---------------------------------------------------------------------------------------------

  /** A connect that makes the machine `Connected` finds nothing in flight. */
  ghost predicate Drains(m: Machine, e: Event) {
    e.OnConnect? && e.ok && Enabled(m, e) && m.phase.Connecting? ==> m.w.inFlight == [] && m.r.inFlight == []
  }

  ghost predicate DrainedRun(run: seq<Event>) {
    run != [] ==> DrainedRun(run[..|run| - 1]) && Drains(After(run[..|run| - 1]), run[|run| - 1])
  }

  /** The state names exactly what is on the wire; after an error at most one leftover of each kind
      may still be there. */
  ghost predicate ReflectsWire(m: Machine) {
    && Waits(m)
    && |m.w.inFlight| <= 1 && |m.r.inFlight| <= 1
    && (IsLive(m.phase) ==>
          && |m.w.inFlight| == (if WBusy(m.phase) then 1 else 0)
          && |m.r.inFlight| == (if RBusy(m.phase) then 1 else 0))
  }

  lemma WriteDoneReflectsWire(m: Machine, i: nat, ok: bool)
    requires ReflectsWire(m) && i < |m.w.inFlight|
    ensures ReflectsWire(WriteDone(m, i, ok))
  {}

  lemma ReadDoneReflectsWire(m: Machine, i: nat, ok: bool)
    requires ReflectsWire(m) && i < |m.r.inFlight|
    ensures ReflectsWire(ReadDone(m, i, ok))
  {}

  lemma CallReflectsWire(m: Machine, x: nat)
    requires ReflectsWire(m)
    ensures ReflectsWire(Write(m, x)) && ReflectsWire(Read(m, x))
  {}

  lemma AwaitReflectsWire(m: Machine, e: Event)
    requires ReflectsWire(m) && (e.CallResolve? || e.CallConnect? || e.OnResolve? || e.OnConnect?)
    ensures ReflectsWire(Step(m, e)) <==> Drains(m, e)
  {}

  lemma StepReflectsWire(m: Machine, e: Event)
    requires ReflectsWire(m)
    ensures ReflectsWire(Step(m, e)) <==> Drains(m, e)
  {
    match e
    case CallWrite(x) => CallReflectsWire(m, x);
    case CallRead(x) => CallReflectsWire(m, x);
    case OnWrite(i, ok) => if i < |m.w.inFlight| { WriteDoneReflectsWire(m, i, ok); }
    case OnRead(i, ok) => if i < |m.r.inFlight| { ReadDoneReflectsWire(m, i, ok); }
    case _ => AwaitReflectsWire(m, e);
  }

  lemma {:induction false} StateReflectsWire(run: seq<Event>)
    requires DrainedRun(run)
    ensures ReflectsWire(After(run))
  {
    if run != [] {
      StateReflectsWire(run[..|run| - 1]);
      StepReflectsWire(After(run[..|run| - 1]), run[|run| - 1]);
    }
  }

  /** Now and at every earlier moment of the run. */
  ghost predicate AlwaysReflectsWire(run: seq<Event>) {
    ReflectsWire(After(run)) && (run != [] ==> AlwaysReflectsWire(run[..|run| - 1]))
  }

  /** The state names what is on the wire all along a run if and only if every connect that succeeds in
      it finds nothing left in flight from before an error. */
  lemma {:induction false} ReflectsWireExactlyWhenDrained(run: seq<Event>)
    ensures AlwaysReflectsWire(run) <==> DrainedRun(run)
  {
    if run == [] {
      StateReflectsWire([]);
    } else {
      var before := run[..|run| - 1];
      ReflectsWireExactlyWhenDrained(before);
      if DrainedRun(before) {
        StateReflectsWire(before);
        StepReflectsWire(After(before), run[|run| - 1]);
      }
    }
  }

  lemma Replay(run: seq<Event>, e: Event)
    ensures After(run + [e]) == Step(After(run), e)
  {
    assert (run + [e])[..|run|] == run;
  }

  const CONNECTED: Machine := FRESH.(phase := Connected)

  const CONNECT: seq<Event> := [CallResolve(0)] + [OnResolve(0, true)] + [CallConnect(0)] + [OnConnect(0, true)]

  lemma ConnectedIsReachable()
    ensures After(CONNECT) == CONNECTED
  {
    var a := [CallResolve(0)];
    var b := a + [OnResolve(0, true)];
    var c := b + [CallConnect(0)];
    assert a == [] + a && After(a) == Resolve(FRESH, 0) by { Replay([], CallResolve(0)); }
    Replay(a, OnResolve(0, true));
    Replay(b, CallConnect(0));
    Replay(c, OnConnect(0, true));
  }

  /** The assumption is needed: here the read left over from a failed write completes only after the
      reconnect, and the machine ends up `Connected` with the later read still on the wire. */
  lemma UndrainedRunMisleads()
    ensures var lost := Step(Step(Step(CONNECTED, CallRead(1)), CallWrite(2)), OnWrite(0, false));
            var again := Step(Step(lost, CallConnect(3)), OnConnect(0, true));
            var m := Step(Step(again, CallRead(4)), OnRead(0, true));
            m.phase == Connected && m.r.inFlight == [4]
  {
    var r1 := Begin(EMPTY, 1);
    var w := Pop(Finish(Begin(EMPTY, 2), 0, false));
    var lost := Step(Step(Step(CONNECTED, CallRead(1)), CallWrite(2)), OnWrite(0, false));
    assert lost == Machine(Resolved, [], [], w, r1);
    Reconnected(lost, 3);
    LeftoverRead(CONNECTED.(w := w, r := r1));
  }

  lemma Reconnected(m: Machine, x: nat)
    requires m.phase.Resolved? && m.connects == []
    ensures Step(Step(m, CallConnect(x)), OnConnect(0, true)) == m.(phase := Connected)
  {
    assert Step(m, CallConnect(x)) == m.(phase := Connecting, connects := [x]);
  }

  lemma LeftoverRead(m: Machine)
    requires m.phase.Connected? && m.r == Begin(EMPTY, 1)
    ensures var n := Step(Step(m, CallRead(4)), OnRead(0, true)); n.phase == Connected && n.r.inFlight == [4]
  {
    assert Begin(m.r, 4).inFlight == [1, 4] && Begin(m.r, 4).queue == [];
  }

  // ---------------------------------------------------------------------------------------------
  // Runs in which no write and no read fails
  // ---------------------------------------------------------------------------------------------

  predicate Clean(e: Event) {
    (e.OnWrite? || e.OnRead?) ==> e.ok
  }

  predicate CleanRun(run: seq<Event>) {
    run != [] ==> CleanRun(run[..|run| - 1]) && Clean(run[|run| - 1])
  }

  ghost predicate InOrder(m: Machine) {
    Orderly(m.w, WBusy(m.phase)) && Orderly(m.r, RBusy(m.phase))
  }

  lemma AfterWriteInOrder(m: Machine, w: Channel)
    requires InOrder(m) && WBusy(m.phase) && Orderly(w, w.queue != [])
    ensures InOrder(AfterWrite(m, w, true))
  {}

  lemma AfterReadInOrder(m: Machine, r: Channel)
    requires InOrder(m) && RBusy(m.phase) && Orderly(r, r.queue != [])
    ensures InOrder(AfterRead(m, r, true))
  {}

  lemma WriteInOrder(m: Machine, x: nat)
    requires InOrder(m)
    ensures InOrder(Write(m, x))
  {
    SubmitOrderly(m.w, x, WBusy(m.phase));
  }

  lemma ReadInOrder(m: Machine, x: nat)
    requires InOrder(m)
    ensures InOrder(Read(m, x))
  {
    SubmitOrderly(m.r, x, RBusy(m.phase));
  }

  lemma WriteDoneInOrder(m: Machine, i: nat)
    requires InOrder(m) && i < |m.w.inFlight|
    ensures InOrder(WriteDone(m, i, true)) && IsLive(WriteDone(m, i, true).phase)
  {
    CompleteOrderly(m.w, i, WBusy(m.phase));
    AfterWriteInOrder(m, Complete(m.w, i, true, true));
  }

  lemma ReadDoneInOrder(m: Machine, i: nat)
    requires InOrder(m) && i < |m.r.inFlight|
    ensures InOrder(ReadDone(m, i, true))
  {
    CompleteOrderly(m.r, i, RBusy(m.phase));
    AfterReadInOrder(m, Complete(m.r, i, true, true));
  }

  lemma AwaitInOrder(m: Machine, e: Event)
    requires InOrder(m) && (e.CallResolve? || e.CallConnect? || e.OnResolve? || e.OnConnect?)
    ensures InOrder(Step(m, e)) && Step(m, e).w == m.w && Step(m, e).r == m.r
  {}

  lemma StepInOrder(m: Machine, e: Event)
    requires InOrder(m) && Clean(e)
    ensures InOrder(Step(m, e))
  {
    if e.CallWrite? {
      WriteInOrder(m, e.id);
    } else if e.CallRead? {
      ReadInOrder(m, e.id);
    } else if !(e.OnWrite? || e.OnRead?) {
      AwaitInOrder(m, e);
    } else if Enabled(m, e) {
      if e.OnWrite? { WriteDoneInOrder(m, e.i); } else { ReadDoneInOrder(m, e.i); }
    }
  }

  lemma FreshInOrder()
    ensures InOrder(FRESH)
  {
    assert Ids([]) == [];
  }

  /** While nothing fails, each channel starts exactly the operations that did not arrive First, in
      order of acceptance, skips exactly those that did, and leaves the rest waiting. */
  lemma {:induction false} CleanRunsAreInOrder(run: seq<Event>)
    requires CleanRun(run)
    ensures InOrder(After(run))
  {
    if run == [] {
      FreshInOrder();
    } else {
      CleanRunsAreInOrder(run[..|run| - 1]);
      StepInOrder(After(run[..|run| - 1]), run[|run| - 1]);
    }
  }

  /** When a failure-free machine is idle, every accepted write was started, in order, if and only if
      no write was accepted by a writing machine whose write queue was empty; likewise for reads. */
  lemma IdleFifo(run: seq<Event>)
    requires CleanRun(run) && After(run).phase.Connected?
    ensures var m := After(run);
      && (m.w.started == Ids(m.w.accepted) <==> forall e :: e in m.w.accepted ==> !e.arrival.First?)
      && (m.r.started == Ids(m.r.accepted) <==> forall e :: e in m.r.accepted ==> !e.arrival.First?)
      && m.w.succeeded == m.w.started && m.r.succeeded == m.r.started
  {
    CleanRunsAreInOrder(run);
    FifoIffNoneArrivedFirst(After(run).w);
    FifoIffNoneArrivedFirst(After(run).r);
  }

  const THREE_WRITES: Channel := Enqueue(Enqueue(Begin(EMPTY, 1), 2), 3)

  lemma ThreeWrites()
    ensures Step(Step(Step(CONNECTED, CallWrite(1)), CallWrite(2)), CallWrite(3)) ==
            CONNECTED.(phase := Writing, w := THREE_WRITES)
    ensures THREE_WRITES.accepted == [Entry(1, Direct), Entry(2, First), Entry(3, Behind)]
    ensures THREE_WRITES.queue == [2, 3] && THREE_WRITES.inFlight == [1] && !THREE_WRITES.headStarted
    ensures THREE_WRITES.succeeded == THREE_WRITES.failed == THREE_WRITES.skipped == []
  {}

  lemma OneWritten(w: Channel)
    requires w.inFlight != []
    ensures var d := Advance(Finish(w, 0, true));
      Step(CONNECTED.(phase := Writing, w := w), OnWrite(0, true)) ==
      CONNECTED.(phase := if d.queue == [] then Connected else Writing, w := d)
  {}

  /** The queue is not a FIFO: of three writes requested back to back the second is lost. */
  lemma SecondOfThreeWritesIsLost()
    ensures var busy := Step(Step(Step(CONNECTED, CallWrite(1)), CallWrite(2)), CallWrite(3));
            var m := Step(Step(busy, OnWrite(0, true)), OnWrite(0, true));
            m.phase == Connected && m.w.succeeded == [1, 3] && m.w.skipped == [2]
  {
    ThreeWrites();
    OneWritten(THREE_WRITES);
    var w := Advance(Finish(THREE_WRITES, 0, true));
    assert w.queue == w.inFlight == [3] && w.skipped == [2] && w.succeeded == [1] && w.headStarted;
    OneWritten(w);
  }

  lemma WriteFails(w: Channel)
    requires w.inFlight != []
    ensures var lost := Step(CONNECTED.(phase := Writing, w := w), OnWrite(0, false));
      Step(Step(lost, CallConnect(0)), OnConnect(0, true)) == CONNECTED.(w := Pop(Finish(w, 0, false)))
  {
    var lost := Step(CONNECTED.(phase := Writing, w := w), OnWrite(0, false));
    assert lost == Machine(Resolved, [], [], Pop(Finish(w, 0, false)), EMPTY);
    Reconnected(lost, 0);
  }

  /** After an error an operation that arrived behind others can be lost too: the first of three writes
      fails, which loses the second, and a write after the reconnect loses the third. */
  lemma WriteBehindIsLostAfterReconnect()
    ensures var busy := Step(Step(Step(CONNECTED, CallWrite(1)), CallWrite(2)), CallWrite(3));
            var again := Step(Step(Step(busy, OnWrite(0, false)), CallConnect(0)), OnConnect(0, true));
            var m := Step(Step(again, CallWrite(4)), OnWrite(0, true));
      && m.w.accepted == [Entry(1, Direct), Entry(2, First), Entry(3, Behind), Entry(4, Direct)]
      && m.w.failed == [1] && m.w.succeeded == [4] && m.w.skipped == [2, 3]
  {
    ThreeWrites();
    WriteFails(THREE_WRITES);
    var again := CONNECTED.(w := Pop(Finish(THREE_WRITES, 0, false)));
    var w := Begin(again.w, 4);
    AfterFailure();
    assert Step(again, CallWrite(4)) == CONNECTED.(phase := Writing, w := w);
    OneWritten(w);
  }

  lemma AfterFailure()
    ensures var w := Begin(Pop(Finish(THREE_WRITES, 0, false)), 4);
      && w.queue == [3] && w.inFlight == [4] && w.skipped == [2] && w.failed == [1] && w.succeeded == []
      && !w.headStarted && w.accepted == [Entry(1, Direct), Entry(2, First), Entry(3, Behind), Entry(4, Direct)]
  {
    ThreeWrites();
  }
}
