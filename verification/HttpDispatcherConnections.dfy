/** The dispatcher's pool as independent connections: what happens to the machine of a key is a run of
    the connection on its own, and no request is ever put on the wire twice. */
module HttpDispatcherConnections {
  import opened HttpChannel
  import opened HttpConnection
  import opened HttpDispatcher
  import opened HttpDispatcherLedger

  // ---------------------------------------------------------------------------------------------
  // Each connection is a run of its own
  // ---------------------------------------------------------------------------------------------

  /** What a happening does to the machine of key k. */
  function Events(d: Dispatcher, h: Happening, k: Key): seq<Event> {
    if !Possible(d, h) then [] else
    match h
    case Message => []
    case Handler(j, host, port) =>
      var r := d.posted[j];
      if Key(false, host, port) != k then []
      else if k !in d.pool then [CallResolve(r)]
      else if IsLive(d.pool[k].phase) then [CallWrite(r)] else [CallConnect(r)]
    case Resolution(k', i, ok) =>
      if k' != k then [] else [OnResolve(i, ok)] + if ok then [CallConnect(d.pool[k].resolves[i])] else []
    case Connection(k', i, ok) =>
      if k' != k then [] else [OnConnect(i, ok)] + if ok then [CallWrite(d.pool[k].connects[i])] else []
    case Written(k', i, ok) =>
      if k' != k then [] else [OnWrite(i, ok)] + if ok then [CallRead(d.pool[k].w.inFlight[i])] else []
    case Received(k', i, ok) =>
      if k' != k then [] else [OnRead(i, ok)]
  }

  function Trace(run: seq<Happening>, k: Key): seq<Event> {
    if run == [] then []
    else Trace(run[..|run| - 1], k) + Events(Dispatched(run[..|run| - 1]), run[|run| - 1], k)
  }

  lemma NextIsSteps(d: Dispatcher, h: Happening, k: Key)
    ensures var m, events := MachineOf(d, k), Events(d, h, k);
      && |events| <= 2
      && MachineOf(Next(d, h), k) ==
           (if events == [] then m
            else if |events| == 1 then Step(m, events[0]) else Step(Step(m, events[0]), events[1]))
  {}

  lemma EventsLeadOn(trace: seq<Event>, d: Dispatcher, h: Happening, k: Key)
    requires After(trace) == MachineOf(d, k)
    ensures After(trace + Events(d, h, k)) == MachineOf(Next(d, h), k)
  {
    NextIsSteps(d, h, k);
    AfterTwo(trace, Events(d, h, k));
  }

  lemma JoinTwo(trace: seq<Event>, events: seq<Event>)
    requires |events| <= 2
    ensures trace + events == (if events == [] then trace
                               else if |events| == 1 then trace + [events[0]]
                               else trace + [events[0]] + [events[1]])
  {}

  lemma AfterTwo(trace: seq<Event>, events: seq<Event>)
    requires |events| <= 2
    ensures After(trace + events) ==
              (if events == [] then After(trace)
               else if |events| == 1 then Step(After(trace), events[0])
               else Step(Step(After(trace), events[0]), events[1]))
  {
    JoinTwo(trace, events);
    if events != [] {
      Replay(trace, events[0]);
      if |events| == 2 {
        Replay(trace + [events[0]], events[1]);
      }
    }
  }

  /** Whatever the dispatcher does with other keys, the machine stored under a key has gone through a
      run of a fresh connection: the calls and completions for that key, in order. So everything
      proved of every run of a connection holds of every connection in the pool. */
  lemma {:induction false} EachConnectionIsARun(run: seq<Happening>, k: Key)
    ensures MachineOf(Dispatched(run), k) == After(Trace(run, k))
  {
    if run != [] {
      var before, h := run[..|run| - 1], run[|run| - 1];
      EachConnectionIsARun(before, k);
      EventsLeadOn(Trace(before, k), Dispatched(before), h, k);
    }
  }

  // ---------------------------------------------------------------------------------------------
  // The wire
  // ---------------------------------------------------------------------------------------------

  /** A connect that makes a machine `Connected` finds nothing in flight. */
  predicate DrainsPool(d: Dispatcher, h: Happening) {
    h.Connection? && h.ok && Possible(d, h) && d.pool[h.k].phase.Connecting? ==>
      d.pool[h.k].w.inFlight == [] && d.pool[h.k].r.inFlight == []
  }

  ghost predicate DrainedDispatch(run: seq<Happening>) {
    run != [] ==>
      DrainedDispatch(run[..|run| - 1]) && DrainsPool(Dispatched(run[..|run| - 1]), run[|run| - 1])
  }

  ghost predicate PoolReflectsWire(d: Dispatcher) {
    forall k :: k in d.pool ==> ReflectsWire(d.pool[k])
  }

  /** Now and at every earlier moment of the run. */
  ghost predicate PoolAlwaysReflectsWire(run: seq<Happening>) {
    PoolReflectsWire(Dispatched(run)) && (run != [] ==> PoolAlwaysReflectsWire(run[..|run| - 1]))
  }

  predicate IsCall(e: Event) { e.CallResolve? || e.CallConnect? || e.CallWrite? || e.CallRead? }

  lemma LeftoversStay(m: Machine, e: Event, call: Event)
    requires ReflectsWire(m) && !Drains(m, e) && IsCall(call)
    ensures !ReflectsWire(Step(Step(m, e), call))
  {
    var n := Step(m, e);
    assert n.phase.Connected? && n.w == m.w && n.r == m.r;
  }

  /** What follows a completion neither repairs nor breaks the match of state and wire. */
  lemma TwoStepsReflectWire(m: Machine, e: Event, call: Event)
    requires ReflectsWire(m) && IsCall(call)
    ensures ReflectsWire(Step(Step(m, e), call)) <==> Drains(m, e)
  {
    StepReflectsWire(m, e);
    if Drains(m, e) {
      StepReflectsWire(Step(m, e), call);
    } else {
      LeftoversStay(m, e, call);
    }
  }

  lemma EventsDrain(d: Dispatcher, h: Happening, k: Key)
    ensures var m, events := MachineOf(d, k), Events(d, h, k);
      && |events| <= 2 && (|events| == 2 ==> IsCall(events[1]))
      && (events != [] ==> (Drains(m, events[0]) <==> !(h.Connection? && h.k == k) || DrainsPool(d, h)))
      && (events == [] && h.Connection? && h.k == k ==> DrainsPool(d, h))
  {}

  lemma MachineReflectsWire(d: Dispatcher, h: Happening, k: Key)
    requires ReflectsWire(MachineOf(d, k))
    ensures ReflectsWire(MachineOf(Next(d, h), k)) <==> !(h.Connection? && h.k == k) || DrainsPool(d, h)
  {
    var m, events := MachineOf(d, k), Events(d, h, k);
    NextIsSteps(d, h, k);
    EventsDrain(d, h, k);
    if |events| == 1 {
      StepReflectsWire(m, events[0]);
    } else if |events| == 2 {
      TwoStepsReflectWire(m, events[0], events[1]);
    }
  }

  lemma NextReflectsWire(d: Dispatcher, h: Happening)
    requires PoolReflectsWire(d)
    ensures PoolReflectsWire(Next(d, h)) <==> DrainsPool(d, h)
  {
    var e := Next(d, h);
    StateReflectsWire([]);
    forall k | k in e.pool
      ensures ReflectsWire(e.pool[k]) <==> !(h.Connection? && h.k == k) || DrainsPool(d, h)
    {
      MachineReflectsWire(d, h, k);
    }
    if !DrainsPool(d, h) {
      MachineReflectsWire(d, h, h.k);
      assert h.k in e.pool;
    }
  }

  lemma {:induction false} EveryConnectionReflectsWire(run: seq<Happening>)
    requires DrainedDispatch(run)
    ensures PoolReflectsWire(Dispatched(run))
  {
    if run != [] {
      EveryConnectionReflectsWire(run[..|run| - 1]);
      NextReflectsWire(Dispatched(run[..|run| - 1]), run[|run| - 1]);
    }
  }

  /** The states of all connections in the pool name what is on the wire all along a run if and only if
      every connect that succeeds in it finds nothing left in flight from before an error. */
  lemma {:induction false} PoolReflectsWireExactlyWhenDrained(run: seq<Happening>)
    ensures PoolAlwaysReflectsWire(run) <==> DrainedDispatch(run)
  {
    if run == [] {
      EveryConnectionReflectsWire([]);
    } else {
      var before := run[..|run| - 1];
      PoolReflectsWireExactlyWhenDrained(before);
      if DrainedDispatch(before) {
        EveryConnectionReflectsWire(before);
        NextReflectsWire(Dispatched(before), run[|run| - 1]);
      }
    }
  }

  // ---------------------------------------------------------------------------------------------
  // Nothing is sent twice
  // ---------------------------------------------------------------------------------------------

  /** The requests a machine may still write, or has accepted for writing. */
  ghost function ToWrite(m: Machine): multiset<nat> {
    multiset(m.resolves) + multiset(m.connects) + multiset(Ids(m.w.accepted))
  }

  /** The requests a machine may still read an answer to, or has accepted for reading. */
  ghost function ToRead(m: Machine): multiset<nat> {
    multiset(m.resolves) + multiset(m.connects) + Held(m.w) + multiset(Ids(m.r.accepted))
  }

  /** Each of these requests is listed once, has the right key, and is not posted any more. */
  ghost predicate ListedOnce(keys: seq<Key>, posted: multiset<nat>, listed: multiset<nat>, k: Key) {
    forall x: nat ::
      && posted[x] + listed[x] <= 1
      && (posted[x] + listed[x] > 0 ==> x < |keys|)
      && (listed[x] > 0 ==> keys[x] == k)
  }

  ghost predicate ListsOnce(keys: seq<Key>, d: Dispatcher) {
    forall k ::
      && ListedOnce(keys, multiset(d.posted), ToWrite(MachineOf(d, k)), k)
      && ListedOnce(keys, multiset(d.posted), ToRead(MachineOf(d, k)), k)
  }

  ghost predicate SentOnce(d: Dispatcher) {
    ListsOnce(d.keys, d)
  }

  ghost predicate Adds(n: Machine, m: Machine, more: multiset<nat>) {
    ToWrite(n) <= ToWrite(m) + more && ToRead(n) <= ToRead(m) + more
  }

  lemma ConnectAdds(m: Machine, r: nat)
    ensures Adds(Connect(m, r), m, multiset{r})
  {}

  lemma WriteAdds(m: Machine, r: nat)
    requires Sound(m)
    ensures Adds(Write(m, r), m, multiset{r})
  {
    WriteSound(m, r);
    IdsAppend(m.w.accepted, Entry(r, Direct));
    IdsAppend(m.w.accepted, Entry(r, First));
    IdsAppend(m.w.accepted, Entry(r, Behind));
  }

  lemma ReadAdds(m: Machine, r: nat)
    ensures ToWrite(Read(m, r)) == ToWrite(m) && ToRead(Read(m, r)) <= ToRead(m) + multiset{r}
  {
    IdsAppend(m.r.accepted, Entry(r, Direct));
    IdsAppend(m.r.accepted, Entry(r, First));
    IdsAppend(m.r.accepted, Entry(r, Behind));
  }

  lemma ResolveDoneRemoves(m: Machine, i: nat, ok: bool)
    requires i < |m.resolves|
    ensures var n := ResolveDone(m, i, ok);
      ToWrite(n) + multiset{m.resolves[i]} == ToWrite(m) && ToRead(n) + multiset{m.resolves[i]} == ToRead(m)
  {
    WithoutMultiset(m.resolves, i);
  }

  lemma ConnectDoneRemoves(m: Machine, i: nat, ok: bool)
    requires i < |m.connects|
    ensures var n := ConnectDone(m, i, ok);
      ToWrite(n) + multiset{m.connects[i]} == ToWrite(m) && ToRead(n) + multiset{m.connects[i]} == ToRead(m)
  {
    WithoutMultiset(m.connects, i);
  }

  lemma WriteDoneRemoves(m: Machine, i: nat, ok: bool)
    requires Sound(m) && i < |m.w.inFlight|
    ensures var n := WriteDone(m, i, ok);
      ToWrite(n) == ToWrite(m) && ToRead(n) + multiset{m.w.inFlight[i]} == ToRead(m)
  {
    var n := WriteDone(m, i, ok);
    WriteDoneSound(m, i, ok);
    WriteDoneKeeps(m, i, ok);
    HeldRemoved(m, n, Held(m.w), Held(n.w), multiset{m.w.inFlight[i]});
  }

  lemma WriteDoneKeeps(m: Machine, i: nat, ok: bool)
    requires i < |m.w.inFlight|
    ensures var n := WriteDone(m, i, ok);
      n.w.accepted == m.w.accepted && n.r == m.r && n.resolves == m.resolves && n.connects == m.connects
  {}

  lemma HeldRemoved(m: Machine, n: Machine, held: multiset<nat>, held': multiset<nat>, x: multiset<nat>)
    requires held == Held(m.w) && held' == Held(n.w) && held' + x == held
    requires n.r == m.r && n.resolves == m.resolves && n.connects == m.connects
    ensures ToRead(n) + x == ToRead(m)
  {}

  /** A request is taken from a machine and at most given back to it. */
  lemma GivenBack(m: Machine, n: Machine, r: nat, last: Machine)
    requires ToWrite(n) + multiset{r} == ToWrite(m) && ToRead(n) + multiset{r} == ToRead(m)
    requires last == n || Adds(last, n, multiset{r})
    ensures Adds(last, m, multiset{})
  {}

  lemma ReadGivenBack(m: Machine, i: nat, ok: bool, last: Machine)
    requires Sound(m) && i < |m.w.inFlight|
    requires var n := WriteDone(m, i, ok); last == n || last == Read(n, m.w.inFlight[i])
    ensures Adds(last, m, multiset{})
  {
    WriteDoneRemoves(m, i, ok);
    ReadAdds(WriteDone(m, i, ok), m.w.inFlight[i]);
  }

  lemma ResolveGivenBack(m: Machine, i: nat, ok: bool, last: Machine)
    requires i < |m.resolves|
    requires var n := ResolveDone(m, i, ok); last == n || last == Connect(n, m.resolves[i])
    ensures Adds(last, m, multiset{})
  {
    ResolveDoneRemoves(m, i, ok);
    ConnectAdds(ResolveDone(m, i, ok), m.resolves[i]);
    GivenBack(m, ResolveDone(m, i, ok), m.resolves[i], last);
  }

  lemma ConnectGivenBack(m: Machine, i: nat, ok: bool, last: Machine)
    requires Sound(m) && i < |m.connects|
    requires var n := ConnectDone(m, i, ok); last == n || last == Write(n, m.connects[i])
    ensures Adds(last, m, multiset{})
  {
    ConnectDoneRemoves(m, i, ok);
    StepSound(m, OnConnect(i, ok));
    WriteAdds(ConnectDone(m, i, ok), m.connects[i]);
    GivenBack(m, ConnectDone(m, i, ok), m.connects[i], last);
  }

  /** What is left of the machine after a completion and the call that follows it. */
  lemma CompletionLeaves(d: Dispatcher, h: Happening)
    requires Possible(d, h) && !h.Message? && !h.Handler?
    ensures var m, last := d.pool[h.k], MachineOf(Next(d, h), h.k);
      match h
      case Resolution(_, i, ok) =>
        last == ResolveDone(m, i, ok) || last == Connect(ResolveDone(m, i, ok), m.resolves[i])
      case Connection(_, i, ok) =>
        last == ConnectDone(m, i, ok) || last == Write(ConnectDone(m, i, ok), m.connects[i])
      case Written(_, i, ok) =>
        last == WriteDone(m, i, ok) || last == Read(WriteDone(m, i, ok), m.w.inFlight[i])
      case Received(_, i, ok) => last == ReadDone(m, i, ok)
      case _ => true
  {}

  /** A completion and the call that follows it add nothing to either list. */
  lemma CompletionAddsNothing(d: Dispatcher, h: Happening)
    requires Possible(d, h) && !h.Message? && !h.Handler? && Sound(d.pool[h.k])
    ensures Adds(MachineOf(Next(d, h), h.k), d.pool[h.k], multiset{})
  {
    CompletionLeaves(d, h);
    LeftAddsNothing(d.pool[h.k], h, MachineOf(Next(d, h), h.k));
  }

  lemma LeftAddsNothing(m: Machine, h: Happening, last: Machine)
    requires Sound(m)
    requires match h
      case Resolution(_, i, ok) => i < |m.resolves| &&
        (last == ResolveDone(m, i, ok) || last == Connect(ResolveDone(m, i, ok), m.resolves[i]))
      case Connection(_, i, ok) => i < |m.connects| &&
        (last == ConnectDone(m, i, ok) || last == Write(ConnectDone(m, i, ok), m.connects[i]))
      case Written(_, i, ok) => i < |m.w.inFlight| &&
        (last == WriteDone(m, i, ok) || last == Read(WriteDone(m, i, ok), m.w.inFlight[i]))
      case Received(_, i, ok) => i < |m.r.inFlight| && last == ReadDone(m, i, ok)
      case _ => last == m
    ensures Adds(last, m, multiset{})
  {
    match h
    case Resolution(_, i, ok) => ResolveGivenBack(m, i, ok, last);
    case Connection(_, i, ok) => ConnectGivenBack(m, i, ok, last);
    case Written(_, i, ok) => ReadGivenBack(m, i, ok, last);
    case Received(_, i, ok) => ReadDoneKeeps(m, i, ok);
    case _ =>
  }

  lemma ReadDoneKeeps(m: Machine, i: nat, ok: bool)
    requires i < |m.r.inFlight|
    ensures var n := ReadDone(m, i, ok); ToWrite(n) == ToWrite(m) && ToRead(n) == ToRead(m)
  {
    var n := ReadDone(m, i, ok);
    assert n.r.accepted == m.r.accepted && n.w == m.w && n.resolves == m.resolves && n.connects == m.connects;
  }

  lemma HandlerAddsItsRequest(d: Dispatcher, j: nat, host: string, port: string)
    requires Ledger(d) && Possible(d, Handler(j, host, port))
    ensures var k := Key(false, host, port);
      Adds(MachineOf(Handle(d, j, host, port), k), MachineOf(d, k), multiset{d.posted[j]})
  {
    var k := Key(false, host, port);
    if k in d.pool {
      ConnectAdds(d.pool[k], d.posted[j]);
      WriteAdds(d.pool[k], d.posted[j]);
    }
  }

  /** If a machine's list gains only what leaves the posted requests, the list stays in order. */
  lemma ListKeeps(keys: seq<Key>, posted: multiset<nat>, listed: multiset<nat>, k: Key,
                  posted': multiset<nat>, listed': multiset<nat>, more: multiset<nat>)
    requires ListedOnce(keys, posted, listed, k)
    requires posted' + more == posted && listed' <= listed + more
    requires forall x: nat :: x in more && x in listed' ==> x < |keys| && keys[x] == k
    ensures ListedOnce(keys, posted', listed', k)
  {
    forall x: nat
      ensures posted'[x] + listed'[x] <= posted[x] + listed[x]
      ensures listed'[x] > 0 ==> listed[x] > 0 || more[x] > 0
    {
      assert (posted' + more)[x] == posted'[x] + more[x] && listed'[x] <= (listed + more)[x];
    }
  }

  lemma ListGrows(keys: seq<Key>, posted: multiset<nat>, listed: multiset<nat>, k: Key, added: Key)
    requires ListedOnce(keys, posted, listed, k)
    ensures ListedOnce(keys + [added], posted + multiset{|keys|}, listed, k)
  {
    assert posted[|keys|] + listed[|keys|] == 0;
  }

  lemma MessageSentOnce(d: Dispatcher)
    requires SentOnce(d)
    ensures SentOnce(OnMessage(d))
  {
    var e, n: nat := OnMessage(d), |d.keys|;
    assert multiset(e.posted) == multiset(d.posted) + multiset{n};
    forall k
      ensures ListedOnce(e.keys, multiset(e.posted), ToWrite(MachineOf(e, k)), k)
      ensures ListedOnce(e.keys, multiset(e.posted), ToRead(MachineOf(e, k)), k)
    {
      ListGrows(d.keys, multiset(d.posted), ToWrite(MachineOf(d, k)), k, NO_KEY);
      ListGrows(d.keys, multiset(d.posted), ToRead(MachineOf(d, k)), k, NO_KEY);
    }
  }

  lemma ListRekeys(keys: seq<Key>, posted: multiset<nat>, listed: multiset<nat>, k: Key, r: nat, changed: Key)
    requires ListedOnce(keys, posted, listed, k) && r < |keys| && posted[r] > 0
    ensures ListedOnce(keys[r := changed], posted, listed, k)
  {
    assert listed[r] == 0;
  }

  lemma RekeyedListsOnce(d: Dispatcher, r: nat, changed: Key)
    requires SentOnce(d) && r in d.posted && r < |d.keys|
    ensures ListsOnce(d.keys[r := changed], d)
  {
    assert r in multiset(d.posted);
    forall k
      ensures ListedOnce(d.keys[r := changed], multiset(d.posted), ToWrite(MachineOf(d, k)), k)
      ensures ListedOnce(d.keys[r := changed], multiset(d.posted), ToRead(MachineOf(d, k)), k)
    {
      ListRekeys(d.keys, multiset(d.posted), ToWrite(MachineOf(d, k)), k, r, changed);
      ListRekeys(d.keys, multiset(d.posted), ToRead(MachineOf(d, k)), k, r, changed);
    }
  }

  lemma HandlerTouchesOne(d: Dispatcher, j: nat, host: string, port: string)
    requires j < |d.posted| && d.posted[j] < |d.keys|
    ensures var e := Handle(d, j, host, port);
      && e.keys == d.keys[d.posted[j] := Key(false, host, port)] && e.posted == Without(d.posted, j)
      && forall k :: k != Key(false, host, port) ==> MachineOf(e, k) == MachineOf(d, k)
  {}

  lemma HandlerSentOnce(d: Dispatcher, j: nat, host: string, port: string)
    requires SentOnce(d) && Ledger(d) && Possible(d, Handler(j, host, port))
    ensures SentOnce(Handle(d, j, host, port))
  {
    RekeyedListsOnce(d, d.posted[j], Key(false, host, port));
    HandlerAddsItsRequest(d, j, host, port);
    HandlerTouchesOne(d, j, host, port);
    WithoutMultiset(d.posted, j);
    OthersKeepLists(d, Handle(d, j, host, port), Key(false, host, port), multiset{d.posted[j]});
  }

  lemma CompletionTouchesOne(d: Dispatcher, h: Happening)
    requires Possible(d, h) && !h.Message? && !h.Handler?
    ensures var e := Next(d, h);
      && e.keys == d.keys && e.posted == d.posted
      && forall k :: k != h.k ==> MachineOf(e, k) == MachineOf(d, k)
  {}

  lemma NextSentOnce(d: Dispatcher, h: Happening)
    requires SentOnce(d) && Ledger(d)
    ensures SentOnce(Next(d, h))
  {
    if Possible(d, h) {
      match h
      case Message => MessageSentOnce(d);
      case Handler(j, host, port) => HandlerSentOnce(d, j, host, port);
      case _ => CompletionSentOnce(d, h);
    }
  }

  lemma CompletionSentOnce(d: Dispatcher, h: Happening)
    requires SentOnce(d) && Ledger(d) && Possible(d, h) && !h.Message? && !h.Handler?
    ensures SentOnce(Next(d, h))
  {
    assert Sound(d.pool[h.k]);
    CompletionAddsNothing(d, h);
    CompletionTouchesOne(d, h);
    OthersKeepLists(d, Next(d, h), h.k, multiset{});
  }

  lemma OthersKeepLists(d: Dispatcher, e: Dispatcher, own: Key, more: multiset<nat>)
    requires ListsOnce(e.keys, d) && multiset(e.posted) + more == multiset(d.posted)
    requires forall k :: k != own ==> MachineOf(e, k) == MachineOf(d, k)
    requires Adds(MachineOf(e, own), MachineOf(d, own), more)
    requires forall x: nat :: x in more ==> x < |e.keys| && e.keys[x] == own
    ensures SentOnce(e)
  {
    forall k
      ensures ListedOnce(e.keys, multiset(e.posted), ToWrite(MachineOf(e, k)), k)
      ensures ListedOnce(e.keys, multiset(e.posted), ToRead(MachineOf(e, k)), k)
    {
      var m, n := MachineOf(d, k), MachineOf(e, k);
      assert forall x: nat :: x in more ==> multiset(d.posted)[x] > 0;
      assert k != own ==> forall x :: x in more ==> x !in ToWrite(n) && x !in ToRead(n);
      ListKeeps(e.keys, multiset(d.posted), ToWrite(m), k, multiset(e.posted), ToWrite(n), more);
      ListKeeps(e.keys, multiset(d.posted), ToRead(m), k, multiset(e.posted), ToRead(n), more);
    }
  }

  lemma {:induction false} EveryDispatchSendsOnce(run: seq<Happening>)
    ensures SentOnce(Dispatched(run))
  {
    if run == [] {
      assert Ids([]) == [];
    } else {
      EveryDispatchSendsOnce(run[..|run| - 1]);
      EveryDispatchBalances(run[..|run| - 1]);
      NextSentOnce(Dispatched(run[..|run| - 1]), run[|run| - 1]);
    }
  }

  /** In every run, with any errors and reconnects, a connection writes each request at most once and
      reads for it at most once, and only requests of its own key; a write or read that was skipped or
      is still waiting has not been on the wire. */
  lemma NothingIsSentTwice(run: seq<Happening>, k: Key, x: nat)
    requires k in Dispatched(run).pool
    ensures var d := Dispatched(run);
            var m := d.pool[k];
      && multiset(m.w.started)[x] <= 1 && multiset(m.r.started)[x] <= 1
      && multiset(m.w.succeeded)[x] + multiset(m.w.failed)[x] + multiset(m.w.inFlight)[x] <= 1
      && multiset(m.r.succeeded)[x] + multiset(m.r.failed)[x] + multiset(m.r.inFlight)[x] <= 1
      && (x in m.w.started || x in m.r.started ==> x < |d.keys| && d.keys[x] == k)
      && (x in m.w.skipped || x in Waiting(m.w) ==> x !in m.w.started)
      && (x in m.r.skipped || x in Waiting(m.r) ==> x !in m.r.started)
  {
    var d := Dispatched(run);
    var m := d.pool[k];
    EveryDispatchSendsOnce(run);
    EveryDispatchBalances(run);
    AcceptedOnce(d, k, x);
    AtMostOnce(m.w, x);
    AtMostOnce(m.r, x);
    StartedWasAccepted(m.w, x);
    StartedWasAccepted(m.r, x);
  }

  lemma AcceptedOnce(d: Dispatcher, k: Key, x: nat)
    requires SentOnce(d) && k in d.pool
    ensures var m := d.pool[k];
      && multiset(Ids(m.w.accepted))[x] <= 1 && multiset(Ids(m.r.accepted))[x] <= 1
      && (x in Ids(m.w.accepted) || x in Ids(m.r.accepted) ==> x < |d.keys| && d.keys[x] == k)
  {
    var m := MachineOf(d, k);
    assert ListedOnce(d.keys, multiset(d.posted), ToWrite(m), k);
    assert ListedOnce(d.keys, multiset(d.posted), ToRead(m), k);
    assert multiset(Ids(m.w.accepted))[x] <= ToWrite(m)[x] && multiset(Ids(m.r.accepted))[x] <= ToRead(m)[x];
    assert x in Ids(m.w.accepted) ==> x in multiset(Ids(m.w.accepted));
    assert x in Ids(m.r.accepted) ==> x in multiset(Ids(m.r.accepted));
  }

  lemma StartedWasAccepted(c: Channel, x: nat)
    requires Balanced(c)
    ensures x in c.started ==> x in Ids(c.accepted)
  {
    if x in c.started {
      assert x in multiset(c.started) && x in multiset(Ids(c.accepted));
    }
  }
}
