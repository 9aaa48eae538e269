/** Which response goes to which request on a pipelined connection: section 9.3.2 of RFC 9112 has the
    server answer in the order of the requests, so the k-th read to complete carries the response to
    the k-th request written. */
module HttpPipelining {
  import opened HttpChannel
  import opened HttpConnection
  import opened HttpDispatcher
  import opened HttpDispatcherLedger
  import opened HttpDispatcherConnections
  import opened HttpDispatcherOutcomes

  predicate CleanStep(h: Happening) {
    h.Written? || h.Received? ==> h.ok
  }

  predicate CleanDispatch(run: seq<Happening>) {
    run != [] ==> CleanDispatch(run[..|run| - 1]) && CleanStep(run[|run| - 1])
  }

  /** On a failure-free connection reads are requested in the order in which writes complete. */
  ghost predicate Pipelined(m: Machine) {
    InOrder(m) && Ids(m.r.accepted) == m.w.succeeded
  }

  lemma AwaitPipelined(m: Machine, e: Event)
    requires Pipelined(m) && (e.CallResolve? || e.CallConnect? || e.OnResolve? || e.OnConnect?)
    ensures Pipelined(Step(m, e))
  {
    AwaitInOrder(m, e);
  }

  lemma WritePipelined(m: Machine, x: nat)
    requires Pipelined(m)
    ensures Pipelined(Write(m, x))
  {
    WriteInOrder(m, x);
  }

  lemma ReadDonePipelined(m: Machine, i: nat)
    requires Pipelined(m) && i < |m.r.inFlight|
    ensures Pipelined(ReadDone(m, i, true))
  {
    ReadDoneInOrder(m, i);
  }

  lemma WriteDoneKeepsReads(m: Machine, i: nat)
    requires i < |m.w.inFlight|
    ensures WriteDone(m, i, true).r == m.r && WriteDone(m, i, true).w.succeeded == m.w.succeeded + [m.w.inFlight[i]]
  {}

  lemma ReadAccepted(n: Machine, x: nat)
    requires IsLive(n.phase)
    ensures Ids(Read(n, x).r.accepted) == Ids(n.r.accepted) + [x]
    ensures Read(n, x).w == n.w
  {}

  lemma WriteThenReadPipelined(m: Machine, i: nat)
    requires Pipelined(m) && i < |m.w.inFlight|
    ensures var n := WriteDone(m, i, true);
      IsLive(n.phase) && Pipelined(Read(n, m.w.inFlight[i]))
  {
    var n, x := WriteDone(m, i, true), m.w.inFlight[i];
    WriteDoneInOrder(m, i);
    ReadInOrder(n, x);
    WriteDoneKeepsReads(m, i);
    ReadAccepted(n, x);
  }

  ghost predicate AllPipelined(d: Dispatcher) {
    forall k :: k in d.pool ==> Pipelined(d.pool[k])
  }

  lemma OneChanged(d: Dispatcher, e: Dispatcher, k: Key, m: Machine)
    requires AllPipelined(d) && e.pool == d.pool[k := m] && Pipelined(m)
    ensures AllPipelined(e)
  {}

  lemma ConnectForPipelined(d: Dispatcher, k: Key, m: Machine, r: nat)
    requires AllPipelined(d) && k in d.pool && Pipelined(m)
    ensures AllPipelined(ConnectFor(d.(pool := d.pool[k := m]), k, r))
  {
    var e := ConnectFor(d.(pool := d.pool[k := m]), k, r);
    if m.phase.Resolved? {
      var n := Connect(m, r);
      AwaitPipelined(m, CallConnect(r));
      Overwritten(d.pool, k, m, n);
      OneChanged(d, e, k, n);
    } else {
      OneChanged(d, e, k, m);
    }
  }

  lemma PerformPipelined(d: Dispatcher, k: Key, m: Machine, r: nat)
    requires AllPipelined(d) && k in d.pool && Pipelined(m)
    ensures AllPipelined(Perform(d.(pool := d.pool[k := m]), k, r))
  {
    var e := Perform(d.(pool := d.pool[k := m]), k, r);
    if IsLive(m.phase) {
      WritePipelined(m, r);
      Overwritten(d.pool, k, m, Write(m, r));
      OneChanged(d, e, k, Write(m, r));
    } else {
      OneChanged(d, e, k, m);
    }
  }

  lemma HandlerPipelined(d: Dispatcher, j: nat, host: string, port: string)
    requires AllPipelined(d) && j < |d.posted| && d.posted[j] < |d.keys|
    ensures AllPipelined(Handle(d, j, host, port))
  {
    var r, k := d.posted[j], Key(false, host, port);
    var d1 := d.(posted := Without(d.posted, j), keys := d.keys[r := k]);
    if k in d.pool {
      assert d.pool[k := d.pool[k]] == d.pool;
      ConnectForPipelined(d1, k, d.pool[k], r);
      PerformPipelined(d1, k, d.pool[k], r);
    } else {
      CleanRunsAreInOrder([]);
      AwaitPipelined(FRESH, CallResolve(r));
      OneChanged(d, Handle(d, j, host, port), k, HttpConnection.Resolve(FRESH, r));
    }
  }

  lemma WrittenPipelined(d: Dispatcher, k: Key, i: nat)
    requires AllPipelined(d) && k in d.pool && i < |d.pool[k].w.inFlight|
    ensures AllPipelined(OnWritten(d, k, i, true))
  {
    var m, x := d.pool[k], d.pool[k].w.inFlight[i];
    var n, e := WriteDone(m, i, true), OnWritten(d, k, i, true);
    WriteThenReadPipelined(m, i);
    Overwritten(d.pool, k, n, Read(n, x));
    OneChanged(d, e, k, Read(n, x));
  }

  lemma ReceivedPipelined(d: Dispatcher, k: Key, i: nat)
    requires AllPipelined(d) && k in d.pool && i < |d.pool[k].r.inFlight|
    ensures AllPipelined(OnReadDone(d, k, i, true))
  {
    var m, x := d.pool[k], d.pool[k].r.inFlight[i];
    var n := ReadDone(m, i, true);
    ReadDonePipelined(m, i);
    OneChanged(d, OnReadDone(d, k, i, true), k, n);
  }

  lemma ResolutionPipelined(d: Dispatcher, k: Key, i: nat, ok: bool)
    requires AllPipelined(d) && k in d.pool && i < |d.pool[k].resolves|
    ensures AllPipelined(OnResolved(d, k, i, ok))
  {
    var m := ResolveDone(d.pool[k], i, ok);
    AwaitPipelined(d.pool[k], OnResolve(i, ok));
    if ok {
      ConnectForPipelined(d, k, m, d.pool[k].resolves[i]);
    } else {
      OneChanged(d, OnResolved(d, k, i, ok), k, m);
    }
  }

  lemma ConnectionPipelined(d: Dispatcher, k: Key, i: nat, ok: bool)
    requires AllPipelined(d) && k in d.pool && i < |d.pool[k].connects|
    ensures AllPipelined(OnConnected(d, k, i, ok))
  {
    var m := ConnectDone(d.pool[k], i, ok);
    AwaitPipelined(d.pool[k], OnConnect(i, ok));
    if ok {
      PerformPipelined(d, k, m, d.pool[k].connects[i]);
    } else {
      OneChanged(d, OnConnected(d, k, i, ok), k, m);
    }
  }

  lemma NextPipelined(d: Dispatcher, h: Happening)
    requires AllPipelined(d) && CleanStep(h)
    ensures AllPipelined(Next(d, h))
  {
    if Possible(d, h) {
      match h
      case Message =>
      case Handler(j, host, port) => HandlerPipelined(d, j, host, port);
      case Resolution(k, i, ok) => ResolutionPipelined(d, k, i, ok);
      case Connection(k, i, ok) => ConnectionPipelined(d, k, i, ok);
      case Written(k, i, _) => WrittenPipelined(d, k, i);
      case Received(k, i, _) => ReceivedPipelined(d, k, i);
    }
  }

  lemma {:induction false} CleanDispatchesArePipelined(run: seq<Happening>)
    requires CleanDispatch(run)
    ensures AllPipelined(Dispatched(run))
  {
    if run != [] {
      CleanDispatchesArePipelined(run[..|run| - 1]);
      NextPipelined(Dispatched(run[..|run| - 1]), run[|run| - 1]);
    }
  }

  /** The k-th answer belongs to the k-th request written. */
  ghost predicate Paired(answers: seq<nat>, written: seq<nat>) {
    forall k :: 0 <= k < |answers| && k < |written| ==> answers[k] == written[k]
  }

  predicate Distinct(s: seq<nat>) {
    forall i, j :: 0 <= i < j < |s| ==> s[i] != s[j]
  }

  /** The reads that succeeded are the first ones kept. */
  lemma KeptReads(m: Machine)
    requires Pipelined(m)
    ensures |m.r.succeeded| <= |m.r.accepted| <= |m.w.started|
    ensures m.r.succeeded <= Kept(m.r.accepted)
    ensures forall i :: 0 <= i < |m.r.accepted| ==> m.w.started[i] == m.r.accepted[i].id
  {
    KeptStarted(m.r);
    KeptAll(m.r.accepted);
    assert m.r.started == m.r.succeeded + m.r.inFlight && m.w.started == m.w.succeeded + m.w.inFlight;
  }

  lemma KeptStarted(c: Channel)
    requires Orderly(c, true) || Orderly(c, false)
    ensures c.started <= Kept(c.accepted)
  {
    var n := Settled(c);
    assert c.accepted == c.accepted[..n] + c.accepted[n..];
    KeptConcat(c.accepted[..n], c.accepted[n..]);
  }

  /** The k-th response is handed to the k-th request written, for every k so far, if and only if none
      of those reads was requested while another read was in flight and the read queue was empty. */
  lemma PairedExactlyWhen(m: Machine)
    requires Pipelined(m) && Distinct(m.w.succeeded)
    ensures |m.r.succeeded| <= |m.r.accepted| <= |m.w.started|
    ensures Paired(m.r.succeeded, m.w.started) <==>
              forall e :: e in m.r.accepted[..|m.r.succeeded|] ==> !e.arrival.First?
  {
    KeptReads(m);
    var n, es := |m.r.succeeded|, m.r.accepted;
    if forall e :: e in es[..n] ==> !e.arrival.First? {
      NoneLost(es, n);
    } else {
      var q := FirstLost(es, n);
      assert m.r.succeeded[q] == Kept(es)[q];
      assert m.w.started[q] == es[q].id;
    }
  }

  lemma NoneLost(es: seq<Entry>, n: nat)
    requires n <= |es| && forall e :: e in es[..n] ==> !e.arrival.First?
    ensures n <= |Kept(es)| && forall i :: 0 <= i < n ==> Kept(es)[i] == es[i].id
  {
    KeptAll(es[..n]);
    assert es == es[..n] + es[n..];
    KeptConcat(es[..n], es[n..]);
  }

  /** The first read to be skipped is replaced by a later one. */
  lemma FirstLost(es: seq<Entry>, n: nat) returns (q: nat)
    requires n <= |es| && n <= |Kept(es)| && Distinct(Ids(es))
    requires exists e :: e in es[..n] && e.arrival.First?
    ensures q < n && Kept(es)[q] != es[q].id
  {
    q := 0;
    while !es[q].arrival.First?
      invariant q < n && forall i :: 0 <= i < q ==> !es[i].arrival.First?
      invariant exists i :: q <= i < n && es[i].arrival.First?
      decreases n - q
    {
      q := q + 1;
    }
    SkipShifts(es, q, n);
  }

  lemma KeptAroundSkip(a: seq<Entry>, f: Entry, b: seq<Entry>)
    requires f.arrival.First? && forall e :: e in a ==> !e.arrival.First?
    ensures Kept(a + [f] + b) == Ids(a) + Kept(b)
  {
    KeptConcat(a + [f], b);
    IdsAppend(a, f);
    KeptAll(a);
  }

  lemma SkipShifts(es: seq<Entry>, q: nat, n: nat)
    requires q < n <= |Kept(es)| && n <= |es| && es[q].arrival.First? && Distinct(Ids(es))
    requires forall i :: 0 <= i < q ==> !es[i].arrival.First?
    ensures Kept(es)[q] != es[q].id
  {
    var a, f, b := es[..q], es[q], es[q + 1..];
    assert es == a + [f] + b;
    KeptAroundSkip(a, f, b);
    var x := Kept(es)[q];
    assert x == Kept(b)[0];
    KeptFromIds(b, x);
    var i :| 0 <= i < |b| && Ids(b)[i] == x;
    assert Ids(es)[q + 1 + i] == x;
  }

  /** The answered requests that have a key, in the order in which the answers left the dispatcher. */
  function AnswersFor(responses: seq<nat>, keys: seq<Key>, k: Key): seq<nat> {
    if responses == [] then [] else
    var before, r := AnswersFor(responses[..|responses| - 1], keys, k), responses[|responses| - 1];
    if r < |keys| && keys[r] == k then before + [r] else before
  }

  lemma {:induction false} SameKeysSameAnswers(responses: seq<nat>, keys: seq<Key>, keys': seq<Key>, k: Key)
    requires |keys| <= |keys'|
    requires forall r :: r in responses ==> r < |keys| && keys'[r] == keys[r]
    ensures AnswersFor(responses, keys', k) == AnswersFor(responses, keys, k)
  {
    if responses != [] {
      var before, r := responses[..|responses| - 1], responses[|responses| - 1];
      assert r in responses && forall x :: x in before ==> x in responses;
      SameKeysSameAnswers(before, keys, keys', k);
    }
  }

  predicate Answers(d: Dispatcher, h: Happening) {
    h.Received? && h.ok && Possible(d, h)
  }

  lemma StepAnswers(m: Machine, e: Event)
    ensures Step(m, e).r.succeeded ==
              if e.OnRead? && e.ok && Enabled(m, e) then m.r.succeeded + [m.r.inFlight[e.i]] else m.r.succeeded
  {}

  lemma EventsAnswer(d: Dispatcher, h: Happening, k: Key)
    ensures var m, events := MachineOf(d, k), Events(d, h, k);
      && |events| <= 2 && (|events| == 2 ==> IsCall(events[1]))
      && (Answers(d, h) && h.k == k <==> events != [] && events[0].OnRead? && events[0].ok && Enabled(m, events[0]))
      && (Answers(d, h) && h.k == k ==> events[0].i == h.i)
  {}

  lemma MachineAnswers(d: Dispatcher, h: Happening, k: Key)
    ensures MachineOf(Next(d, h), k).r.succeeded ==
              if Answers(d, h) && h.k == k then MachineOf(d, k).r.succeeded + [d.pool[k].r.inFlight[h.i]]
              else MachineOf(d, k).r.succeeded
  {
    var m, events := MachineOf(d, k), Events(d, h, k);
    NextIsSteps(d, h, k);
    EventsAnswer(d, h, k);
    if events != [] {
      StepAnswers(m, events[0]);
      if |events| == 2 {
        StepAnswers(Step(m, events[0]), events[1]);
      }
    }
  }

  lemma NextAnswers(d: Dispatcher, h: Happening)
    ensures Next(d, h).responses ==
              if Answers(d, h) then d.responses + [d.pool[h.k].r.inFlight[h.i]] else d.responses
  {}

  lemma AnsweredIsNotPosted(d: Dispatcher, r: nat)
    requires Ledger(d) && r in d.responses
    ensures r < |d.keys| && r !in d.posted
  {
    OutsideCount(d, r);
    assert r in multiset(d.responses) && (r in d.posted <==> r in multiset(d.posted));
    assert r < |d.keys| ==> Outside(d)[r] + At(Holdings(d), d.keys[r], r) == 1;
  }

  lemma InFlightHasKey(d: Dispatcher, k: Key, i: nat)
    requires Ledger(d) && k in d.pool && i < |d.pool[k].r.inFlight|
    ensures var r := d.pool[k].r.inFlight[i]; r < |d.keys| && d.keys[r] == k
  {
    var m, r := d.pool[k], d.pool[k].r.inFlight[i];
    HeldByCount(m, r);
    assert r in m.r.inFlight && r in multiset(m.r.inFlight);
    assert At(Holdings(d), k, r) == HeldBy(m)[r];
  }

  lemma AnswersKeepKeys(d: Dispatcher, h: Happening)
    requires Ledger(d)
    ensures var e := Next(d, h);
      && |d.keys| <= |e.keys|
      && forall r :: r in d.responses ==> r < |d.keys| && e.keys[r] == d.keys[r]
  {
    NextGrows(d, h);
    forall r | r in d.responses
      ensures r < |d.keys| && Next(d, h).keys[r] == d.keys[r]
    {
      AnsweredIsNotPosted(d, r);
    }
  }

  lemma AnswersForNext(d: Dispatcher, h: Happening, k: Key)
    requires Ledger(d) && AnswersFor(d.responses, d.keys, k) == MachineOf(d, k).r.succeeded
    ensures AnswersFor(Next(d, h).responses, Next(d, h).keys, k) == MachineOf(Next(d, h), k).r.succeeded
  {
    AnswersKeepKeys(d, h);
    SameKeysSameAnswers(d.responses, d.keys, Next(d, h).keys, k);
    NextAnswers(d, h);
    MachineAnswers(d, h, k);
    if Answers(d, h) {
      InFlightHasKey(d, h.k, h.i);
      OneAnswerMore(d.responses, d.keys, k, d.pool[h.k].r.inFlight[h.i]);
    }
  }

  lemma OneAnswerMore(responses: seq<nat>, keys: seq<Key>, k: Key, r: nat)
    requires r < |keys|
    ensures AnswersFor(responses + [r], keys, k) ==
              if keys[r] == k then AnswersFor(responses, keys, k) + [r] else AnswersFor(responses, keys, k)
  {
    assert (responses + [r])[..|responses|] == responses;
  }

  /** In every run, what leaves the dispatcher for the requests of a key is what the reads of the
      connection of that key brought, in the same order. */
  lemma {:induction false} AnswersComeFromReads(run: seq<Happening>, k: Key)
    ensures var d := Dispatched(run); AnswersFor(d.responses, d.keys, k) == MachineOf(d, k).r.succeeded
  {
    if run != [] {
      AnswersComeFromReads(run[..|run| - 1], k);
      EveryDispatchBalances(run[..|run| - 1]);
      AnswersForNext(Dispatched(run[..|run| - 1]), run[|run| - 1], k);
    }
  }

  lemma WrittenOnce(run: seq<Happening>, k: Key)
    requires k in Dispatched(run).pool
    ensures Distinct(Dispatched(run).pool[k].w.succeeded)
  {
    forall x: nat
      ensures multiset(Dispatched(run).pool[k].w.succeeded)[x] <= 1
    {
      NothingIsSentTwice(run, k, x);
    }
    CountsDistinct(Dispatched(run).pool[k].w.succeeded);
  }

  /** In every run without a failed write or read, for every key: the k-th answer to leave the dispatcher
      for that key is the answer to its k-th request written, for every k so far, if and only if none of
      those reads was requested while another was in flight and the read queue was empty. */
  lemma ResponsesArePaired(run: seq<Happening>, k: Key)
    requires CleanDispatch(run) && k in Dispatched(run).pool
    ensures var d := Dispatched(run);
            var m, answers := d.pool[k], AnswersFor(d.responses, d.keys, k);
      && |answers| <= |m.r.accepted| <= |m.w.started|
      && (Paired(answers, m.w.started) <==> forall e :: e in m.r.accepted[..|answers|] ==> !e.arrival.First?)
  {
    CleanDispatchesArePipelined(run);
    AnswersComeFromReads(run, k);
    WrittenOnce(run, k);
    PairedExactlyWhen(Dispatched(run).pool[k]);
  }

  lemma CountsDistinct(s: seq<nat>)
    requires forall x: nat :: multiset(s)[x] <= 1
    ensures Distinct(s)
  {
    forall i, j | 0 <= i < j < |s|
      ensures s[i] != s[j]
    {
      assert s == s[..i] + [s[i]] + s[i + 1..j] + [s[j]] + s[j + 1..];
      assert multiset(s)[s[i]] >= multiset([s[i]])[s[i]] + multiset([s[j]])[s[i]];
    }
  }

  // ---------------------------------------------------------------------------------------------
  // When nothing is under way
  // ---------------------------------------------------------------------------------------------

  ghost predicate Quiet(d: Dispatcher) {
    && d.posted == []
    && forall k :: k in d.pool ==>
         && d.pool[k].resolves == [] && d.pool[k].connects == []
         && d.pool[k].w.inFlight == [] && d.pool[k].r.inFlight == []
  }

  lemma QuietMachine(m: Machine)
    requires Pipelined(m) && m.w.inFlight == [] && m.r.inFlight == []
    ensures Waiting(m.w) == [] && Waiting(m.r) == []
  {}

  lemma QuietPlace(d: Dispatcher, m: Machine, r: nat, p: Place)
    requires d.posted == [] && m.resolves == m.connects == m.w.inFlight == m.r.inFlight == []
    requires Copies(d, m, r, p) == 1
    ensures Final(p) || p.WriteQueued? || p.ReadQueued?
    ensures Waiting(m.w) == [] && Waiting(m.r) == [] ==> Final(p)
  {}

  /** When nothing is posted or in flight, every request was answered, dropped or abandoned, or is left
      in the queue of a connection that was lost; the last does not happen if no write or read fails. */
  lemma QuietDispatchIsSettled(run: seq<Happening>, r: nat) returns (p: Place)
    requires Quiet(Dispatched(run)) && r < |Dispatched(run).keys|
    ensures var d := Dispatched(run); Copies(d, MachineOf(d, d.keys[r]), r, p) == 1
    ensures Final(p) || p.WriteQueued? || p.ReadQueued?
    ensures CleanDispatch(run) ==> Final(p)
  {
    var d := Dispatched(run);
    var m := MachineOf(d, d.keys[r]);
    ExactlyOnePlace(run, r);
    p :| Copies(d, m, r, p) == 1;
    QuietPlace(d, m, r, p);
    if CleanDispatch(run) && d.keys[r] in d.pool {
      CleanDispatchesArePipelined(run);
      QuietMachine(m);
      QuietPlace(d, m, r, p);
    }
  }

  // ---------------------------------------------------------------------------------------------
  // A run that does not pair
  // ---------------------------------------------------------------------------------------------

  const HOST_KEY: Key := Key(false, "host", "80")

  /** A dispatcher that has received three requests for one endpoint. */
  function Solo(posted: seq<nat>, keys: seq<Key>, m: Machine, responses: seq<nat>): Dispatcher {
    Dispatcher(keys, posted, map[HOST_KEY := m], responses, [], [])
  }

  lemma SoloHandler(posted: seq<nat>, keys: seq<Key>, m: Machine, responses: seq<nat>)
    requires posted != [] && posted[0] < |keys| && IsLive(m.phase)
    ensures Next(Solo(posted, keys, m, responses), Handler(0, "host", "80")) ==
            Solo(posted[1..], keys[posted[0] := HOST_KEY], Write(m, posted[0]), responses)
  {
    assert Without(posted, 0) == posted[1..];
    assert map[HOST_KEY := m][HOST_KEY := Write(m, posted[0])] == map[HOST_KEY := Write(m, posted[0])];
  }

  lemma SoloWritten(posted: seq<nat>, keys: seq<Key>, m: Machine, responses: seq<nat>)
    requires m.w.inFlight != [] && IsLive(m.phase)
    ensures Next(Solo(posted, keys, m, responses), Written(HOST_KEY, 0, true)) ==
            Solo(posted, keys, Read(WriteDone(m, 0, true), m.w.inFlight[0]), responses)
  {
    var n := WriteDone(m, 0, true);
    assert IsLive(n.phase);
    assert map[HOST_KEY := m][HOST_KEY := n][HOST_KEY := Read(n, m.w.inFlight[0])]
        == map[HOST_KEY := Read(n, m.w.inFlight[0])];
  }

  lemma SoloReceived(posted: seq<nat>, keys: seq<Key>, m: Machine, responses: seq<nat>)
    requires m.r.inFlight != []
    ensures Next(Solo(posted, keys, m, responses), Received(HOST_KEY, 0, true)) ==
            Solo(posted, keys, ReadDone(m, 0, true), responses + [m.r.inFlight[0]])
  {
    assert map[HOST_KEY := m][HOST_KEY := ReadDone(m, 0, true)] == map[HOST_KEY := ReadDone(m, 0, true)];
  }

  /** Reading one response, with nothing to write. */
  ghost predicate Awaits(m: Machine, started: seq<nat>, r: Channel) {
    m.phase.Reading? && m.w.queue == m.w.inFlight == [] && m.w.started == started && m.r == r
  }

  lemma OneMoreAwaited(m: Machine, started: seq<nat>, r: Channel, z: nat)
    requires Awaits(m, started, r)
    ensures IsLive(m.phase) && IsLive(Write(m, z).phase) && Write(m, z).w.inFlight == [z]
    ensures Awaits(Read(WriteDone(Write(m, z), 0, true), z), started + [z], Enqueue(r, z))
  {}

  /** The next handler runs while a response is awaited, and its write completes. */
  lemma SoloServes(posted: seq<nat>, keys: seq<Key>, m: Machine, started: seq<nat>, r: Channel) returns (n: Machine)
    requires posted != [] && posted[0] < |keys| && Awaits(m, started, r)
    ensures Awaits(n, started + [posted[0]], Enqueue(r, posted[0]))
    ensures Next(Next(Solo(posted, keys, m, []), Handler(0, "host", "80")), Written(HOST_KEY, 0, true)) ==
            Solo(posted[1..], keys[posted[0] := HOST_KEY], n, [])
  {
    var z := posted[0];
    n := Read(WriteDone(Write(m, z), 0, true), z);
    OneMoreAwaited(m, started, r, z);
    SoloHandler(posted, keys, m, []);
    SoloWritten(posted[1..], keys[z := HOST_KEY], Write(m, z), []);
  }

  const THREE_MESSAGES: seq<Happening> := [] + [Message] + [Message] + [Message]
  const ARRIVALS: seq<Happening> := THREE_MESSAGES + [Handler(0, "host", "80")]
  const CONNECTING: seq<Happening> := [Resolution(HOST_KEY, 0, true), Connection(HOST_KEY, 0, true)]
  const SERVED: seq<Happening> := [Handler(0, "host", "80"), Written(HOST_KEY, 0, true)]

  lemma Arrivals()
    ensures Dispatched(ARRIVALS) == Solo([1, 2], [HOST_KEY, NO_KEY, NO_KEY], HttpConnection.Resolve(FRESH, 0), [])
  {
    var d := ThreeMessages();
    DispatchedOneMore(THREE_MESSAGES, Handler(0, "host", "80"));
    assert Without([0, 1, 2], 0) == [1, 2];
  }

  lemma MessagesAdd(keys: seq<Key>, posted: seq<nat>, keys': seq<Key>, posted': seq<nat>)
    requires keys' == keys + [NO_KEY] && posted' == posted + [|keys|]
    ensures Next(Dispatcher(keys, posted, map[], [], [], []), Message) == Dispatcher(keys', posted', map[], [], [], [])
  {}

  lemma ThreeMessages() returns (d: Dispatcher)
    ensures d == Dispatcher([NO_KEY, NO_KEY, NO_KEY], [0, 1, 2], map[], [], [], [])
    ensures Dispatched(THREE_MESSAGES) == d
  {
    d := Dispatcher([NO_KEY, NO_KEY, NO_KEY], [0, 1, 2], map[], [], [], []);
    DispatchedOneMore([], Message);
    MessagesAdd([], [], [NO_KEY], [0]);
    DispatchedOneMore([] + [Message], Message);
    MessagesAdd([NO_KEY], [0], [NO_KEY, NO_KEY], [0, 1]);
    DispatchedOneMore([] + [Message] + [Message], Message);
    MessagesAdd([NO_KEY, NO_KEY], [0, 1], [NO_KEY, NO_KEY, NO_KEY], [0, 1, 2]);
  }

  lemma DispatchedTwoMore(run: seq<Happening>, more: seq<Happening>)
    requires |more| == 2
    ensures Dispatched(run + more) == Next(Next(Dispatched(run), more[0]), more[1])
  {
    DispatchedOneMore(run, more[0]);
    DispatchedOneMore(run + [more[0]], more[1]);
    assert run + more == run + [more[0]] + [more[1]];
  }

  lemma Connects(posted: seq<nat>, keys: seq<Key>)
    ensures Next(Next(Solo(posted, keys, HttpConnection.Resolve(FRESH, 0), []), CONNECTING[0]), CONNECTING[1]) ==
            Solo(posted, keys, Write(CONNECTED, 0), [])
  {
    var m := HttpConnection.Resolve(FRESH, 0);
    var n := Connect(ResolveDone(m, 0, true), 0);
    assert map[HOST_KEY := m][HOST_KEY := ResolveDone(m, 0, true)][HOST_KEY := n] == map[HOST_KEY := n];
    assert Next(Solo(posted, keys, m, []), CONNECTING[0]) == Solo(posted, keys, n, []);
    assert ConnectDone(n, 0, true) == CONNECTED;
    assert map[HOST_KEY := n][HOST_KEY := CONNECTED][HOST_KEY := Write(CONNECTED, 0)]
        == map[HOST_KEY := Write(CONNECTED, 0)];
  }

  lemma TwoResponses(keys: seq<Key>, m: Machine)
    requires Awaits(m, [0, 1, 2], Enqueue(Enqueue(Begin(EMPTY, 0), 1), 2))
    ensures var d := Next(Next(Solo([], keys, m, []), Received(HOST_KEY, 0, true)), Received(HOST_KEY, 0, true));
      && d.keys == keys && d.responses == [0, 2] && HOST_KEY in d.pool
      && d.pool[HOST_KEY].w.started == [0, 1, 2]
      && d.pool[HOST_KEY].r.succeeded == [0, 2] && d.pool[HOST_KEY].r.skipped == [1]
  {
    assert m.r.queue == [1, 2] && m.r.inFlight == [0];
    SoloReceived([], keys, m, []);
    var n := ReadDone(m, 0, true);
    assert n.r == Advance(Finish(m.r, 0, true));
    assert n.r.queue == n.r.inFlight == [2] && n.r.succeeded == [0] && n.r.skipped == [1];
    SoloReceived([], keys, n, [0]);
  }

  const FIRST_WRITTEN: seq<Happening> := ARRIVALS + CONNECTING + [Written(HOST_KEY, 0, true)]

  lemma FirstWritten() returns (m: Machine)
    ensures Dispatched(FIRST_WRITTEN) == Solo([1, 2], [HOST_KEY, NO_KEY, NO_KEY], m, [])
    ensures Awaits(m, [0], Begin(EMPTY, 0))
  {
    Arrivals();
    DispatchedTwoMore(ARRIVALS, CONNECTING);
    Connects([1, 2], [HOST_KEY, NO_KEY, NO_KEY]);
    DispatchedOneMore(ARRIVALS + CONNECTING, Written(HOST_KEY, 0, true));
    SoloWritten([1, 2], [HOST_KEY, NO_KEY, NO_KEY], Write(CONNECTED, 0), []);
    m := Read(WriteDone(Write(CONNECTED, 0), 0, true), 0);
  }

  lemma Served(run: seq<Happening>, posted: seq<nat>, keys: seq<Key>, m: Machine, started: seq<nat>, r: Channel)
    returns (n: Machine)
    requires Dispatched(run) == Solo(posted, keys, m, []) && Awaits(m, started, r)
    requires posted != [] && posted[0] < |keys|
    ensures Awaits(n, started + [posted[0]], Enqueue(r, posted[0]))
    ensures Dispatched(run + SERVED) == Solo(posted[1..], keys[posted[0] := HOST_KEY], n, [])
  {
    DispatchedTwoMore(run, SERVED);
    n := SoloServes(posted, keys, m, started, r);
  }

  const ALL_WRITTEN: seq<Happening> := FIRST_WRITTEN + SERVED + SERVED

  lemma AllWritten() returns (m: Machine)
    ensures Dispatched(ALL_WRITTEN) == Solo([], [HOST_KEY, HOST_KEY, HOST_KEY], m, [])
    ensures Awaits(m, [0, 1, 2], Enqueue(Enqueue(Begin(EMPTY, 0), 1), 2))
  {
    var keys := [HOST_KEY, NO_KEY, NO_KEY];
    m := FirstWritten();
    m := Served(FIRST_WRITTEN, [1, 2], keys, m, [0], Begin(EMPTY, 0));
    assert [1, 2][1..] == [2] && [0] + [1] == [0, 1];
    m := Served(FIRST_WRITTEN + SERVED, [2], keys[1 := HOST_KEY], m, [0, 1], Enqueue(Begin(EMPTY, 0), 1));
    assert keys[1 := HOST_KEY][2 := HOST_KEY] == [HOST_KEY, HOST_KEY, HOST_KEY] && [2][1..] == [];
  }

  lemma SkippedIsAbandoned(d: Dispatcher, k: Key, r: nat)
    requires r < |d.keys| && d.keys[r] == k && k in d.pool && r in d.pool[k].r.skipped
    requires Abandonments(d, r) <= 1
    ensures IsAbandoned(d, r)
  {
    assert r in multiset(d.pool[k].r.skipped);
  }

  const TWO_RESPONSES: seq<Happening> := [Received(HOST_KEY, 0, true), Received(HOST_KEY, 0, true)]

  /** Not every run pairs: three requests for one endpoint, the second handled while the response to
      the first is awaited and the third while the second read is queued. The second response is handed
      to the third request, and the second request is abandoned. */
  lemma SecondResponseGoesToThirdRequest()
    ensures var d := Dispatched(ALL_WRITTEN + TWO_RESPONSES);
      && HOST_KEY in d.pool && d.pool[HOST_KEY].w.started == [0, 1, 2] && d.responses == [0, 2]
      && IsAbandoned(d, 1)
  {
    var m := AllWritten();
    DispatchedTwoMore(ALL_WRITTEN, TWO_RESPONSES);
    TwoResponses([HOST_KEY, HOST_KEY, HOST_KEY], m);
    EveryDispatchBalances(ALL_WRITTEN + TWO_RESPONSES);
    var d := Dispatched(ALL_WRITTEN + TWO_RESPONSES);
    AtMostOnePlace(d, 1);
    SkippedIsAbandoned(d, HOST_KEY, 1);
  }
}
