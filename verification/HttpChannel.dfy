/** One direction of an HTTP connection: the queue in which a connection keeps the reads (or the
    writes) it cannot start yet, the operations handed to the transport, and a log of what became
    of every accepted operation. An operation is known by the number of its callback pair. */
module HttpChannel {

  /** How a channel looked when it accepted an operation. */
  datatype Arrival =
    | Direct  // the channel was free: the operation was started at once and never queued
    | First   // the channel was busy and its queue was empty
    | Behind  // the channel was busy and its queue was not empty

  datatype Entry = Entry(id: nat, arrival: Arrival)

  datatype Channel = Channel(
    queue: seq<nat>,
    inFlight: seq<nat>,     // started and not completed
    headStarted: bool,      // the queue head was started by the pop that made it the head
    accepted: seq<Entry>,
    started: seq<nat>,
    succeeded: seq<nat>,    // completed, success callback run
    failed: seq<nat>,       // completed, error callback run
    skipped: seq<nat>       // popped without ever having been started
  )

  const EMPTY: Channel := Channel([], [], false, [], [], [], [], [])

  function Begin(c: Channel, x: nat): Channel {
    c.(accepted := c.accepted + [Entry(x, Direct)], started := c.started + [x], inFlight := c.inFlight + [x])
  }

  function Enqueue(c: Channel, x: nat): Channel {
    c.(accepted := c.accepted + [Entry(x, if c.queue == [] then First else Behind)], queue := c.queue + [x])
  }

  function Pop(c: Channel): Channel {
    if c.queue == [] then c
    else c.(queue := c.queue[1..], headStarted := false,
            skipped := if c.headStarted then c.skipped else c.skipped + [c.queue[0]])
  }

  function StartHead(c: Channel): Channel {
    if c.queue == [] then c
    else c.(started := c.started + [c.queue[0]], inFlight := c.inFlight + [c.queue[0]], headStarted := true)
  }

  /** What a successful completion does to a busy channel: the head is popped, whatever it is, and
      the new head is started but left in the queue. */
  function Advance(c: Channel): Channel {
    StartHead(Pop(c))
  }

  lemma Overwritten<K, V>(m: map<K, V>, k: K, a: V, b: V)
    ensures m[k := a][k := b] == m[k := b]
  {}

  function Without(s: seq<nat>, i: nat): seq<nat>
    requires i < |s|
  {
    s[..i] + s[i + 1..]
  }

  function Finish(c: Channel, i: nat, ok: bool): Channel
    requires i < |c.inFlight|
  {
    var x, rest := c.inFlight[i], Without(c.inFlight, i);
    if ok then c.(inFlight := rest, succeeded := c.succeeded + [x]) else c.(inFlight := rest, failed := c.failed + [x])
  }

  /** A call on the channel: queued while busy, started otherwise. */
  function Submit(c: Channel, x: nat, busy: bool): Channel {
    if busy then Enqueue(c, x) else Begin(c, x)
  }

  /** A completion: a busy channel pops, and after a success starts what it finds next; a channel
      that is not busy (the connection was lost meanwhile) leaves its queue alone. */
  function Complete(c: Channel, i: nat, ok: bool, busy: bool): Channel
    requires i < |c.inFlight|
  {
    var d := Finish(c, i, ok);
    if !busy then d else if ok then Advance(d) else Pop(d)
  }

  function Waiting(c: Channel): seq<nat> {
    if c.headStarted && c.queue != [] then c.queue[1..] else c.queue
  }

  function Ids(es: seq<Entry>): (ids: seq<nat>)
    ensures |ids| == |es|
    ensures forall i :: 0 <= i < |es| ==> ids[i] == es[i].id
  {
    seq(|es|, i requires 0 <= i < |es| => es[i].id)
  }

  function Kept(es: seq<Entry>): seq<nat> {
    if es == [] then []
    else Kept(es[..|es| - 1]) + if es[|es| - 1].arrival.First? then [] else [es[|es| - 1].id]
  }

  function Lost(es: seq<Entry>): seq<nat> {
    if es == [] then []
    else Lost(es[..|es| - 1]) + if es[|es| - 1].arrival.First? then [es[|es| - 1].id] else []
  }

  function Directs(es: seq<Entry>): nat {
    if es == [] then 0 else Directs(es[..|es| - 1]) + if es[|es| - 1].arrival.Direct? then 1 else 0
  }

  // ---------------------------------------------------------------------------------------------
  // Accounting that needs no assumption at all
  // ---------------------------------------------------------------------------------------------

  /** Every accepted operation was started, is still waiting, or was skipped, and every started one
      is in flight, succeeded or failed, each with its multiplicity. */
  ghost predicate Balanced(c: Channel) {
    && (c.headStarted ==> c.queue != [])
    && multiset(Ids(c.accepted)) == multiset(c.started) + multiset(Waiting(c)) + multiset(c.skipped)
    && multiset(c.started) == multiset(c.inFlight) + multiset(c.succeeded) + multiset(c.failed)
  }

  /** Each directly started operation can make the channel skip at most one other. */
  ghost predicate SkipsBounded(c: Channel, busy: bool) {
    |c.skipped| + (if busy && !c.headStarted then 1 else 0) <= Directs(c.accepted)
  }

  /** What the channel still owes an answer to, or forgot. */
  ghost function Held(c: Channel): multiset<nat> {
    multiset(c.inFlight) + multiset(Waiting(c)) + multiset(c.skipped)
  }

  lemma IdsAppend(es: seq<Entry>, e: Entry)
    ensures Ids(es + [e]) == Ids(es) + [e.id]
    ensures multiset(Ids(es + [e])) == multiset(Ids(es)) + multiset{e.id}
    ensures Directs(es + [e]) == Directs(es) + if e.arrival.Direct? then 1 else 0
    ensures Kept(es + [e]) == Kept(es) + if e.arrival.First? then [] else [e.id]
    ensures Lost(es + [e]) == Lost(es) + if e.arrival.First? then [e.id] else []
  {
    assert Ids(es + [e]) == Ids(es) + [e.id];
    assert (es + [e])[..|es|] == es;
  }

  lemma WithoutMultiset(s: seq<nat>, i: nat)
    requires i < |s|
    ensures multiset(Without(s, i)) + multiset{s[i]} == multiset(s)
  {
    assert s == s[..i] + [s[i]] + s[i + 1..];
  }

  lemma BeginAccounts(c: Channel, x: nat, busy: bool)
    requires Balanced(c)
    ensures Balanced(Begin(c, x)) && Held(Begin(c, x)) == Held(c) + multiset{x}
    ensures SkipsBounded(c, false) ==> SkipsBounded(Begin(c, x), true)
  {
    IdsAppend(c.accepted, Entry(x, Direct));
  }

  lemma EnqueueAccounts(c: Channel, x: nat)
    requires Balanced(c)
    ensures Balanced(Enqueue(c, x)) && Held(Enqueue(c, x)) == Held(c) + multiset{x}
    ensures SkipsBounded(c, true) ==> SkipsBounded(Enqueue(c, x), true)
  {
    IdsAppend(c.accepted, Entry(x, if c.queue == [] then First else Behind));
    assert Waiting(Enqueue(c, x)) == Waiting(c) + [x];
  }

  lemma PopAccounts(c: Channel)
    requires Balanced(c)
    ensures Balanced(Pop(c)) && Held(Pop(c)) == Held(c)
    ensures SkipsBounded(c, true) ==> SkipsBounded(Pop(c), false) && SkipsBounded(Advance(c), Advance(c).queue != [])
  {
    if c.queue != [] {
      assert c.queue == [c.queue[0]] + c.queue[1..];
    }
  }

  lemma StartHeadAccounts(c: Channel)
    requires Balanced(c) && !c.headStarted
    ensures Balanced(StartHead(c)) && Held(StartHead(c)) == Held(c)
  {
    if c.queue != [] {
      assert c.queue == [c.queue[0]] + c.queue[1..];
    }
  }

  lemma AdvanceAccounts(c: Channel)
    requires Balanced(c)
    ensures Balanced(Advance(c)) && Held(Advance(c)) == Held(c)
    ensures SkipsBounded(c, true) ==> SkipsBounded(Advance(c), Advance(c).queue != [])
  {
    PopAccounts(c);
    StartHeadAccounts(Pop(c));
  }

  lemma FinishAccounts(c: Channel, i: nat, ok: bool)
    requires Balanced(c) && i < |c.inFlight|
    ensures Balanced(Finish(c, i, ok)) && Held(Finish(c, i, ok)) + multiset{c.inFlight[i]} == Held(c)
    ensures forall busy :: SkipsBounded(c, busy) ==> SkipsBounded(Finish(c, i, ok), busy)
  {
    WithoutMultiset(c.inFlight, i);
  }

  lemma SubmitAccounts(c: Channel, x: nat, busy: bool)
    requires Balanced(c) && SkipsBounded(c, busy)
    ensures Balanced(Submit(c, x, busy)) && SkipsBounded(Submit(c, x, busy), true)
    ensures Held(Submit(c, x, busy)) == Held(c) + multiset{x}
  {
    if busy { EnqueueAccounts(c, x); } else { BeginAccounts(c, x, busy); }
  }

  lemma CompleteAccounts(c: Channel, i: nat, ok: bool, busy: bool)
    requires Balanced(c) && SkipsBounded(c, busy) && i < |c.inFlight|
    ensures var d := Complete(c, i, ok, busy);
      Balanced(d) && SkipsBounded(d, busy && ok && d.queue != []) && Held(d) + multiset{c.inFlight[i]} == Held(c)
  {
    FinishAccounts(c, i, ok);
    var d := Finish(c, i, ok);
    if busy && ok { AdvanceAccounts(d); } else if busy { PopAccounts(d); }
  }

  /** No operation is started more often than it was accepted, and none completes, succeeds or fails
      more often than that either: with distinct operations, at most one start and at most one of
      the two callbacks, once. */
  lemma AtMostOnce(c: Channel, x: nat)
    requires Balanced(c) && multiset(Ids(c.accepted))[x] <= 1
    ensures multiset(c.started)[x] <= 1
    ensures multiset(c.succeeded)[x] + multiset(c.failed)[x] + multiset(c.inFlight)[x] <= 1
    ensures x in c.skipped || x in Waiting(c) ==> x !in c.started
  {
    assert multiset(Ids(c.accepted))[x] == multiset(c.started)[x] + multiset(Waiting(c))[x] + multiset(c.skipped)[x];
    assert multiset(c.started)[x] == multiset(c.inFlight)[x] + multiset(c.succeeded)[x] + multiset(c.failed)[x];
    assert x in c.started <==> x in multiset(c.started);
    assert x in c.skipped <==> x in multiset(c.skipped);
    assert x in Waiting(c) <==> x in multiset(Waiting(c));
  }

  // ---------------------------------------------------------------------------------------------
  // What the queue holds
  // ---------------------------------------------------------------------------------------------

  /** The operations that were queued, in order of acceptance. */
  function Queued(es: seq<Entry>): seq<nat> {
    if es == [] then []
    else Queued(es[..|es| - 1]) + if es[|es| - 1].arrival.Direct? then [] else [es[|es| - 1].id]
  }

  /** A completion takes one operation off the queue of a busy channel, whether it succeeded or failed and
      whichever operation it was; only after a success is the next one started. */
  lemma CompletePops(c: Channel, i: nat, ok: bool, busy: bool)
    requires i < |c.inFlight|
    ensures var d := Complete(c, i, ok, busy);
      && d.queue == (if busy && c.queue != [] then c.queue[1..] else c.queue)
      && d.started == (if busy && ok && |c.queue| > 1 then c.started + [c.queue[1]] else c.started)
      && d.inFlight ==
           (if busy && ok && |c.queue| > 1 then Without(c.inFlight, i) + [c.queue[1]] else Without(c.inFlight, i))
      && d.accepted == c.accepted
  {}

  /** The queue holds the operations queued last. */
  ghost predicate HoldsLatest(c: Channel) {
    var all := Queued(c.accepted);
    |c.queue| <= |all| && c.queue == all[|all| - |c.queue|..]
  }

  lemma QueuedOneMore(es: seq<Entry>, e: Entry)
    ensures Queued(es + [e]) == if e.arrival.Direct? then Queued(es) else Queued(es) + [e.id]
  {
    assert (es + [e])[..|es|] == es;
  }

  lemma SubmitHoldsLatest(c: Channel, x: nat, busy: bool)
    requires HoldsLatest(c)
    ensures HoldsLatest(Submit(c, x, busy))
  {
    QueuedOneMore(c.accepted, Entry(x, Direct));
    QueuedOneMore(c.accepted, Entry(x, if c.queue == [] then First else Behind));
  }

  lemma CompleteHoldsLatest(c: Channel, i: nat, ok: bool, busy: bool)
    requires HoldsLatest(c) && i < |c.inFlight|
    ensures HoldsLatest(Complete(c, i, ok, busy))
  {
    CompletePops(c, i, ok, busy);
  }

  // ---------------------------------------------------------------------------------------------
  // Exact order while no operation fails
  // ---------------------------------------------------------------------------------------------

  /** The number of accepted operations whose fate is settled: started or skipped. */
  function Settled(c: Channel): int {
    |c.accepted| - |Waiting(c)|
  }

  /** While nothing fails, the settled operations are a prefix of the accepted ones; those that
      arrived First were skipped, all others were started, both in order of acceptance. */
  ghost predicate Orderly(c: Channel, busy: bool) {
    var n := Settled(c);
    && 0 <= n
    && Ids(c.accepted[n..]) == Waiting(c)
    && c.started == Kept(c.accepted[..n])
    && c.skipped == Lost(c.accepted[..n])
    && (forall i :: n <= i < |c.accepted| ==>
          c.accepted[i].arrival == if i == n && !c.headStarted then First else Behind)
    && c.failed == []
    && c.started == c.succeeded + c.inFlight
    && (if busy then |c.inFlight| == 1 else c.inFlight == [] && c.queue == [])
    && (c.headStarted ==> c.queue != [])
  }

  lemma BeginOrderly(c: Channel, x: nat)
    requires Orderly(c, false)
    ensures Orderly(Begin(c, x), true)
  {
    var d := Begin(c, x);
    IdsAppend(c.accepted, Entry(x, Direct));
    assert c.accepted[..|c.accepted|] == c.accepted && d.accepted[..|d.accepted|] == d.accepted;
  }

  lemma EnqueueOrderly(c: Channel, x: nat)
    requires Orderly(c, true)
    ensures Orderly(Enqueue(c, x), true)
  {
    var d, n := Enqueue(c, x), Settled(c);
    assert Waiting(d) == Waiting(c) + [x];
    assert d.accepted[..n] == c.accepted[..n];
    assert d.accepted[n..] == c.accepted[n..] + [d.accepted[|c.accepted|]];
  }

  /** Between popping the head and starting the next one: nothing is in flight. */
  ghost predicate Between(c: Channel) {
    var n := Settled(c);
    && 0 <= n
    && Ids(c.accepted[n..]) == c.queue
    && c.started == c.succeeded == Kept(c.accepted[..n])
    && c.skipped == Lost(c.accepted[..n])
    && (forall i :: n <= i < |c.accepted| ==> c.accepted[i].arrival.Behind?)
    && c.failed == c.inFlight == []
    && !c.headStarted
  }

  lemma PopOrderly(c: Channel)
    requires Orderly(c, true)
    ensures Between(Pop(Finish(c, 0, true)))
  {
    var n := Settled(c);
    assert c.inFlight == [c.inFlight[0]];
    if c.queue != [] && !c.headStarted {
      LostOneMore(c.accepted, n);
      assert c.accepted[n..][0].id == c.queue[0];
      assert c.accepted[n + 1..] == c.accepted[n..][1..];
    }
  }

  lemma LostOneMore(es: seq<Entry>, n: nat)
    requires n < |es|
    ensures Kept(es[..n + 1]) == Kept(es[..n]) + if es[n].arrival.First? then [] else [es[n].id]
    ensures Lost(es[..n + 1]) == Lost(es[..n]) + if es[n].arrival.First? then [es[n].id] else []
  {
    IdsAppend(es[..n], es[n]);
    assert es[..n + 1] == es[..n] + [es[n]];
  }

  lemma StartHeadOrderly(c: Channel)
    requires Between(c)
    ensures Orderly(StartHead(c), c.queue != [])
  {
    var n := Settled(c);
    if c.queue != [] {
      IdsAppend(c.accepted[..n], c.accepted[n]);
      assert c.accepted[..n + 1] == c.accepted[..n] + [c.accepted[n]];
      assert c.accepted[n..][0].id == c.queue[0];
      assert c.accepted[n + 1..] == c.accepted[n..][1..];
    }
  }

  lemma AdvanceOrderly(c: Channel)
    requires Orderly(c, true)
    ensures var d := Advance(Finish(c, 0, true)); Orderly(d, d.queue != [])
  {
    PopOrderly(c);
    StartHeadOrderly(Pop(Finish(c, 0, true)));
  }

  lemma SubmitOrderly(c: Channel, x: nat, busy: bool)
    requires Orderly(c, busy)
    ensures Orderly(Submit(c, x, busy), true)
  {
    if busy { EnqueueOrderly(c, x); } else { BeginOrderly(c, x); }
  }

  lemma CompleteOrderly(c: Channel, i: nat, busy: bool)
    requires Orderly(c, busy) && i < |c.inFlight|
    ensures var d := Complete(c, i, true, busy); busy && Orderly(d, d.queue != [])
  {
    AdvanceOrderly(c);
  }

  lemma KeptAll(es: seq<Entry>)
    ensures |Kept(es)| + |Lost(es)| == |es|
    ensures (forall e :: e in es ==> !e.arrival.First?) ==> Kept(es) == Ids(es)
    ensures (exists e :: e in es && e.arrival.First?) ==> |Kept(es)| < |es|
  {
    if es != [] {
      var es', e := es[..|es| - 1], es[|es| - 1];
      KeptAll(es');
      IdsAppend(es', e);
      assert es == es' + [e];
    }
  }

  lemma {:induction false} KeptConcat(a: seq<Entry>, b: seq<Entry>)
    ensures Kept(a + b) == Kept(a) + Kept(b)
  {
    if b == [] {
      assert a + b == a;
    } else {
      KeptConcat(a, b[..|b| - 1]);
      assert (a + b)[..|a + b| - 1] == a + b[..|b| - 1];
    }
  }

  lemma {:induction false} KeptFromIds(es: seq<Entry>, x: nat)
    requires x in Kept(es)
    ensures x in Ids(es)
  {
    var es', e := es[..|es| - 1], es[|es| - 1];
    IdsAppend(es', e);
    assert es == es' + [e];
    if x in Kept(es') {
      KeptFromIds(es', x);
    }
  }

  /** Once a failure-free channel is free again, what it started is exactly what it accepted, in
      order, if and only if no operation ever arrived at a busy channel with an empty queue. */
  lemma FifoIffNoneArrivedFirst(c: Channel)
    requires Orderly(c, false)
    ensures c.started == Ids(c.accepted) <==> forall e :: e in c.accepted ==> !e.arrival.First?
    ensures c.started == c.succeeded == Kept(c.accepted) && c.skipped == Lost(c.accepted)
  {
    assert c.accepted[..|c.accepted|] == c.accepted;
    KeptAll(c.accepted);
  }
}
