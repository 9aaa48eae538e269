/** The dispatcher's ledger: where every request is, in every run. No assumption is made about which
    operations fail, or about when leftovers of an error complete. */
module HttpDispatcherLedger {
  import opened HttpChannel
  import opened HttpConnection
  import opened HttpDispatcher

  /** The requests a machine is working on, or has skipped. */
  ghost function HeldBy(m: Machine): multiset<nat> {
    multiset(m.resolves) + multiset(m.connects) + Held(m.w) + Held(m.r)
  }

  ghost function Outside(d: Dispatcher): multiset<nat> {
    multiset(d.posted) + multiset(d.responses) + multiset(d.dropped) + multiset(d.refused)
  }

  ghost function Holdings(d: Dispatcher): map<Key, multiset<nat>> {
    PoolHoldings(d.pool, HeldBy)
  }

  ghost function PoolHoldings(pool: map<Key, Machine>, held: Machine -> multiset<nat>): map<Key, multiset<nat>> {
    map k | k in pool :: held(pool[k])
  }

  ghost function At(held: map<Key, multiset<nat>>, k: Key, r: nat): nat {
    if k in held then held[k][r] else 0
  }

  /** Every request received is in exactly one place, once: outside the machines, or with the machine
      of its own key; and no machine holds a request of another key. */
  ghost predicate Balances(keys: seq<Key>, outside: multiset<nat>, held: map<Key, multiset<nat>>) {
    && (forall r: nat :: r < |keys| ==> outside[r] + At(held, keys[r], r) == 1)
    && (forall r: nat :: |keys| <= r ==> outside[r] == 0)
    && (forall k, r: nat :: At(held, k, r) > 0 ==> r < |keys| && keys[r] == k)
  }

  ghost predicate Ledger(d: Dispatcher) {
    && (forall k :: k in d.pool ==> Sound(d.pool[k]))
    && Balances(d.keys, Outside(d), Holdings(d))
  }

  /** Moving requests between a machine and the outside, or back, keeps the balance. */
  lemma BalanceMoves(keys: seq<Key>, outside: multiset<nat>, held: map<Key, multiset<nat>>,
                     k: Key, outside': multiset<nat>, h: multiset<nat>)
    requires Balances(keys, outside, held)
    requires forall r: nat :: outside'[r] + h[r] == outside[r] + At(held, k, r)
    requires forall r: nat :: h[r] > At(held, k, r) ==> r < |keys| && keys[r] == k
    ensures Balances(keys, outside', held[k := h])
  {
    var held' := held[k := h];
    forall r: nat | r < |keys|
      ensures outside'[r] + At(held', keys[r], r) == 1
    {
      assert outside'[r] + h[r] == outside[r] + At(held, k, r);
    }
    forall k', r: nat | At(held', k', r) > 0
      ensures r < |keys| && keys[r] == k'
    {
      assert k' != k ==> At(held, k', r) > 0;
    }
  }

  lemma ResolveDoneHeld(m: Machine, i: nat, ok: bool)
    requires Sound(m) && i < |m.resolves|
    ensures Sound(ResolveDone(m, i, ok)) && HeldBy(ResolveDone(m, i, ok)) + multiset{m.resolves[i]} == HeldBy(m)
  {
    StepSound(m, OnResolve(i, ok));
    WithoutMultiset(m.resolves, i);
  }

  lemma ConnectDoneHeld(m: Machine, i: nat, ok: bool)
    requires Sound(m) && i < |m.connects|
    ensures Sound(ConnectDone(m, i, ok)) && HeldBy(ConnectDone(m, i, ok)) + multiset{m.connects[i]} == HeldBy(m)
  {
    StepSound(m, OnConnect(i, ok));
    WithoutMultiset(m.connects, i);
  }

  lemma WriteDoneHeld(m: Machine, i: nat, ok: bool)
    requires Sound(m) && i < |m.w.inFlight|
    ensures Sound(WriteDone(m, i, ok)) && HeldBy(WriteDone(m, i, ok)) + multiset{m.w.inFlight[i]} == HeldBy(m)
  {
    WriteDoneSound(m, i, ok);
  }

  lemma ReadDoneHeld(m: Machine, i: nat, ok: bool)
    requires Sound(m) && i < |m.r.inFlight|
    ensures Sound(ReadDone(m, i, ok)) && HeldBy(ReadDone(m, i, ok)) + multiset{m.r.inFlight[i]} == HeldBy(m)
  {
    ReadDoneSound(m, i, ok);
  }

  lemma ConnectHeld(m: Machine, r: nat)
    requires Sound(m) && m.phase.Resolved?
    ensures Sound(Connect(m, r)) && HeldBy(Connect(m, r)) == HeldBy(m) + multiset{r}
  {}

  lemma WriteHeld(m: Machine, r: nat)
    requires Sound(m) && IsLive(m.phase)
    ensures Sound(Write(m, r)) && HeldBy(Write(m, r)) == HeldBy(m) + multiset{r}
  {
    WriteSound(m, r);
  }

  lemma ReadHeld(m: Machine, r: nat)
    requires Sound(m) && IsLive(m.phase)
    ensures Sound(Read(m, r)) && HeldBy(Read(m, r)) == HeldBy(m) + multiset{r}
  {
    ReadSound(m, r);
  }

  lemma PoolMove(pool: map<Key, Machine>, k: Key, m: Machine, held: Machine -> multiset<nat>)
    ensures PoolHoldings(pool[k := m], held) == PoolHoldings(pool, held)[k := held(m)]
  {}

  lemma HoldingsMove(d: Dispatcher, e: Dispatcher, k: Key, m: Machine)
    requires e.pool == d.pool[k := m]
    ensures Holdings(e) == Holdings(d)[k := HeldBy(m)]
  {
    PoolMove(d.pool, k, m, HeldBy);
  }

  lemma LedgerMoves(d: Dispatcher, e: Dispatcher, k: Key, m: Machine, outside: multiset<nat>, h: multiset<nat>)
    requires Ledger(d) && Sound(m)
    requires e.keys == d.keys && e.pool == d.pool[k := m]
    requires outside == Outside(e) && h == HeldBy(m)
    requires forall r: nat :: outside[r] + h[r] == Outside(d)[r] + At(Holdings(d), k, r)
    requires forall r: nat :: h[r] > At(Holdings(d), k, r) ==> r < |d.keys| && d.keys[r] == k
    ensures Ledger(e)
  {
    BalanceMoves(d.keys, Outside(d), Holdings(d), k, outside, h);
    HoldingsMove(d, e, k, m);
  }

  /** A machine gives up a request, which then goes outside or back into the same machine. */
  lemma LedgerPasses(d: Dispatcher, e: Dispatcher, k: Key, m: Machine, r: nat, outside: multiset<nat>, h: multiset<nat>)
    requires Ledger(d) && Sound(m) && k in d.pool
    requires e.keys == d.keys && e.pool == d.pool[k := m]
    requires outside == Outside(e) && h == HeldBy(m)
    requires (outside == Outside(d) && h == HeldBy(d.pool[k]))
          || (outside == Outside(d) + multiset{r} && h + multiset{r} == HeldBy(d.pool[k]))
    ensures Ledger(e)
  {
    forall x: nat
      ensures outside[x] + h[x] == Outside(d)[x] + At(Holdings(d), k, x) && h[x] <= At(Holdings(d), k, x)
    {
      assert h + multiset{r} == HeldBy(d.pool[k]) ==> h[x] + multiset{r}[x] == HeldBy(d.pool[k])[x];
    }
    LedgerMoves(d, e, k, m, outside, h);
  }

  ghost predicate GaveUp(d: Dispatcher, k: Key, m: Machine, r: nat) {
    k in d.pool && Sound(m) && HeldBy(m) + multiset{r} == HeldBy(d.pool[k])
  }

  lemma ReturnedLedger(d: Dispatcher, k: Key, m: Machine, r: nat, m': Machine)
    requires Ledger(d) && GaveUp(d, k, m, r) && Sound(m') && HeldBy(m') == HeldBy(m) + multiset{r}
    ensures Ledger(d.(pool := d.pool[k := m][k := m']))
  {
    var e := d.(pool := d.pool[k := m][k := m']);
    Overwritten(d.pool, k, m, m');
    LedgerPasses(d, e, k, m', r, Outside(d), HeldBy(d.pool[k]));
  }

  lemma RefusedLedger(d: Dispatcher, k: Key, m: Machine, r: nat)
    requires Ledger(d) && GaveUp(d, k, m, r)
    ensures Ledger(d.(pool := d.pool[k := m], refused := d.refused + [r]))
  {
    var e := d.(pool := d.pool[k := m], refused := d.refused + [r]);
    LedgerPasses(d, e, k, m, r, Outside(d) + multiset{r}, HeldBy(m));
  }

  lemma DroppedLedger(d: Dispatcher, k: Key, m: Machine, r: nat)
    requires Ledger(d) && GaveUp(d, k, m, r)
    ensures Ledger(d.(pool := d.pool[k := m], dropped := d.dropped + [r]))
  {
    var e := d.(pool := d.pool[k := m], dropped := d.dropped + [r]);
    LedgerPasses(d, e, k, m, r, Outside(d) + multiset{r}, HeldBy(m));
  }

  lemma AnsweredLedger(d: Dispatcher, k: Key, m: Machine, r: nat)
    requires Ledger(d) && GaveUp(d, k, m, r)
    ensures Ledger(d.(pool := d.pool[k := m], responses := d.responses + [r]))
  {
    var e := d.(pool := d.pool[k := m], responses := d.responses + [r]);
    LedgerPasses(d, e, k, m, r, Outside(d) + multiset{r}, HeldBy(m));
  }

  lemma ConnectForLedger(d: Dispatcher, k: Key, m: Machine, r: nat)
    requires Ledger(d) && GaveUp(d, k, m, r)
    ensures Ledger(ConnectFor(d.(pool := d.pool[k := m]), k, r))
  {
    if m.phase.Resolved? {
      ConnectHeld(m, r);
      ReturnedLedger(d, k, m, r, Connect(m, r));
    } else {
      RefusedLedger(d, k, m, r);
    }
  }

  lemma PerformLedger(d: Dispatcher, k: Key, m: Machine, r: nat)
    requires Ledger(d) && GaveUp(d, k, m, r)
    ensures Ledger(Perform(d.(pool := d.pool[k := m]), k, r))
  {
    if IsLive(m.phase) {
      WriteHeld(m, r);
      ReturnedLedger(d, k, m, r, Write(m, r));
    } else {
      RefusedLedger(d, k, m, r);
    }
  }

  lemma ReadForLedger(d: Dispatcher, k: Key, m: Machine, r: nat)
    requires Ledger(d) && GaveUp(d, k, m, r)
    ensures Ledger(ReadFor(d.(pool := d.pool[k := m]), k, r))
  {
    if IsLive(m.phase) {
      ReadHeld(m, r);
      ReturnedLedger(d, k, m, r, Read(m, r));
    } else {
      RefusedLedger(d, k, m, r);
    }
  }

  lemma CompletionLedger(d: Dispatcher, h: Happening)
    requires Ledger(d) && Possible(d, h) && !h.Message? && !h.Handler?
    ensures Ledger(Next(d, h))
  {
    var m := d.pool[h.k];
    match h
    case Resolution(k, i, ok) =>
      ResolveDoneHeld(m, i, ok);
      if ok { ConnectForLedger(d, k, ResolveDone(m, i, ok), m.resolves[i]); }
      else { DroppedLedger(d, k, ResolveDone(m, i, ok), m.resolves[i]); }
    case Connection(k, i, ok) =>
      ConnectDoneHeld(m, i, ok);
      if ok { PerformLedger(d, k, ConnectDone(m, i, ok), m.connects[i]); }
      else { DroppedLedger(d, k, ConnectDone(m, i, ok), m.connects[i]); }
    case Written(k, i, ok) =>
      WriteDoneHeld(m, i, ok);
      if ok { ReadForLedger(d, k, WriteDone(m, i, ok), m.w.inFlight[i]); }
      else { DroppedLedger(d, k, WriteDone(m, i, ok), m.w.inFlight[i]); }
    case Received(k, i, ok) =>
      ReadDoneHeld(m, i, ok);
      if ok { AnsweredLedger(d, k, ReadDone(m, i, ok), m.r.inFlight[i]); }
      else { DroppedLedger(d, k, ReadDone(m, i, ok), m.r.inFlight[i]); }
  }

  /** A posted request is given to the machine of its key. */
  lemma AssignedLedger(d: Dispatcher, e: Dispatcher, k: Key, m: Machine, r: nat,
                       outside: multiset<nat>, h: multiset<nat>)
    requires Ledger(d) && Sound(m)
    requires e.keys == d.keys && e.pool == d.pool[k := m]
    requires outside == Outside(e) && outside + multiset{r} == Outside(d)
    requires h == HeldBy(m) == (if k in d.pool then HeldBy(d.pool[k]) else multiset{}) + multiset{r}
    requires r < |d.keys| && d.keys[r] == k
    ensures Ledger(e)
  {
    forall x: nat
      ensures outside[x] + h[x] == Outside(d)[x] + At(Holdings(d), k, x)
      ensures h[x] > At(Holdings(d), k, x) ==> x == r
    {
      assert (outside + multiset{r})[x] == Outside(d)[x];
    }
    LedgerMoves(d, e, k, m, outside, h);
  }

  lemma HandlerOutside(d: Dispatcher, j: nat)
    requires j < |d.posted|
    ensures Outside(d.(posted := Without(d.posted, j))) + multiset{d.posted[j]} == Outside(d)
  {
    WithoutMultiset(d.posted, j);
  }

  /** A request that no machine holds may get another key. */
  lemma BalanceRekeys(keys: seq<Key>, outside: multiset<nat>, held: map<Key, multiset<nat>>, r: nat, k: Key)
    requires Balances(keys, outside, held) && r < |keys| && outside[r] > 0
    ensures Balances(keys[r := k], outside, held)
  {
    assert outside[r] + At(held, keys[r], r) == 1;
    assert forall k' :: At(held, k', r) == 0;
  }

  lemma RekeyedLedger(d: Dispatcher, r: nat, k: Key)
    requires Ledger(d) && r in d.posted && r < |d.keys|
    ensures Ledger(d.(keys := d.keys[r := k]))
  {
    assert r in multiset(d.posted);
    BalanceRekeys(d.keys, Outside(d), Holdings(d), r, k);
  }

  lemma NewMachineLedger(d: Dispatcher, d1: Dispatcher, k: Key, r: nat)
    requires Ledger(d) && d1.keys == d.keys && d1.pool == d.pool && Outside(d1) + multiset{r} == Outside(d)
    requires r < |d.keys| && d.keys[r] == k && k !in d.pool
    ensures Ledger(d1.(pool := d.pool[k := HttpConnection.Resolve(FRESH, r)]))
  {
    var m := HttpConnection.Resolve(FRESH, r);
    EveryRunIsAccounted([]);
    StepSound(FRESH, CallResolve(r));
    assert HeldBy(m) == multiset{r};
    AssignedLedger(d, d1.(pool := d.pool[k := m]), k, m, r, Outside(d1), multiset{r});
  }

  lemma OldMachineLedger(d: Dispatcher, d1: Dispatcher, k: Key, r: nat, m: Machine)
    requires Ledger(d) && d1.keys == d.keys && d1.pool == d.pool && Outside(d1) + multiset{r} == Outside(d)
    requires r < |d.keys| && d.keys[r] == k && k in d.pool
    requires Sound(m) && HeldBy(m) == HeldBy(d.pool[k]) + multiset{r}
    ensures Ledger(d1.(pool := d.pool[k := m]))
  {
    AssignedLedger(d, d1.(pool := d.pool[k := m]), k, m, r, Outside(d1), HeldBy(m));
  }

  lemma SameHoldings(d: Dispatcher, e: Dispatcher)
    requires Ledger(d) && e.keys == d.keys && e.pool == d.pool && Outside(e) == Outside(d)
    ensures Ledger(e)
  {}

  lemma RefusedOutside(d: Dispatcher, r: nat)
    ensures Outside(d.(refused := d.refused + [r])) == Outside(d) + multiset{r}
  {}

  lemma TurnedAwayLedger(d: Dispatcher, d1: Dispatcher, k: Key, r: nat)
    requires Ledger(d) && d1.keys == d.keys && d1.pool == d.pool && Outside(d1) + multiset{r} == Outside(d)
    requires k in d.pool
    ensures Ledger(d1.(refused := d1.refused + [r]))
  {
    var e := d1.(refused := d1.refused + [r]);
    RefusedOutside(d1, r);
    SameHoldings(d, e);
  }

  /** The handler of request r, once r has got its key. */
  lemma KeyedLedger(d: Dispatcher, d1: Dispatcher, k: Key, r: nat)
    requires Ledger(d) && d1.keys == d.keys && d1.pool == d.pool && Outside(d1) + multiset{r} == Outside(d)
    requires r < |d.keys| && d.keys[r] == k
    ensures k !in d.pool ==> Ledger(d1.(pool := d.pool[k := HttpConnection.Resolve(FRESH, r)]))
    ensures k in d.pool && IsLive(d.pool[k].phase) ==> Ledger(Perform(d1, k, r))
    ensures k in d.pool && !IsLive(d.pool[k].phase) ==> Ledger(ConnectFor(d1, k, r))
  {
    if k !in d.pool {
      NewMachineLedger(d, d1, k, r);
    } else if IsLive(d.pool[k].phase) {
      WriteHeld(d.pool[k], r);
      OldMachineLedger(d, d1, k, r, Write(d.pool[k], r));
    } else if d.pool[k].phase.Resolved? {
      ConnectHeld(d.pool[k], r);
      OldMachineLedger(d, d1, k, r, Connect(d.pool[k], r));
    } else {
      TurnedAwayLedger(d, d1, k, r);
    }
  }

  lemma HandlerLedger(d: Dispatcher, j: nat, host: string, port: string)
    requires Ledger(d) && j < |d.posted| && d.posted[j] < |d.keys|
    ensures Ledger(Handle(d, j, host, port))
  {
    var r, k := d.posted[j], Key(false, host, port);
    var keyed := d.(keys := d.keys[r := k]);
    RekeyedLedger(d, r, k);
    HandlerOutside(keyed, j);
    KeyedLedger(keyed, keyed.(posted := Without(d.posted, j)), k, r);
  }

  lemma MessageLedger(d: Dispatcher)
    requires Ledger(d)
    ensures Ledger(OnMessage(d))
  {
    assert Outside(OnMessage(d)) == Outside(d) + multiset{|d.keys|};
    BalanceGrows(d.keys, Outside(d), Holdings(d), NO_KEY);
  }

  lemma BalanceGrows(keys: seq<Key>, outside: multiset<nat>, held: map<Key, multiset<nat>>, k: Key)
    requires Balances(keys, outside, held)
    ensures Balances(keys + [k], outside + multiset{|keys|}, held)
  {
    var keys', outside', n := keys + [k], outside + multiset{|keys|}, |keys|;
    forall r: nat | r < |keys'|
      ensures outside'[r] + At(held, keys'[r], r) == 1
    {
      assert r == n ==> At(held, k, r) == 0 && outside[r] == 0;
      assert r < n ==> keys'[r] == keys[r] && outside[r] + At(held, keys[r], r) == 1;
    }
  }

  lemma NextLedger(d: Dispatcher, h: Happening)
    requires Ledger(d)
    ensures Ledger(Next(d, h))
  {
    if Possible(d, h) {
      match h
      case Message => MessageLedger(d);
      case Handler(j, host, port) => HandlerLedger(d, j, host, port);
      case _ => CompletionLedger(d, h);
    }
  }

  lemma {:induction false} EveryDispatchBalances(run: seq<Happening>)
    ensures Ledger(Dispatched(run))
  {
    if run != [] {
      EveryDispatchBalances(run[..|run| - 1]);
      NextLedger(Dispatched(run[..|run| - 1]), run[|run| - 1]);
    }
  }

  datatype Place =
    | Posted | AwaitingResolve | AwaitingConnect | WriteQueued | WriteInFlight | ReadQueued | ReadInFlight
    | Answered | Dropped | Abandoned

  function MachineOf(d: Dispatcher, k: Key): Machine {
    if k in d.pool then d.pool[k] else FRESH
  }

  /** How often request r is in a place, the places inside a machine being those of machine m. */
  ghost function Copies(d: Dispatcher, m: Machine, r: nat, p: Place): nat {
    match p
    case Posted => multiset(d.posted)[r]
    case AwaitingResolve => multiset(m.resolves)[r]
    case AwaitingConnect => multiset(m.connects)[r]
    case WriteQueued => multiset(Waiting(m.w))[r]
    case WriteInFlight => multiset(m.w.inFlight)[r]
    case ReadQueued => multiset(Waiting(m.r))[r]
    case ReadInFlight => multiset(m.r.inFlight)[r]
    case Answered => multiset(d.responses)[r]
    case Dropped => multiset(d.dropped)[r]
    case Abandoned => multiset(d.refused)[r] + multiset(m.w.skipped)[r] + multiset(m.r.skipped)[r]
  }

  /** In every run each request received is in exactly one place, exactly once; so it never yields
      two outputs, and a machine of another key never holds it. */
  lemma ExactlyOnePlace(run: seq<Happening>, r: nat)
    requires r < |Dispatched(run).keys|
    ensures var d := Dispatched(run);
      && var m := MachineOf(d, d.keys[r]);
      && (exists p :: Copies(d, m, r, p) == 1 && forall q :: q != p ==> Copies(d, m, r, q) == 0)
      && multiset(d.responses)[r] + multiset(d.dropped)[r] <= 1
      && (forall k :: k in d.pool && k != d.keys[r] ==> r !in HeldBy(d.pool[k]))
  {
    var d := Dispatched(run);
    EveryDispatchBalances(run);
    OnePlace(d, MachineOf(d, d.keys[r]), r);
    OwnMachineOnly(d, r);
    OneOutput(d, r);
  }

  lemma OnePlace(d: Dispatcher, m: Machine, r: nat)
    requires Ledger(d) && r < |d.keys| && m == MachineOf(d, d.keys[r])
    ensures exists p :: Copies(d, m, r, p) == 1 && forall q :: q != p ==> Copies(d, m, r, q) == 0
  {
    CopiesAddUp(d, r);
    Unique(p => Copies(d, m, r, p));
  }

  lemma OneOutput(d: Dispatcher, r: nat)
    requires Ledger(d) && r < |d.keys|
    ensures multiset(d.responses)[r] + multiset(d.dropped)[r] <= 1
  {
    OutsideCount(d, r);
    assert Outside(d)[r] <= 1;
  }

  lemma OwnMachineOnly(d: Dispatcher, r: nat)
    requires Ledger(d) && r < |d.keys|
    ensures forall k :: k in d.pool && k != d.keys[r] ==> r !in HeldBy(d.pool[k])
  {
    assert forall k :: k in d.pool ==> At(Holdings(d), k, r) == HeldBy(d.pool[k])[r];
  }

  ghost function Sum(f: Place -> nat): nat {
    f(Posted) + f(AwaitingResolve) + f(AwaitingConnect) + f(WriteQueued) + f(WriteInFlight)
    + f(ReadQueued) + f(ReadInFlight) + f(Answered) + f(Dropped) + f(Abandoned)
  }

  lemma Unique(f: Place -> nat)
    requires Sum(f) == 1
    ensures exists p :: f(p) == 1 && forall q :: q != p ==> f(q) == 0
  {
    var p := if f(Posted) > 0 then Posted else if f(AwaitingResolve) > 0 then AwaitingResolve
        else if f(AwaitingConnect) > 0 then AwaitingConnect else if f(WriteQueued) > 0 then WriteQueued
        else if f(WriteInFlight) > 0 then WriteInFlight else if f(ReadQueued) > 0 then ReadQueued
        else if f(ReadInFlight) > 0 then ReadInFlight else if f(Answered) > 0 then Answered
        else if f(Dropped) > 0 then Dropped else Abandoned;
    forall q | q != p
      ensures f(q) == 0
    {
      assert q.Posted? || q.AwaitingResolve? || q.AwaitingConnect? || q.WriteQueued? || q.WriteInFlight?
          || q.ReadQueued? || q.ReadInFlight? || q.Answered? || q.Dropped? || q.Abandoned?;
    }
  }

  lemma CopiesAddUp(d: Dispatcher, r: nat)
    requires Ledger(d) && r < |d.keys|
    ensures Sum(p => Copies(d, MachineOf(d, d.keys[r]), r, p)) == 1
  {
    var k := d.keys[r];
    assert Outside(d)[r] + At(Holdings(d), k, r) == 1;
    HeldByCount(MachineOf(d, k), r);
    assert At(Holdings(d), k, r) == HeldBy(MachineOf(d, k))[r];
    SumOfCopies(d, MachineOf(d, k), r);
  }

  lemma SumOfCopies(d: Dispatcher, m: Machine, r: nat)
    ensures Sum(p => Copies(d, m, r, p)) == Outside(d)[r] + HeldBy(m)[r]
  {
    OutsideCount(d, r);
    HeldByCount(m, r);
  }

  lemma OutsideCount(d: Dispatcher, r: nat)
    ensures Outside(d)[r] == multiset(d.posted)[r] + multiset(d.responses)[r]
                             + multiset(d.dropped)[r] + multiset(d.refused)[r]
  {}

  lemma HeldCount(c: Channel, r: nat)
    ensures Held(c)[r] == multiset(c.inFlight)[r] + multiset(Waiting(c))[r] + multiset(c.skipped)[r]
  {}

  lemma HeldByCount(m: Machine, r: nat)
    ensures HeldBy(m)[r] == multiset(m.resolves)[r] + multiset(m.connects)[r]
                            + multiset(m.w.inFlight)[r] + multiset(Waiting(m.w))[r] + multiset(m.w.skipped)[r]
                            + multiset(m.r.inFlight)[r] + multiset(Waiting(m.r))[r] + multiset(m.r.skipped)[r]
    ensures m == FRESH ==> HeldBy(m)[r] == 0
  {
    HeldCount(m.w, r);
    HeldCount(m.r, r);
    assert HeldBy(m)[r] == multiset(m.resolves)[r] + multiset(m.connects)[r] + Held(m.w)[r] + Held(m.r)[r];
  }
}
