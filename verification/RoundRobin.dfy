/** The round robin load balancer: one 8-bit index for each pool. */
module RoundRobin {
  import opened DynamicMessage
  import KV = KeyValueStore

  /** `++index` on eight bits, then `index % count`. */
  function Advance(index: nat, count: nat): nat
    requires count > 0
  {
    ((index + 1) % 256) % count
  }

  function IndexOf(indices: map<string, nat>, pool: string): nat {
    if pool in indices then indices[pool] else 0
  }

  /** A message that selects from a pool with some number of endpoints. */
  datatype Selection = Selection(pool: string, count: nat)

  function Selected(run: seq<Selection>): map<string, nat> {
    if run == [] then map[] else
    var indices, s := Selected(run[..|run| - 1]), run[|run| - 1];
    if s.count == 0 then indices else indices[s.pool := Advance(IndexOf(indices, s.pool), s.count)]
  }

  function Times(run: seq<Selection>, pool: string): nat {
    if run == [] then 0
    else Times(run[..|run| - 1], pool) + if run[|run| - 1].pool == pool then 1 else 0
  }

  function Cycle(count: nat): nat { if count < 256 then count else 256 }

  lemma ModOf(x: nat, n: nat, q: nat, r: nat)
    requires r < n && x == q * n + r
    ensures x % n == r
  {
    var d := q - x / n;
    assert x == (x / n) * n + x % n;
    assert d * n == x % n - r;
    assert d >= 1 ==> d * n >= n;
    assert d <= -1 ==> d * n + n <= 0;
  }

  lemma NextMod(k: nat, n: nat)
    requires n > 0
    ensures (k + 1) % n == if k % n + 1 == n then 0 else k % n + 1
  {
    var q := k / n;
    assert k == q * n + k % n;
    if k % n + 1 == n {
      assert k + 1 == (q + 1) * n + 0;
      ModOf(k + 1, n, q + 1, 0);
    } else {
      ModOf(k + 1, n, q, k % n + 1);
    }
  }

  lemma SmallMod(x: nat, n: nat)
    requires x < n
    ensures x % n == x
  {
    ModOf(x, n, 0, x);
  }

  lemma SelfMod(n: nat)
    requires n > 0
    ensures n % n == 0
  {
    ModOf(n, n, 1, 0);
  }

  /** One step of the index is one step around the cycle, also where the eight bits wrap. */
  lemma AdvanceInCycle(k: nat, count: nat)
    requires count > 0
    ensures Advance(k % Cycle(count), count) == (k + 1) % Cycle(count)
  {
    var n := Cycle(count);
    NextMod(k, n);
    var next := k % n + 1;
    if next < n {
      SmallMod(next, 256);
      SmallMod(next, count);
    } else if count < 256 {
      SmallMod(next, 256);
      SelfMod(count);
    } else {
      SmallMod(0, count);
    }
  }

  /** However other pools interleave, the k-th selection from a pool of fixed size n is k mod n; from a
      pool of more than 256 endpoints it is k mod 256. */
  lemma {:induction false} KthSelection(run: seq<Selection>, pool: string, n: nat)
    requires n > 0 && forall s :: s in run && s.pool == pool ==> s.count == n
    ensures IndexOf(Selected(run), pool) == Times(run, pool) % Cycle(n)
  {
    if run == [] {
      SmallMod(0, Cycle(n));
    } else {
      var before, s := run[..|run| - 1], run[|run| - 1];
      assert s in run && forall t :: t in before ==> t in run;
      KthSelection(before, pool, n);
      AdvanceInCycle(Times(before, pool), n);
    }
  }

  /** The indices selected from a pool along a run, in order. */
  function Indices(run: seq<Selection>, pool: string): seq<nat> {
    if run == [] then [] else
    var s := run[|run| - 1];
    Indices(run[..|run| - 1], pool)
    + if s.pool == pool && s.count > 0 then [IndexOf(Selected(run), pool)] else []
  }

  lemma {:induction false} IndicesInCycle(run: seq<Selection>, pool: string, n: nat)
    requires n > 0 && forall s :: s in run && s.pool == pool ==> s.count == n
    ensures |Indices(run, pool)| == Times(run, pool)
    ensures forall k :: 0 <= k < |Indices(run, pool)| ==> Indices(run, pool)[k] == (k + 1) % Cycle(n)
  {
    if run != [] {
      var before, s := run[..|run| - 1], run[|run| - 1];
      assert s in run && forall t :: t in before ==> t in run;
      IndicesInCycle(before, pool, n);
      KthSelection(run, pool, n);
    }
  }

  lemma SomeSelection(k: nat, n: nat, endpoint: nat) returns (i: nat)
    requires endpoint < n
    ensures k <= i < k + n && (i + 1) % n == endpoint
  {
    var q, r := (k + 1) / n, (k + 1) % n;
    var start := q * n;
    assert k + 1 == start + r;
    if endpoint >= r {
      i := start + endpoint - 1;
      ModOf(i + 1, n, q, endpoint);
    } else {
      i := start + n + endpoint - 1;
      assert (q + 1) * n == start + n;
      ModOf(i + 1, n, q + 1, endpoint);
    }
  }

  /** So however other pools interleave, n consecutive selections from a pool of n endpoints hit every
      endpoint, and then none twice, if and only if there are at most 256 endpoints. */
  lemma Fair(run: seq<Selection>, pool: string, n: nat, k: nat)
    requires n > 0 && forall s :: s in run && s.pool == pool ==> s.count == n
    requires k + n <= |Indices(run, pool)|
    ensures var window := Indices(run, pool)[k..k + n];
      && ((forall endpoint: nat :: endpoint < n ==> endpoint in window) <==> n <= 256)
      && (n <= 256 ==> forall i, j :: 0 <= i < j < n ==> window[i] != window[j])
  {
    var window := Indices(run, pool)[k..k + n];
    IndicesInCycle(run, pool, n);
    if n <= 256 {
      forall endpoint: nat | endpoint < n
        ensures endpoint in window
      {
        var i := SomeSelection(k, n, endpoint);
        assert window[i - k] == endpoint;
      }
      forall i, j | 0 <= i < j < n
        ensures window[i] != window[j]
      {
        DistinctInCycle(k + i + 1, k + j + 1, n);
      }
    } else {
      assert 256 !in window;
    }
  }

  lemma DistinctInCycle(i: nat, j: nat, n: nat)
    requires i < j < i + n
    ensures i % n != j % n
  {
    var d := j / n - i / n;
    assert i == (i / n) * n + i % n && j == (j / n) * n + j % n;
    assert d * n == j - i - (j % n - i % n);
    assert d >= 1 ==> d * n >= n;
    assert d <= 0 ==> d * n <= 0;
  }

  /** The endpoints of a larger pool beyond the 256th are never chosen. */
  lemma NeverBeyond256(run: seq<Selection>, pool: string)
    ensures IndexOf(Selected(run), pool) < 256
  {
    if run != [] {
      NeverBeyond256(run[..|run| - 1], pool);
      BelowBoth((IndexOf(Selected(run[..|run| - 1]), pool) + 1) % 256, run[|run| - 1].count);
    }
  }

  lemma BelowBoth(x: nat, n: nat)
    ensures n > 0 ==> x % n <= x && x % n < n
  {
    if n > 0 {
      assert x == (x / n) * n + x % n;
      assert (x / n) * n >= 0;
    }
  }

  class Balancer {
    const lookup: (string, string)
    const store: KV.Store
    var lastSelectionIndex: map<string, nat>
    var out: seq<Message>

    constructor (lookup: (string, string), store: KV.Store)
      ensures this.lookup == lookup && this.store == store && lastSelectionIndex == map[] && out == []
    {
      this.lookup, this.store, lastSelectionIndex, out := lookup, store, map[], [];
    }

    /** The element at an index of a pool is a name, and the store holds a host and a port for it. */
    predicate IsAddressed(pool: string, index: nat)
      requires pool in store.lists && index < |store.lists[pool].elements|
      reads this, store
    {
      var endpoint := store.lists[pool].elements[index];
      endpoint.Str? && store.HoldsString(endpoint.str + "/host") && store.HoldsString(endpoint.str + "/port")
    }

    /** The endpoint at an index of a pool, with its host and port, if all of that is stored. */
    function EndpointAt(pool: string, index: nat): (r: KV.Outcome<(string, string)>)
      requires store.Valid() && pool in store.lists && index < |store.lists[pool].elements|
      reads this, store
      ensures r.Ok? <==> IsAddressed(pool, index)
      ensures r.Ok? ==> var e := store.lists[pool].elements[index].str;
                r.value == (store.singles[e + "/host"].str, store.singles[e + "/port"].str)
    {
      var key := store.GetAtList(pool, index, KV.TString);
      if !key.Ok? then KV.KeyDoesNotExist else
      var host, port := store.Get(key.value.str + "/host", KV.TString), store.Get(key.value.str + "/port", KV.TString);
      if host.Ok? && port.Ok? then KV.Ok((host.value.str, port.value.str)) else KV.KeyDoesNotExist
    }

    /** Exceptions are swallowed; one that comes after the index was advanced leaves it advanced. */
    method OnMessage(message: Message)
      requires store.Valid() && forall k :: k in store.lists ==> |store.lists[k].elements| < 0x1_0000_0000
      modifies this, message
      ensures var before := old(message.fields);
              var pool := if HasString(before, lookup.0, lookup.1) then String(before, lookup.0, lookup.1) else "";
        if !HasString(before, lookup.0, lookup.1) || pool !in store.lists then
          lastSelectionIndex == old(lastSelectionIndex) && out == old(out) && message.fields == before
        else
          var index := Advance(IndexOf(old(lastSelectionIndex), pool), |store.lists[pool].elements|);
          var endpoint := EndpointAt(pool, index);
          && index < |store.lists[pool].elements|
          && lastSelectionIndex == old(lastSelectionIndex)[pool := index]
          && out == old(out) + (if endpoint.Ok? then [message] else [])
          && message.fields == (if !endpoint.Ok? then before else
               Set(Set(before, "load_balancing", "endpoint_host", Str(endpoint.value.0)),
                   "load_balancing", "endpoint_port", Str(endpoint.value.1)))
          && (out == old(out) + [message] <==> IsAddressed(pool, index))
          && (IsAddressed(pool, index) ==>
                var e := store.lists[pool].elements[index].str;
                && Get(message.fields, "load_balancing", "endpoint_host") == Found(Str(store.singles[e + "/host"].str))
                && Get(message.fields, "load_balancing", "endpoint_port") == Found(Str(store.singles[e + "/port"].str)))
    {
      if !HasString(message.fields, lookup.0, lookup.1) {
        return;
      }
      var pool := String(message.fields, lookup.0, lookup.1);
      var count := store.GetListCount(pool);
      if !count.Ok? {
        return;
      }
      SmallMod(count.value, 0x1_0000_0000);
      var endPointCount := count.value % 0x1_0000_0000;
      var index := (IndexOf(lastSelectionIndex, pool) + 1) % 256;
      BelowBoth(index, endPointCount);
      index := index % endPointCount;
      lastSelectionIndex := lastSelectionIndex[pool := index];
      var endpointKey := store.GetAtList(pool, index, KV.TString);
      if !endpointKey.Ok? {
        return;
      }
      var host := store.Get(endpointKey.value.str + "/host", KV.TString);
      if !host.Ok? {
        return;
      }
      var port := store.Get(endpointKey.value.str + "/port", KV.TString);
      if !port.Ok? {
        return;
      }
      message.SetField("load_balancing", "endpoint_host", Str(host.value.str));
      message.SetField("load_balancing", "endpoint_port", Str(port.value.str));
      out := out + [message];
    }
  }
}
