/** The two throttling stages on values: the builder, which keeps the throttlers and collects their
    verdicts, and the verdict table by which the enforcer admits messages. */
module Throttling {
  import opened SlidingLog

  type Update = (string, bool)

  datatype Builder = Builder(throttlers: map<string, Throttler>, updates: seq<Update>)

  datatype Id = Known(id: string) | Missing

  /** One lookup field of a message: its throttler is evaluated, and the verdict collected. */
  function Evaluate(b: Builder, t: nat, id: Id, admitted: bool): Builder {
    if id.Missing? || id.id !in b.throttlers then b else
    var th := if admitted then Add(b.throttlers[id.id], t) else ReEvaluate(b.throttlers[id.id], t);
    Builder(b.throttlers[id.id := th], b.updates + [(id.id, Allows(th))])
  }

  function EvaluateAll(b: Builder, t: nat, ids: seq<Id>, admitted: bool): Builder {
    if ids == [] then b
    else Evaluate(EvaluateAll(b, t, ids[..|ids| - 1], admitted), t, ids[|ids| - 1], admitted)
  }

  /** What is sent to error_out for a message: the message, once for each field missing or not
      registered. */
  function Errors<M>(message: M, known: set<string>, ids: seq<Id>): seq<M> {
    if ids == [] then []
    else var id := ids[|ids| - 1];
      Errors(message, known, ids[..|ids| - 1]) + if id.Missing? || id.id !in known then [message] else []
  }

  /** A verdict list delivered to the enforcer. */
  function Apply(verdicts: map<string, bool>, updates: seq<Update>): map<string, bool> {
    if updates == [] then verdicts
    else var u := updates[|updates| - 1]; Apply(verdicts, updates[..|updates| - 1])[u.0 := u.1]
  }

  /** A missing field is only ever looked for when no field before it suppresses the message, and then
      there is no verdict at all; here it counts against admission. */
  predicate Admits(verdicts: map<string, bool>, ids: seq<Id>) {
    forall id :: id in ids ==> id.Known? && (id.id in verdicts ==> verdicts[id.id])
  }

  datatype ConfigResult = Ok | IdExists | DoesNotExist | InvalidType

  function AddThrottler(b: Builder, id: string, kind: string, w: nat, n: nat): (Builder, ConfigResult) {
    if kind == "sliding_log" then
      if id in b.throttlers then (b, IdExists)
      else (b.(throttlers := b.throttlers[id := Throttler(w, n, [])]), Ok)
    else (b, if kind == "fixed_window" then InvalidType else Ok)
  }

  function UpdateThrottler(b: Builder, id: string, kind: string, w: nat, n: nat): (Builder, ConfigResult) {
    if kind == "sliding_log" then
      if id !in b.throttlers then (b, DoesNotExist)
      else (b.(throttlers := b.throttlers[id := b.throttlers[id].(window := w, allowed := n)]), Ok)
    else (b, if kind == "sliding_window" || kind == "fixed_window" then InvalidType else Ok)
  }

  /** Everything but one throttler is as it was, and nothing is collected. */
  ghost predicate OnlyChanges(b: Builder, c: Builder, id: string) {
    && c.updates == b.updates && c.throttlers.Keys == b.throttlers.Keys + {id}
    && forall x :: x in b.throttlers && x != id ==> c.throttlers[x] == b.throttlers[x]
  }

  /** What adding a throttler does, for every kind and every id. */
  lemma AddingRegisters(b: Builder, id: string, kind: string, w: nat, n: nat)
    ensures var (c, result) := AddThrottler(b, id, kind, w, n);
      && (kind == "sliding_log" && id !in b.throttlers ==>
            result == Ok && OnlyChanges(b, c, id) && c.throttlers[id] == Throttler(w, n, []))
      && (kind == "sliding_log" && id in b.throttlers ==> result == IdExists && c == b)
      && (kind == "fixed_window" ==> result == InvalidType && c == b)
      && (kind != "sliding_log" && kind != "fixed_window" ==> result == Ok && c == b)
  {
    assert |"sliding_log"| != |"fixed_window"|;
  }

  /** An update gives a throttler the window w and the allowed count n, and keeps its log. */
  lemma UpdateSets(b: Builder, id: string, kind: string, w: nat, n: nat)
    ensures var (c, result) := UpdateThrottler(b, id, kind, w, n);
      && (kind == "sliding_log" && id in b.throttlers ==>
            result == Ok && OnlyChanges(b, c, id) && c.throttlers[id] == Throttler(w, n, b.throttlers[id].log))
      && (kind == "sliding_log" && id !in b.throttlers ==> result == DoesNotExist && c == b)
      && (kind == "sliding_window" || kind == "fixed_window" ==> result == InvalidType && c == b)
      && (kind != "sliding_log" && kind != "sliding_window" && kind != "fixed_window" ==> result == Ok && c == b)
  {
    assert "sliding_log"[8] == 'l' && "sliding_window"[8] == 'w';
    assert |"sliding_log"| != |"fixed_window"|;
  }

  /** To the throttler an update is the two settings, one after the other. */
  lemma UpdateIsObserved(b: Builder, id: string, w: nat, n: nat, a: Audit)
    requires id in b.throttlers && b.throttlers[id] == a.th
    ensures var c := UpdateThrottler(b, id, "sliding_log", w, n).0;
      id in c.throttlers && c.throttlers[id] == Observe(Observe(a, SetWindow(w)), SetAllowed(n)).th
  {
    UpdateSets(b, id, "sliding_log", w, n);
  }

  lemma ApplyOneMore(v: map<string, bool>, updates: seq<Update>, u: Update)
    ensures Apply(v, updates + [u]) == Apply(v, updates)[u.0 := u.1]
  {
    assert (updates + [u])[..|updates|] == updates;
  }

  lemma {:induction false} ApplyConcat(v: map<string, bool>, a: seq<Update>, b: seq<Update>)
    ensures Apply(v, a + b) == Apply(Apply(v, a), b)
  {
    if b == [] {
      assert a + b == a;
    } else {
      ApplyConcat(v, a, b[..|b| - 1]);
      assert (a + b)[..|a + b| - 1] == a + b[..|b| - 1];
    }
  }

  /** In a delivered list the last verdict for an id wins. */
  lemma {:induction false} ApplyIsLastWins(v: map<string, bool>, updates: seq<Update>, id: string)
    ensures id in Apply(v, updates) <==> id in v || exists i :: 0 <= i < |updates| && updates[i].0 == id
    ensures forall i :: 0 <= i < |updates| && updates[i].0 == id
                        && (forall j :: i < j < |updates| ==> updates[j].0 != id) ==>
              id in Apply(v, updates) && Apply(v, updates)[id] == updates[i].1
    ensures id in v && (forall i :: 0 <= i < |updates| ==> updates[i].0 != id) ==>
              id in Apply(v, updates) && Apply(v, updates)[id] == v[id]
  {
    if updates != [] {
      ApplyIsLastWins(v, updates[..|updates| - 1], id);
    }
  }

  lemma {:induction false} EvaluateAllKeys(b: Builder, t: nat, ids: seq<Id>, admitted: bool)
    ensures EvaluateAll(b, t, ids, admitted).throttlers.Keys == b.throttlers.Keys
    ensures b.updates <= EvaluateAll(b, t, ids, admitted).updates
  {
    if ids != [] {
      EvaluateAllKeys(b, t, ids[..|ids| - 1], admitted);
    }
  }
}
