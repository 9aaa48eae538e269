/** The closed loop: the enforcer admits or suppresses each message by the last verdicts delivered to
    it, the builder evaluates the message's throttlers, and a flush delivers the collected verdicts.
    Both stages look up the same fields. */
module ThrottlingLoop {
  import opened SlidingLog
  import opened Throttling

  datatype Loop = Loop(b: Builder, verdicts: map<string, bool>)

  datatype LoopEvent =
    | Arrive(t: nat, ids: seq<Id>)
    | Flush
    | AddConfig(id: string, kind: string, w: nat, n: nat)
    | UpdateConfig(id: string, kind: string, w: nat, n: nat)

  function Turn(l: Loop, e: LoopEvent): Loop {
    match e
    case Arrive(t, ids) => l.(b := EvaluateAll(l.b, t, ids, Admits(l.verdicts, ids)))
    case Flush => Loop(l.b.(updates := []), Apply(l.verdicts, l.b.updates))
    case AddConfig(id, kind, w, n) => l.(b := AddThrottler(l.b, id, kind, w, n).0)
    case UpdateConfig(id, kind, w, n) => l.(b := UpdateThrottler(l.b, id, kind, w, n).0)
  }

  const IDLE: Loop := Loop(Builder(map[], []), map[])

  function Turned(run: seq<LoopEvent>): Loop {
    if run == [] then IDLE else Turn(Turned(run[..|run| - 1]), run[|run| - 1])
  }

  /** The verdicts as they will be once the collected updates are delivered. */
  function Latest(l: Loop): map<string, bool> {
    Apply(l.verdicts, l.b.updates)
  }

  // ---------------------------------------------------------------------------------------------
  // Verdict coherence
  // ---------------------------------------------------------------------------------------------

  /** All verdicts ever collected, in order. */
  ghost function Verdicts(run: seq<LoopEvent>): seq<Update> {
    if run == [] then [] else
    var before, e := run[..|run| - 1], run[|run| - 1];
    Verdicts(before) + if e.Arrive? then NewUpdates(Turned(before), e) else []
  }

  ghost function NewUpdates(l: Loop, e: LoopEvent): seq<Update>
    requires e.Arrive?
  {
    EvaluateAllKeys(l.b, e.t, e.ids, Admits(l.verdicts, e.ids));
    Turn(l, e).b.updates[|l.b.updates|..]
  }

  /** The throttlers reconfigured since they were last evaluated. */
  ghost function Reconfigured(run: seq<LoopEvent>): set<string> {
    if run == [] then {} else
    match run[|run| - 1]
    case Arrive(_, ids) => Reconfigured(run[..|run| - 1]) - Named(ids)
    case UpdateConfig(id, _, _, _) => Reconfigured(run[..|run| - 1]) + {id}
    case _ => Reconfigured(run[..|run| - 1])
  }

  /** Every verdict is what its throttler would say now, with some exceptions. */
  ghost predicate Agrees(throttlers: map<string, Throttler>, latest: map<string, bool>, except: set<string>) {
    forall id :: id in latest ==> id in throttlers && (id in except || latest[id] == Allows(throttlers[id]))
  }

  lemma EvaluatedAgrees(throttlers: map<string, Throttler>, latest: map<string, bool>, except: set<string>,
                        id: string, th: Throttler)
    requires Agrees(throttlers, latest, except)
    ensures Agrees(throttlers[id := th], latest[id := Allows(th)], except - {id})
  {}

  lemma UnknownAgrees(throttlers: map<string, Throttler>, latest: map<string, bool>, except: set<string>, id: string)
    requires Agrees(throttlers, latest, except) && id !in throttlers
    ensures Agrees(throttlers, latest, except - {id})
  {}

  function Named(ids: seq<Id>): set<string> {
    set i | 0 <= i < |ids| && ids[i].Known? :: ids[i].id
  }

  lemma NamedOneMore(ids: seq<Id>, except: set<string>)
    requires ids != []
    ensures var n := |ids| - 1;
      except - Named(ids) ==
        if ids[n].Known? then except - Named(ids[..n]) - {ids[n].id} else except - Named(ids[..n])
  {
    var n := |ids| - 1;
    assert ids == ids[..n] + [ids[n]];
    assert Named(ids) == Named(ids[..n]) + if ids[n].Known? then {ids[n].id} else {};
  }

  lemma {:induction false} EvaluateAllAgrees(b: Builder, v: map<string, bool>, t: nat, ids: seq<Id>, admitted: bool,
                                           except: set<string>)
    requires Agrees(b.throttlers, Apply(v, b.updates), except)
    ensures var c := EvaluateAll(b, t, ids, admitted);
      Agrees(c.throttlers, Apply(v, c.updates), except - Named(ids))
  {
    if ids == [] {
      assert except - Named(ids) == except;
    } else {
      var n := |ids| - 1;
      var id, rest := ids[n], except - Named(ids[..n]);
      var c := EvaluateAll(b, t, ids[..n], admitted);
      EvaluateAllAgrees(b, v, t, ids[..n], admitted, except);
      NamedOneMore(ids, except);
      if id.Known? && id.id in c.throttlers {
        var th := Evaluate(c, t, id, admitted).throttlers[id.id];
        ApplyOneMore(v, c.updates, (id.id, Allows(th)));
        EvaluatedAgrees(c.throttlers, Apply(v, c.updates), rest, id.id, th);
      } else if id.Known? {
        UnknownAgrees(c.throttlers, Apply(v, c.updates), rest, id.id);
      }
    }
  }

  predicate Evaluates(l: Loop, e: LoopEvent, id: string) {
    e.Arrive? && Known(id) in e.ids && id in l.b.throttlers
  }

  /** Some message of the run named id when it was registered. */
  predicate WasEvaluated(run: seq<LoopEvent>, id: string) {
    run != [] &&
    (WasEvaluated(run[..|run| - 1], id) || Evaluates(Turned(run[..|run| - 1]), run[|run| - 1], id))
  }

  lemma {:induction false} EvaluateAllAdds(b: Builder, v: map<string, bool>, t: nat, ids: seq<Id>, admitted: bool,
                                          id: string)
    ensures id in Apply(v, EvaluateAll(b, t, ids, admitted).updates) <==>
              id in Apply(v, b.updates) || (Known(id) in ids && id in b.throttlers)
  {
    if ids != [] {
      var n := |ids| - 1;
      var c := EvaluateAll(b, t, ids[..n], admitted);
      EvaluateAllAdds(b, v, t, ids[..n], admitted, id);
      EvaluateAllKeys(b, t, ids[..n], admitted);
      EvaluateAdds(c, v, t, ids[n], admitted, id);
      assert ids == ids[..n] + [ids[n]];
    }
  }

  lemma EvaluateAdds(b: Builder, v: map<string, bool>, t: nat, id: Id, admitted: bool, x: string)
    ensures x in Apply(v, Evaluate(b, t, id, admitted).updates) <==>
              x in Apply(v, b.updates) || (id == Known(x) && x in b.throttlers)
  {
    var c := Evaluate(b, t, id, admitted);
    if id.Known? && id.id in b.throttlers {
      ApplyOneMore(v, b.updates, (id.id, Allows(c.throttlers[id.id])));
    }
  }

  lemma TurnAdds(l: Loop, e: LoopEvent, id: string)
    ensures id in Latest(Turn(l, e)) <==> id in Latest(l) || Evaluates(l, e, id)
  {
    if e.Arrive? {
      EvaluateAllAdds(l.b, l.verdicts, e.t, e.ids, Admits(l.verdicts, e.ids), id);
    }
  }

  /** In every run, the table and the pending list hold a verdict for exactly the throttlers that were
      ever evaluated. */
  lemma {:induction false} LatestKnowsEvaluated(run: seq<LoopEvent>, id: string)
    ensures id in Latest(Turned(run)) <==> WasEvaluated(run, id)
  {
    if run != [] {
      var before := run[..|run| - 1];
      LatestKnowsEvaluated(before, id);
      TurnAdds(Turned(before), run[|run| - 1], id);
    }
  }

  lemma {:induction false} LatestIsLastVerdict(run: seq<LoopEvent>)
    ensures var l := Turned(run);
      && Latest(l) == Apply(map[], Verdicts(run))
      && Agrees(l.b.throttlers, Latest(l), Reconfigured(run))
  {
    if run != [] {
      var before, e := run[..|run| - 1], run[|run| - 1];
      LatestIsLastVerdict(before);
      var l, m := Turned(before), Turned(run);
      assert !e.Arrive? ==> Verdicts(run) == Verdicts(before);
      match e
      case Arrive(t, ids) =>
        var added := NewUpdates(l, e);
        EvaluateAllKeys(l.b, t, ids, Admits(l.verdicts, ids));
        assert m.b.updates == l.b.updates + added;
        ApplyConcat(l.verdicts, l.b.updates, added);
        ApplyConcat(map[], Verdicts(before), added);
        EvaluateAllAgrees(l.b, l.verdicts, t, ids, Admits(l.verdicts, ids), Reconfigured(before));
      case Flush =>
      case AddConfig(_, _, _, _) =>
      case UpdateConfig(_, _, _, _) =>
    }
  }

  /** In every run, the enforcer's table with the pending list applied in order holds, for exactly the
      throttlers ever evaluated, the last verdict collected for them; and that is what the throttler
      would say now, unless its configuration was changed since. */
  lemma VerdictsCohere(run: seq<LoopEvent>)
    ensures Coheres(Turned(run), Latest(Turned(run)), run)
  {
    LatestIsLastVerdict(run);
    forall id
      ensures id in Latest(Turned(run)) <==> WasEvaluated(run, id)
    {
      LatestKnowsEvaluated(run, id);
    }
  }

  ghost predicate Coheres(l: Loop, latest: map<string, bool>, run: seq<LoopEvent>) {
    && latest == Apply(map[], Verdicts(run))
    && (forall id :: id in latest <==> WasEvaluated(run, id))
    && (forall id :: WasEvaluated(run, id) ==>
          && id in l.b.throttlers
          && (id in Reconfigured(run) || latest[id] == Allows(l.b.throttlers[id])))
  }

  /** A delivered flush makes the enforcer's table exactly the last verdicts, also when an id repeats
      in the batch. */
  lemma FlushDeliversLatest(run: seq<LoopEvent>)
    ensures var l := Turned(run + [Flush]); Coheres(l, l.verdicts, run) && l.b.updates == []
  {
    VerdictsCohere(run);
    assert (run + [Flush])[..|run|] == run;
  }
}
