/** The throttle state builder and the throttling enforcer as the program runs them. Messages sent
    through a source are appended to the sequence that stands for it. */
module ThrottlingStages {
  import opened Word64
  import opened SlidingLog
  import opened SlidingLogThrottler
  import opened Throttling
  import opened DynamicMessage

  /** The throttler a lookup field of a message names, if the field is there. */
  function IdAt(fields: Fields, name: string): Id
    requires Get(fields, "http_info", name).Found? ==> HasString(fields, "http_info", name)
  {
    if HasString(fields, "http_info", name) then Known(String(fields, "http_info", name)) else Missing
  }

  /** The lookup fields are strings, where they are there. */
  predicate AreStrings(fields: Fields, names: seq<string>) {
    forall n :: n in names && Get(fields, "http_info", n).Found? ==> HasString(fields, "http_info", n)
  }

  function IdsOf(fields: Fields, names: seq<string>): (ids: seq<Id>)
    requires AreStrings(fields, names)
    ensures |ids| == |names| && forall i :: 0 <= i < |names| ==> ids[i] == IdAt(fields, names[i])
  {
    seq(|names|, i requires 0 <= i < |names| => IdAt(fields, names[i]))
  }

  predicate HasStamp(fields: Fields, name: string) {
    var stamp := Get(fields, "info", name);
    stamp.Found? && stamp.value.Int64?
  }

  /** The int64 time stamp of a message, which the throttler takes as unsigned. */
  function Stamp(fields: Fields, name: string): nat
    requires HasStamp(fields, name)
  {
    fields["info"][name].i64 % U64
  }

  /** Which throttlers a message names: those in its string fields of group "http_info". */
  lemma FieldsNameThrottlers(fields: Fields, names: seq<string>, i: nat)
    requires AreStrings(fields, names) && i < |names|
    ensures forall id :: IdsOf(fields, names)[i] == Known(id) <==> Get(fields, "http_info", names[i]) == Found(Str(id))
    ensures IdsOf(fields, names)[i].Missing? <==> !Get(fields, "http_info", names[i]).Found?
  {}

  /** The time stamp of a message is the unsigned reading of its 64-bit signed field of group "info". */
  lemma StampReadsUnsigned(fields: Fields, name: string, v: int)
    requires Get(fields, "info", name) == Found(Int64(v)) && 0 <= v + U64 / 2 < U64
    ensures HasStamp(fields, name) && Stamp(fields, name) - v == if v >= 0 then 0 else U64
  {}

  /** What the loop over the lookup fields has done after one more of them. */
  lemma FieldStep(b: Builder, t: nat, ids: seq<Id>, i: nat, admitted: bool,
                  known: set<string>, sent: seq<Message>, message: Message)
    requires i < |ids|
    ensures EvaluateAll(b, t, ids[..i + 1], admitted) ==
            Evaluate(EvaluateAll(b, t, ids[..i], admitted), t, ids[i], admitted)
    ensures sent + Errors(message, known, ids[..i + 1])
         == sent + Errors(message, known, ids[..i]) + if ids[i].Missing? || ids[i].id !in known then [message] else []
  {
    assert ids[..i + 1][..i] == ids[..i];
  }

  predicate CanEvaluateField(b: Builder, t: nat, id: Id, admitted: bool) {
    id.Known? && id.id in b.throttlers ==> CanEvaluate(b.throttlers[id.id], t, admitted)
  }

  /** Every evaluation that the message calls for finds a log it can search. */
  predicate CanEvaluateAll(b: Builder, t: nat, ids: seq<Id>, admitted: bool) {
    forall i :: 0 <= i < |ids| ==> CanEvaluateField(EvaluateAll(b, t, ids[..i], admitted), t, ids[i], admitted)
  }

  /** The logs are in order, and those of the throttlers that are to record the message not ahead of it. */
  predicate InTime(b: Builder, t: nat, ids: seq<Id>, admitted: bool) {
    forall id :: id in b.throttlers ==>
      Sorted(b.throttlers[id].log) && (admitted && Known(id) in ids ==> Bounded(b.throttlers[id].log, t))
  }

  lemma StillInTime(b: Builder, t: nat, ids: seq<Id>, i: nat, admitted: bool)
    requires i < |ids| && InTime(b, t, ids, admitted)
    ensures CanEvaluateField(b, t, ids[i], admitted) && InTime(Evaluate(b, t, ids[i], admitted), t, ids, admitted)
  {
    if ids[i].Known? && ids[i].id in b.throttlers {
      if admitted {
        StaysSorted(b.throttlers[ids[i].id], t);
      } else {
        CutStaysSorted(b.throttlers[ids[i].id], t);
      }
    }
  }

  lemma {:induction false} InTimeSoFar(b: Builder, t: nat, ids: seq<Id>, n: nat, admitted: bool)
    requires n <= |ids| && InTime(b, t, ids, admitted)
    ensures InTime(EvaluateAll(b, t, ids[..n], admitted), t, ids, admitted)
  {
    if n > 0 {
      InTimeSoFar(b, t, ids, n - 1, admitted);
      StillInTime(EvaluateAll(b, t, ids[..n - 1], admitted), t, ids, n - 1, admitted);
      assert ids[..n][..n - 1] == ids[..n - 1];
    }
  }

  /** Messages in time can always be evaluated, and leave the logs in order. */
  lemma InTimeCanBeEvaluated(b: Builder, t: nat, ids: seq<Id>, admitted: bool)
    requires InTime(b, t, ids, admitted)
    ensures CanEvaluateAll(b, t, ids, admitted)
    ensures InTime(EvaluateAll(b, t, ids, admitted), t, ids, admitted)
  {
    forall i | 0 <= i < |ids|
      ensures CanEvaluateField(EvaluateAll(b, t, ids[..i], admitted), t, ids[i], admitted)
    {
      InTimeSoFar(b, t, ids, i, admitted);
      StillInTime(EvaluateAll(b, t, ids[..i], admitted), t, ids, i, admitted);
    }
    InTimeSoFar(b, t, ids, |ids|, admitted);
    assert ids[..|ids|] == ids;
  }

  class ThrottleStateBuilder {
    const lookupFieldNames: seq<string>
    const timeStampFieldName: string
    var throttlers: map<string, LogThrottler>
    var updatedThrottlers: seq<Update>
    var stateOut: seq<seq<Update>>
    var errorOut: seq<Message>
    ghost var model: Builder

    /** The model is what the fields say, and throttlers are not shared. */
    ghost predicate Valid()
      reads this, throttlers.Values
    {
      && updatedThrottlers == model.updates
      && throttlers.Keys == model.throttlers.Keys
      && (forall id :: id in throttlers ==> throttlers[id].State() == model.throttlers[id])
      && (forall i, j :: i in throttlers && j in throttlers && i != j ==> throttlers[i] != throttlers[j])
    }

    /** The time stamp and the verdict are there, and the fields that are looked up are strings where
        they exist. */
    ghost predicate Accepts(fields: Fields)
      reads this
    {
      && HasStamp(fields, timeStampFieldName)
      && HasString(fields, "throttling", "state")
      && (lookupFieldNames != [] ==> "http_info" in fields)
      && AreStrings(fields, lookupFieldNames)
      && CanEvaluateAll(model, Stamp(fields, timeStampFieldName), IdsOf(fields, lookupFieldNames),
                        String(fields, "throttling", "state") == "allowed")
    }

    constructor (lookupFieldNames: seq<string>, timeStampFieldName: string)
      ensures Valid() && model == Builder(map[], []) && stateOut == [] && errorOut == []
      ensures this.lookupFieldNames == lookupFieldNames && this.timeStampFieldName == timeStampFieldName
    {
      this.lookupFieldNames, this.timeStampFieldName := lookupFieldNames, timeStampFieldName;
      throttlers, updatedThrottlers, stateOut, errorOut := map[], [], [], [];
      model := Builder(map[], []);
    }

    method EvaluateThrottler(id: string, t: nat, admitted: bool)
      requires Valid() && id in throttlers && CanEvaluate(model.throttlers[id], t, admitted)
      modifies this`updatedThrottlers, this`model, throttlers[id]
      ensures Valid() && model == Evaluate(old(model), t, Known(id), admitted)
    {
      var throttler := throttlers[id];
      if admitted {
        throttler.AddTimestamp(t);
      } else {
        throttler.ReEvaluateAt(t);
      }
      updatedThrottlers := updatedThrottlers + [(id, throttler.IsAllowed())];
      model := Evaluate(model, t, Known(id), admitted);
    }

    method EvaluateField(message: Message, id: Id, t: nat, admitted: bool)
      requires Valid() && CanEvaluateField(model, t, id, admitted)
      modifies this`updatedThrottlers, this`model, this`errorOut, throttlers.Values
      ensures Valid() && model == Evaluate(old(model), t, id, admitted)
      ensures errorOut == old(errorOut) + (if id.Missing? || id.id !in throttlers then [message] else [])
    {
      if id.Missing? || id.id !in throttlers {
        errorOut := errorOut + [message];
      } else {
        EvaluateThrottler(id.id, t, admitted);
      }
    }

    method EvaluateFields(message: Message, ids: seq<Id>, t: nat, admitted: bool)
      requires Valid() && CanEvaluateAll(model, t, ids, admitted)
      modifies this`updatedThrottlers, this`model, this`errorOut, throttlers.Values
      ensures Valid() && model == EvaluateAll(old(model), t, ids, admitted)
      ensures errorOut == old(errorOut) + Errors(message, throttlers.Keys, ids)
    {
      for i := 0 to |ids|
        invariant Valid()
        invariant model == EvaluateAll(old(model), t, ids[..i], admitted)
        invariant errorOut == old(errorOut) + Errors(message, throttlers.Keys, ids[..i])
      {
        FieldStep(old(model), t, ids, i, admitted, throttlers.Keys, old(errorOut), message);
        EvaluateField(message, ids[i], t, admitted);
      }
      assert ids[..|ids|] == ids;
    }

    method OnMessage(message: Message)
      requires Valid() && Accepts(message.fields)
      modifies this`updatedThrottlers, this`model, this`errorOut, throttlers.Values
      ensures Valid()
      ensures var fields := message.fields;
              var ids := IdsOf(fields, lookupFieldNames);
              var admitted := String(fields, "throttling", "state") == "allowed";
        && model == EvaluateAll(old(model), Stamp(fields, timeStampFieldName), ids, admitted)
        && errorOut == old(errorOut) + Errors(message, throttlers.Keys, ids)
    {
      var t := Stamp(message.fields, timeStampFieldName);
      var admitted := String(message.fields, "throttling", "state") == "allowed";
      EvaluateFields(message, IdsOf(message.fields, lookupFieldNames), t, admitted);
    }

    method FlushUpdates()
      requires Valid()
      modifies this
      ensures Valid() && model == old(model).(updates := [])
      ensures stateOut == old(stateOut) + [old(updatedThrottlers)]
      ensures throttlers == old(throttlers) && errorOut == old(errorOut)
    {
      var states: seq<Update> := [];
      for i := 0 to |updatedThrottlers|
        invariant states == updatedThrottlers[..i]
        modifies {}
      {
        states := states + [updatedThrottlers[i]];
      }
      assert states == updatedThrottlers;
      updatedThrottlers := [];
      model := model.(updates := []);
      stateOut := stateOut + [states];
    }

    method OnAddThrottler(id: string, kind: string, window: nat, allowed: nat) returns (result: ConfigResult)
      requires Valid()
      modifies this
      ensures Valid() && (model, result) == AddThrottler(old(model), id, kind, window, allowed)
      ensures fresh(throttlers.Values - old(throttlers.Values))
    {
      if kind == "sliding_log" {
        var throttler := new LogThrottler(window, allowed);
        if id in throttlers {
          return IdExists;
        }
        throttlers := throttlers[id := throttler];
        model := AddThrottler(model, id, kind, window, allowed).0;
      } else if kind == "fixed_window" {
        return InvalidType;
      }
      return Ok;
    }

    method OnUpdateThrottler(id: string, kind: string, window: nat, allowed: nat) returns (result: ConfigResult)
      requires Valid()
      modifies this`model, throttlers.Values
      ensures Valid() && (model, result) == UpdateThrottler(old(model), id, kind, window, allowed)
    {
      if kind == "sliding_log" {
        if id !in throttlers {
          return DoesNotExist;
        }
        throttlers[id].SetAllowedRequestCount(allowed);
        throttlers[id].SetWindowDuration(window);
        model := UpdateThrottler(model, id, kind, window, allowed).0;
      } else if kind == "sliding_window" || kind == "fixed_window" {
        return InvalidType;
      }
      return Ok;
    }
  }

  /** The throttler that a lookup field names does not suppress. */
  predicate Passes(states: map<string, bool>, fields: Fields, name: string) {
    HasString(fields, "http_info", name) &&
    (String(fields, "http_info", name) in states ==> states[String(fields, "http_info", name)])
  }

  /** The lookup fields are strings, up to the first that names a suppressing throttler. */
  predicate Readable(states: map<string, bool>, fields: Fields, names: seq<string>) {
    forall i :: 0 <= i < |names| && (forall j :: 0 <= j < i ==> Passes(states, fields, names[j])) ==>
      HasString(fields, "http_info", names[i])
  }

  /** The verdict is about the throttlers that the lookup fields name. */
  lemma PassesIsAdmits(states: map<string, bool>, fields: Fields, names: seq<string>)
    requires AreStrings(fields, names)
    ensures (forall n :: n in names ==> Passes(states, fields, n)) <==> Admits(states, IdsOf(fields, names))
  {
    var ids := IdsOf(fields, names);
    assert forall i :: 0 <= i < |names| ==> names[i] in names && ids[i] in ids;
    forall n | Admits(states, ids) && n in names
      ensures Passes(states, fields, n)
    {
      var i :| 0 <= i < |names| && names[i] == n;
      assert ids[i] == IdAt(fields, n);
    }
    forall id | (forall n :: n in names ==> Passes(states, fields, n)) && id in ids
      ensures id.Known? && (id.id in states ==> states[id.id])
    {
      var i :| 0 <= i < |ids| && ids[i] == id;
      assert Passes(states, fields, names[i]);
    }
  }

  class ThrottlingEnforcer {
    const lookupFieldNames: seq<string>
    var throttlerStates: map<string, bool>
    var allowedOut: seq<Message>
    var throttledOut: seq<Message>

    constructor (lookupFieldNames: seq<string>)
      ensures this.lookupFieldNames == lookupFieldNames && throttlerStates == map[] && allowedOut == throttledOut == []
    {
      this.lookupFieldNames := lookupFieldNames;
      throttlerStates, allowedOut, throttledOut := map[], [], [];
    }

    /** A message leaves through exactly one output, marked with the verdict. The fields after the first
        one that suppresses it are not looked at. */
    method OnMessage(message: Message)
      requires Readable(throttlerStates, message.fields, lookupFieldNames)
      modifies this, message
      ensures throttlerStates == old(throttlerStates)
      ensures var fields := old(message.fields);
              var admitted := forall n :: n in lookupFieldNames ==> Passes(throttlerStates, fields, n);
        && message.fields == Set(fields, "throttling", "state", Str(if admitted then "allowed" else "suppressed"))
        && allowedOut == old(allowedOut) + (if admitted then [message] else [])
        && throttledOut == old(throttledOut) + (if admitted then [] else [message])
    {
      for i := 0 to |lookupFieldNames|
        invariant throttlerStates == old(throttlerStates) && message.fields == old(message.fields)
        invariant allowedOut == old(allowedOut) && throttledOut == old(throttledOut)
        invariant forall j :: 0 <= j < i ==> Passes(throttlerStates, message.fields, lookupFieldNames[j])
      {
        var id := String(message.fields, "http_info", lookupFieldNames[i]);
        if id in throttlerStates && !throttlerStates[id] {
          assert !Passes(throttlerStates, message.fields, lookupFieldNames[i]);
          message.SetField("throttling", "state", Str("suppressed"));
          throttledOut := throttledOut + [message];
          return;
        }
      }
      message.SetField("throttling", "state", Str("allowed"));
      allowedOut := allowedOut + [message];
    }

    method OnThrottleStateMessage(states: seq<Update>)
      modifies this
      ensures throttlerStates == Apply(old(throttlerStates), states)
      ensures allowedOut == old(allowedOut) && throttledOut == old(throttledOut)
    {
      for i := 0 to |states|
        invariant throttlerStates == Apply(old(throttlerStates), states[..i])
        invariant allowedOut == old(allowedOut) && throttledOut == old(throttledOut)
      {
        assert states[..i + 1][..i] == states[..i];
        throttlerStates := throttlerStates[states[i].0 := states[i].1];
      }
      assert states[..|states|] == states;
    }
  }
}
