/** The closed loop built from the two stages: whatever leaves the enforcer, allowed or throttled, goes
    on to the builder, and what the builder sends out on a flush comes back to the enforcer. */
module ThrottlingLoopStages {
  import opened SlidingLog
  import opened Throttling
  import opened ThrottlingLoop
  import opened ThrottlingStages
  import opened DynamicMessage

  /** The mark that the enforcer leaves in a message. */
  function Marked(fields: Fields, verdict: string): Fields {
    Set(fields, "throttling", "state", Str(verdict))
  }

  function Verdict(admitted: bool): (v: string)
    ensures v == "allowed" <==> admitted
  {
    assert |"allowed"| != |"suppressed"|;
    if admitted then "allowed" else "suppressed"
  }

  /** Both stages find the same throttlers in a message, also after the enforcer has marked it. */
  lemma SameThrottlers(fields: Fields, names: seq<string>, timeStamp: string, verdict: string)
    requires AreStrings(fields, names) && HasStamp(fields, timeStamp)
    requires names != [] ==> "http_info" in fields
    ensures var marked := Marked(fields, verdict);
      && HasString(marked, "throttling", "state") && String(marked, "throttling", "state") == verdict
      && HasStamp(marked, timeStamp) && Stamp(marked, timeStamp) == Stamp(fields, timeStamp)
      && (names != [] ==> "http_info" in marked)
      && AreStrings(marked, names) && IdsOf(marked, names) == IdsOf(fields, names)
  {
    var marked := Marked(fields, verdict);
    forall n
      ensures Get(marked, "http_info", n) == Get(fields, "http_info", n)
    {
      assert "http_info" != "throttling";
    }
    assert Get(marked, "info", timeStamp) == Get(fields, "info", timeStamp);
  }

  class ClosedLoop {
    const enforcer: ThrottlingEnforcer
    const builder: ThrottleStateBuilder

    constructor (lookupFieldNames: seq<string>, timeStampFieldName: string)
      ensures Valid() && State() == IDLE && fresh(enforcer) && fresh(builder)
      ensures enforcer.lookupFieldNames == lookupFieldNames && builder.timeStampFieldName == timeStampFieldName
    {
      enforcer := new ThrottlingEnforcer(lookupFieldNames);
      builder := new ThrottleStateBuilder(lookupFieldNames, timeStampFieldName);
    }

    ghost predicate Valid()
      reads builder, builder.throttlers.Values
    {
      builder.Valid() && builder.lookupFieldNames == enforcer.lookupFieldNames
    }

    ghost function State(): Loop
      reads builder, enforcer
    {
      Loop(builder.model, enforcer.throttlerStates)
    }

    /** The message as an event of the loop. */
    function Arrival(fields: Fields): LoopEvent
      requires AreStrings(fields, enforcer.lookupFieldNames) && HasStamp(fields, builder.timeStampFieldName)
    {
      Arrive(Stamp(fields, builder.timeStampFieldName), IdsOf(fields, enforcer.lookupFieldNames))
    }

    /** The time stamp is there, and so are the looked-up fields up to the first that suppresses the
        message; and the logs can be searched. */
    ghost predicate Accepts(fields: Fields)
      reads builder, enforcer
    {
      var names := enforcer.lookupFieldNames;
      && AreStrings(fields, names) && (names != [] ==> "http_info" in fields)
      && Readable(enforcer.throttlerStates, fields, names)
      && HasStamp(fields, builder.timeStampFieldName)
      && CanEvaluateAll(builder.model, Stamp(fields, builder.timeStampFieldName), IdsOf(fields, names),
                        Admits(enforcer.throttlerStates, IdsOf(fields, names)))
    }

    method Enforce(message: Message) returns (ghost admitted: bool)
      requires AreStrings(message.fields, enforcer.lookupFieldNames)
      requires Readable(enforcer.throttlerStates, message.fields, enforcer.lookupFieldNames)
      modifies enforcer, message
      ensures enforcer.throttlerStates == old(enforcer.throttlerStates)
      ensures message.fields == Marked(old(message.fields), Verdict(admitted))
      ensures admitted == Admits(enforcer.throttlerStates, IdsOf(old(message.fields), enforcer.lookupFieldNames))
    {
      admitted := Admits(enforcer.throttlerStates, IdsOf(message.fields, enforcer.lookupFieldNames));
      PassesIsAdmits(enforcer.throttlerStates, message.fields, enforcer.lookupFieldNames);
      enforcer.OnMessage(message);
    }

    method Build(message: Message, ghost fields: Fields, ghost admitted: bool)
      requires Valid() && message.fields == Marked(fields, Verdict(admitted))
      requires AreStrings(fields, builder.lookupFieldNames) && HasStamp(fields, builder.timeStampFieldName)
      requires builder.lookupFieldNames != [] ==> "http_info" in fields
      requires CanEvaluateAll(builder.model, Stamp(fields, builder.timeStampFieldName),
                              IdsOf(fields, builder.lookupFieldNames), admitted)
      modifies builder, builder.throttlers.Values
      ensures Valid()
      ensures builder.model == EvaluateAll(old(builder.model), Stamp(fields, builder.timeStampFieldName),
                                           IdsOf(fields, builder.lookupFieldNames), admitted)
    {
      SameThrottlers(fields, builder.lookupFieldNames, builder.timeStampFieldName, Verdict(admitted));
      builder.OnMessage(message);
    }

    method OnMessage(message: Message)
      requires Valid() && Accepts(message.fields)
      modifies enforcer, message, builder, builder.throttlers.Values
      ensures Valid() && State() == Turn(old(State()), Arrival(old(message.fields)))
    {
      ghost var fields := message.fields;
      ghost var admitted := Enforce(message);
      Build(message, fields, admitted);
    }

    method OnFlush()
      requires Valid()
      modifies enforcer, builder
      ensures Valid() && State() == Turn(old(State()), Flush)
    {
      builder.FlushUpdates();
      enforcer.OnThrottleStateMessage(builder.stateOut[|builder.stateOut| - 1]);
    }

    method OnAddThrottler(id: string, kind: string, window: nat, allowed: nat) returns (result: ConfigResult)
      requires Valid()
      modifies builder
      ensures Valid() && State() == Turn(old(State()), AddConfig(id, kind, window, allowed))
      ensures result == AddThrottler(old(State()).b, id, kind, window, allowed).1
    {
      result := builder.OnAddThrottler(id, kind, window, allowed);
    }

    method OnUpdateThrottler(id: string, kind: string, window: nat, allowed: nat) returns (result: ConfigResult)
      requires Valid()
      modifies builder, builder.throttlers.Values
      ensures Valid() && State() == Turn(old(State()), UpdateConfig(id, kind, window, allowed))
      ensures result == UpdateThrottler(old(State()).b, id, kind, window, allowed).1
    {
      result := builder.OnUpdateThrottler(id, kind, window, allowed);
    }
  }
}
