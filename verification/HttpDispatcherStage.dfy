/** The dispatcher stage as the program runs it: a pool of connection objects that it inserts into and
    drives through their completions, and two outputs. The closures that the program registers
    with a connection are the code that follows each completion here. */
module HttpDispatcherStage {
  import opened HttpChannel
  import opened HttpConnection
  import opened Spec = HttpDispatcher
  import opened HttpConnectionStateMachine
  import opened DynamicMessage

  /** The message sent out for an answered request, with the request it answers. */
  datatype Response = Response(body: string, returnCode: int, request: nat)

  function Requests(out: seq<Response>): seq<nat> {
    if out == [] then [] else Requests(out[..|out| - 1]) + [out[|out| - 1].request]
  }

  /** The connection objects are not shared, and are in the states of the machines, but for one key. */
  ghost predicate HoldsBut(pool: map<Key, StateMachine>, machines: map<Key, Machine>, but: Key)
    reads pool.Values
  {
    && pool.Keys == machines.Keys + {but}
    && (forall k :: k in pool && k != but ==> pool[k].Valid() && pool[k].model == machines[k])
    && (forall j, k :: j in pool && k in pool && j != k ==> pool[j] != pool[k])
  }

  ghost predicate Holds(pool: map<Key, StateMachine>, machines: map<Key, Machine>)
    reads pool.Values
  {
    && pool.Keys == machines.Keys
    && (forall k :: k in pool ==> pool[k].Valid() && pool[k].model == machines[k])
    && (forall j, k :: j in pool && k in pool && j != k ==> pool[j] != pool[k])
  }

  lemma LiveStates(p: Phase)
    ensures IsLive(p) <==> p == WritingAndReading || p == Reading || p == Writing || p == Connected
  {}

  /** The machine takes the call, or the request is refused. */
  lemma PerformRecords(d: Dispatcher, k: Key, r: nat)
    requires k in d.pool
    ensures var e := d.(pool := d.pool[k := Write(d.pool[k], r)]);
      Perform(d, k, r) == if IsLive(d.pool[k].phase) then e else e.(refused := d.refused + [r])
  {}

  lemma ConnectForRecords(d: Dispatcher, k: Key, r: nat)
    requires k in d.pool
    ensures var e := d.(pool := d.pool[k := Connect(d.pool[k], r)]);
      ConnectFor(d, k, r) == if d.pool[k].phase.Resolved? then e else e.(refused := d.refused + [r])
  {}

  lemma ReadForRecords(d: Dispatcher, k: Key, r: nat)
    requires k in d.pool
    ensures var e := d.(pool := d.pool[k := Read(d.pool[k], r)]);
      ReadFor(d, k, r) == if IsLive(d.pool[k].phase) then e else e.(refused := d.refused + [r])
  {}

  class DispatcherStage {
    var messages: seq<DynamicMessage.Message>  // every message received; its place is the request's number
    var posted: seq<nat>
    var pool: map<Key, StateMachine>
    var responseOut: seq<Response>
    var droppedOut: seq<nat>
    ghost var model: Dispatcher

    ghost predicate Plain()
      reads this
    {
      && |messages| == |model.keys| && posted == model.posted
      && Requests(responseOut) == model.responses && droppedOut == model.dropped
    }

    ghost predicate Valid()
      reads this, pool.Values
    {
      Plain() && Holds(pool, model.pool)
    }

    constructor ()
      ensures Valid() && model == EMPTY_DISPATCHER && pool == map[]
    {
      messages, posted, pool, responseOut, droppedOut := [], [], map[], [], [];
      model := EMPTY_DISPATCHER;
    }

    /** Only posts the handler to the event loop. */
    method OnMessage(message: DynamicMessage.Message)
      requires Valid()
      modifies this
      ensures Valid() && model == Spec.OnMessage(old(model))
      ensures messages == old(messages) + [message] && pool == old(pool)
    {
      posted := posted + [|messages|];
      messages := messages + [message];
      model := Spec.OnMessage(model);
    }

    /** The model follows the connection object of one key. */
    ghost method Record(k: Key)
      requires Plain() && HoldsBut(pool, model.pool, k) && pool[k].Valid()
      modifies this`model
      ensures Valid() && model == old(model).(pool := old(model).pool[k := pool[k].model])
    {
      model := model.(pool := model.pool[k := pool[k].model]);
    }

    ghost method Refuse(r: nat, taken: bool)
      requires Valid()
      modifies this`model
      ensures Valid() && model == if taken then old(model) else old(model).(refused := old(model).refused + [r])
    {
      if !taken {
        model := model.(refused := model.refused + [r]);
      }
    }

    method PerformRequest(k: Key, r: nat)
      requires Valid() && k in pool
      modifies this`model, pool[k]
      ensures Valid() && model == Perform(old(model), k, r)
    {
      PerformRecords(model, k, r);
      ghost var taken := IsLive(model.pool[k].phase);
      pool[k].Write(r);
      Record(k);
      Refuse(r, taken);
    }

    method Connect(k: Key, r: nat)
      requires Valid() && k in pool
      modifies this`model, pool[k]
      ensures Valid() && model == ConnectFor(old(model), k, r)
    {
      ConnectForRecords(model, k, r);
      ghost var taken := model.pool[k].phase.Resolved?;
      pool[k].Connect(r);
      Record(k);
      Refuse(r, taken);
    }

    method RequestResponse(k: Key, r: nat)
      requires Valid() && k in pool
      modifies this`model, pool[k]
      ensures Valid() && model == ReadFor(old(model), k, r)
    {
      ReadForRecords(model, k, r);
      ghost var taken := IsLive(model.pool[k].phase);
      pool[k].Read(r);
      Record(k);
      Refuse(r, taken);
    }

    method OpenConnection(k: Key, r: nat)
      requires Valid() && k !in pool
      modifies this`model, this`pool
      ensures Valid() && model == old(model).(pool := old(model).pool[k := HttpConnection.Resolve(FRESH, r)])
      ensures k in pool && pool == old(pool)[k := pool[k]] && fresh(pool[k])
    {
      AddConnection(k);
      pool[k].Resolve(r);
      Record(k);
    }

    method AddConnection(k: Key)
      requires Valid() && k !in pool
      modifies this`pool
      ensures Plain() && HoldsBut(pool, model.pool, k) && k in pool && pool == old(pool)[k := pool[k]]
      ensures fresh(pool[k]) && pool[k].Valid() && pool[k].model == FRESH
    {
      var machine := new StateMachine();
      assert machine !in pool.Values;
      pool := pool[k := machine];
    }

    method Drop(r: nat)
      requires Valid()
      modifies this`model, this`droppedOut
      ensures Valid() && model == old(model).(dropped := old(model).dropped + [r])
    {
      droppedOut := droppedOut + [r];
      model := model.(dropped := droppedOut);
    }

    method Respond(r: nat, body: string)
      requires Valid()
      modifies this`model, this`responseOut
      ensures Valid() && model == old(model).(responses := old(model).responses + [r])
      ensures responseOut == old(responseOut) + [Response(body, 200, r)]
    {
      responseOut := responseOut + [Response(body, 200, r)];
      model := model.(responses := model.responses + [r]);
    }

    /** Does nothing for a machine that is neither connected nor ready to reconnect. */
    method UseConnection(k: Key, r: nat)
      requires Valid() && k in pool
      modifies this`model, pool[k]
      ensures Valid() && model == if IsLive(old(model).pool[k].phase)
                                  then Perform(old(model), k, r) else ConnectFor(old(model), k, r)
    {
      var state := pool[k].currentState;
      LiveStates(state);
      if state == WritingAndReading || state == Reading || state == Writing || state == Connected {
        PerformRequest(k, r);
      } else if state == Resolved {
        Connect(k, r);
      } else {
        model := model.(refused := model.refused + [r]);
      }
    }

    /** The handler that `on_message` posted for a request. It reads the endpoint when it runs. */
    method Handler(j: nat)
      requires Valid() && j < |posted| && posted[j] < |messages|
      requires HasString(messages[posted[j]].fields, "load_balancing", "endpoint_host")
      requires HasString(messages[posted[j]].fields, "load_balancing", "endpoint_port")
      modifies this, pool.Values
      ensures var fields := old(messages[posted[j]].fields);
              var host := String(fields, "load_balancing", "endpoint_host");
              var port := String(fields, "load_balancing", "endpoint_port");
        Valid() && model == Handle(old(model), j, host, port)
      ensures messages == old(messages) && fresh(pool.Values - old(pool.Values))
    {
      var fields := messages[posted[j]].fields;
      var host := String(fields, "load_balancing", "endpoint_host");
      var port := String(fields, "load_balancing", "endpoint_port");
      var k := Key(false, host, port);
      var r := TakePosted(j, k);
      ServeRequest(k, r);
    }

    method TakePosted(j: nat, k: Key) returns (r: nat)
      requires Valid() && j < |posted| && posted[j] < |messages|
      modifies this`model, this`posted
      ensures Valid() && r == old(posted[j])
      ensures model == old(model).(posted := Without(old(model).posted, j), keys := old(model).keys[r := k])
    {
      r := posted[j];
      posted := Without(posted, j);
      model := model.(posted := posted, keys := model.keys[r := k]);
    }

    method ServeRequest(k: Key, r: nat)
      requires Valid()
      modifies this`model, this`pool, pool.Values
      ensures Valid() && model == Serve(old(model), k, r)
      ensures fresh(pool.Values - old(pool.Values))
    {
      if k !in pool {
        OpenConnection(k, r);
      } else {
        UseConnection(k, r);
      }
    }

    method EndResolve(k: Key, i: nat, ok: bool) returns (r: nat)
      requires Valid() && k in pool && i < |pool[k].resolving|
      modifies this`model, pool[k]
      ensures Valid() && model == old(model).(pool := old(model).pool[k := ResolveDone(old(model).pool[k], i, ok)])
      ensures r == old(model).pool[k].resolves[i]
    {
      r := pool[k].resolving[i];
      if ok {
        pool[k].OnResolve(i);
      } else {
        pool[k].OnResolveFailed(i);
      }
      Record(k);
    }

    method ResolveCompleted(k: Key, i: nat, ok: bool)
      requires Valid() && k in pool && i < |pool[k].resolving|
      modifies this`model, this`droppedOut, pool[k]
      ensures Valid() && model == OnResolved(old(model), k, i, ok)
    {
      var r := EndResolve(k, i, ok);
      if ok {
        Connect(k, r);
      } else {
        Drop(r);
      }
    }

    method EndConnect(k: Key, i: nat, ok: bool) returns (r: nat)
      requires Valid() && k in pool && i < |pool[k].connecting|
      modifies this`model, pool[k]
      ensures Valid() && model == old(model).(pool := old(model).pool[k := ConnectDone(old(model).pool[k], i, ok)])
      ensures r == old(model).pool[k].connects[i]
    {
      r := pool[k].connecting[i];
      if ok {
        pool[k].OnConnect(i);
      } else {
        pool[k].OnConnectFailed(i);
      }
      Record(k);
    }

    method ConnectCompleted(k: Key, i: nat, ok: bool)
      requires Valid() && k in pool && i < |pool[k].connecting|
      modifies this`model, this`droppedOut, pool[k]
      ensures Valid() && model == OnConnected(old(model), k, i, ok)
    {
      var r := EndConnect(k, i, ok);
      if ok {
        PerformRequest(k, r);
      } else {
        Drop(r);
      }
    }

    method EndWrite(k: Key, i: nat, ok: bool) returns (r: nat)
      requires Valid() && k in pool && i < |pool[k].writing|
      modifies this`model, pool[k]
      ensures Valid() && model == old(model).(pool := old(model).pool[k := WriteDone(old(model).pool[k], i, ok)])
      ensures r == old(model).pool[k].w.inFlight[i]
    {
      r := pool[k].writing[i];
      if ok {
        pool[k].OnWrite(i);
      } else {
        pool[k].OnWriteError(i);
      }
      Record(k);
    }

    method WriteCompleted(k: Key, i: nat, ok: bool)
      requires Valid() && k in pool && i < |pool[k].writing|
      modifies this`model, this`droppedOut, pool[k]
      ensures Valid() && model == OnWritten(old(model), k, i, ok)
    {
      var r := EndWrite(k, i, ok);
      if ok {
        RequestResponse(k, r);
      } else {
        Drop(r);
      }
    }

    method EndRead(k: Key, i: nat, ok: bool) returns (r: nat)
      requires Valid() && k in pool && i < |pool[k].reading|
      modifies this`model, pool[k]
      ensures Valid() && model == old(model).(pool := old(model).pool[k := ReadDone(old(model).pool[k], i, ok)])
      ensures r == old(model).pool[k].r.inFlight[i]
    {
      r := pool[k].reading[i];
      if ok {
        pool[k].OnRead(i);
      } else {
        pool[k].OnReadError(i);
      }
      Record(k);
    }

    /** A response that is read goes out with its body and the code 200, whatever code it came with. */
    method ReadCompleted(k: Key, i: nat, ok: bool, body: string)
      requires Valid() && k in pool && i < |pool[k].reading|
      modifies this`model, this`responseOut, this`droppedOut, pool[k]
      ensures Valid() && model == OnReadDone(old(model), k, i, ok)
      ensures ok ==> responseOut == old(responseOut) + [Response(body, 200, old(model).pool[k].r.inFlight[i])]
      ensures !ok ==> responseOut == old(responseOut)
    {
      var r := EndRead(k, i, ok);
      if ok {
        Respond(r, body);
      } else {
        Drop(r);
      }
    }
  }
}
