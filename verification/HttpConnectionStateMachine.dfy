/** The connection state machine as the program runs it: one current state, two queues updated in
    place, and the operations handed to the transport. A request or a response is represented by the
    number that identifies its pair of callbacks; running a callback is left to the caller. */
module HttpConnectionStateMachine {
  import opened HttpChannel
  import opened Spec = HttpConnection

  class StateMachine {
    var currentState: Phase
    var writeQueue: seq<nat>
    var readQueue: seq<nat>

    // Operations started on the resolver and the stream, not yet completed.
    var resolving: seq<nat>
    var connecting: seq<nat>
    var writing: seq<nat>
    var reading: seq<nat>

    /** The abstract machine, with the history of both channels. */
    ghost var model: Machine

    ghost predicate Valid()
      reads this
    {
      && currentState == model.phase
      && writeQueue == model.w.queue && readQueue == model.r.queue
      && resolving == model.resolves && connecting == model.connects
      && writing == model.w.inFlight && reading == model.r.inFlight
    }

    constructor ()
      ensures Valid() && model == FRESH
    {
      currentState, writeQueue, readQueue := NotConnected, [], [];
      resolving, connecting, writing, reading := [], [], [], [];
      model := FRESH;
    }

    method Resolve(id: nat)
      requires Valid()
      modifies this
      ensures Valid() && model == Spec.Resolve(old(model), id)
    {
      if currentState == NotConnected {
        resolving := resolving + [id];
        currentState := Resolving;
      }
      model := Spec.Resolve(model, id);
    }

    method Connect(id: nat)
      requires Valid()
      modifies this
      ensures Valid() && model == Spec.Connect(old(model), id)
    {
      if currentState == Resolved {
        connecting := connecting + [id];
        currentState := Connecting;
      }
      model := Spec.Connect(model, id);
    }

    method OnResolve(i: nat)
      requires Valid() && i < |resolving|
      modifies this
      ensures Valid() && model == ResolveDone(old(model), i, true)
    {
      resolving := Without(resolving, i);
      if currentState == Resolving {
        currentState := Resolved;
      }
      model := ResolveDone(model, i, true);
    }

    method OnResolveFailed(i: nat)
      requires Valid() && i < |resolving|
      modifies this
      ensures Valid() && model == ResolveDone(old(model), i, false)
    {
      resolving := Without(resolving, i);
      if currentState == Resolving {
        currentState := Error;
      }
      model := ResolveDone(model, i, false);
    }

    method OnConnect(i: nat)
      requires Valid() && i < |connecting|
      modifies this
      ensures Valid() && model == ConnectDone(old(model), i, true)
    {
      connecting := Without(connecting, i);
      if currentState == Connecting {
        currentState := Connected;
      }
      model := ConnectDone(model, i, true);
    }

    method OnConnectFailed(i: nat)
      requires Valid() && i < |connecting|
      modifies this
      ensures Valid() && model == ConnectDone(old(model), i, false)
    {
      connecting := Without(connecting, i);
      if currentState == Connecting {
        currentState := NotConnected;
      }
      model := ConnectDone(model, i, false);
    }

    method Write(id: nat)
      requires Valid()
      modifies this
      ensures Valid() && model == Spec.Write(old(model), id)
    {
      match currentState {
        case Connected =>
          writing := writing + [id];
          currentState := Writing;
        case Writing =>
          writeQueue := writeQueue + [id];
        case Reading =>
          writing := writing + [id];
          currentState := WritingAndReading;
        case WritingAndReading =>
          writeQueue := writeQueue + [id];
        case _ =>
      }
      model := Spec.Write(model, id);
    }

    method OnWrite(i: nat)
      requires Valid() && i < |writing|
      modifies this
      ensures Valid() && model == WriteDone(old(model), i, true)
    {
      writing := Without(writing, i);
      if currentState == Writing || currentState == WritingAndReading {
        if writeQueue != [] {
          writeQueue := writeQueue[1..];
        }
        if writeQueue != [] {
          writing := writing + [writeQueue[0]];
        } else {
          currentState := if currentState == Writing then Connected else Reading;
        }
      }
      model := WriteDone(model, i, true);
    }

    method OnWriteError(i: nat)
      requires Valid() && i < |writing|
      modifies this
      ensures Valid() && model == WriteDone(old(model), i, false)
    {
      writing := Without(writing, i);
      if currentState == Writing || currentState == WritingAndReading {
        if writeQueue != [] {
          writeQueue := writeQueue[1..];
        }
        currentState := Resolved;
      }
      model := WriteDone(model, i, false);
    }

    method Read(id: nat)
      requires Valid()
      modifies this
      ensures Valid() && model == Spec.Read(old(model), id)
    {
      match currentState {
        case Connected =>
          reading := reading + [id];
          currentState := Reading;
        case Reading =>
          readQueue := readQueue + [id];
        case Writing =>
          reading := reading + [id];
          currentState := WritingAndReading;
        case WritingAndReading =>
          readQueue := readQueue + [id];
        case _ =>
      }
      model := Spec.Read(model, id);
    }

    method OnRead(i: nat)
      requires Valid() && i < |reading|
      modifies this
      ensures Valid() && model == ReadDone(old(model), i, true)
    {
      reading := Without(reading, i);
      if currentState == Reading || currentState == WritingAndReading {
        if readQueue != [] {
          readQueue := readQueue[1..];
        }
        if readQueue != [] {
          reading := reading + [readQueue[0]];
        } else {
          currentState := if currentState == Reading then Connected else Writing;
        }
      }
      model := ReadDone(model, i, true);
    }

    method OnReadError(i: nat)
      requires Valid() && i < |reading|
      modifies this
      ensures Valid() && model == ReadDone(old(model), i, false)
    {
      reading := Without(reading, i);
      if currentState == Reading || currentState == WritingAndReading {
        if readQueue != [] {
          readQueue := readQueue[1..];
        }
        currentState := Resolved;
      }
      model := ReadDone(model, i, false);
    }
  }
}
