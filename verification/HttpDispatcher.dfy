/** The dispatcher on values: one machine for each (https, host, port) key, and the closures of
    `on_message` run as the steps that follow a completion. Requests are numbered in the order in
    which they were given to `on_message`; a request's number also identifies its callbacks. */
module HttpDispatcher {
  import opened HttpChannel
  import opened HttpConnection

  datatype Key = Key(https: bool, host: string, port: string)

  datatype Dispatcher = Dispatcher(
    keys: seq<Key>,        // the key of every request received, as its handler read it
    posted: seq<nat>,      // requests whose handler has been posted to the event loop
    pool: map<Key, Machine>,
    responses: seq<nat>,   // answered on http_response_out
    dropped: seq<nat>,     // sent to dropped_requests_out
    refused: seq<nat>      // a machine ignored the call made for the request
  )

  const EMPTY_DISPATCHER: Dispatcher := Dispatcher([], [], map[], [], [], [])

  /** Stands for the key of a request whose handler has not run. */
  const NO_KEY: Key := Key(false, "", "")

  function OnMessage(d: Dispatcher): Dispatcher {
    d.(keys := d.keys + [NO_KEY], posted := d.posted + [|d.keys|])
  }

  function Perform(d: Dispatcher, k: Key, r: nat): Dispatcher
    requires k in d.pool
  {
    if IsLive(d.pool[k].phase) then d.(pool := d.pool[k := Write(d.pool[k], r)]) else d.(refused := d.refused + [r])
  }

  function ConnectFor(d: Dispatcher, k: Key, r: nat): Dispatcher
    requires k in d.pool
  {
    if d.pool[k].phase.Resolved? then d.(pool := d.pool[k := Connect(d.pool[k], r)]) else d.(refused := d.refused + [r])
  }

  function ReadFor(d: Dispatcher, k: Key, r: nat): Dispatcher
    requires k in d.pool
  {
    if IsLive(d.pool[k].phase) then d.(pool := d.pool[k := Read(d.pool[k], r)]) else d.(refused := d.refused + [r])
  }

  /** A request is given to the machine of its key, which is created if there is none. */
  function Serve(d: Dispatcher, k: Key, r: nat): Dispatcher {
    if k !in d.pool then d.(pool := d.pool[k := HttpConnection.Resolve(FRESH, r)])
    else if IsLive(d.pool[k].phase) then Perform(d, k, r)
    else ConnectFor(d, k, r)
  }

  /** The posted handler of a request, which reads the endpoint from the message as it runs. */
  function Handle(d: Dispatcher, j: nat, host: string, port: string): Dispatcher
    requires j < |d.posted| && d.posted[j] < |d.keys|
  {
    var r, k := d.posted[j], Key(false, host, port);
    Serve(d.(posted := Without(d.posted, j), keys := d.keys[r := k]), k, r)
  }

  function OnResolved(d: Dispatcher, k: Key, i: nat, ok: bool): Dispatcher
    requires k in d.pool && i < |d.pool[k].resolves|
  {
    var r := d.pool[k].resolves[i];
    var d1 := d.(pool := d.pool[k := ResolveDone(d.pool[k], i, ok)]);
    if ok then ConnectFor(d1, k, r) else d1.(dropped := d.dropped + [r])
  }

  function OnConnected(d: Dispatcher, k: Key, i: nat, ok: bool): Dispatcher
    requires k in d.pool && i < |d.pool[k].connects|
  {
    var r := d.pool[k].connects[i];
    var d1 := d.(pool := d.pool[k := ConnectDone(d.pool[k], i, ok)]);
    if ok then Perform(d1, k, r) else d1.(dropped := d.dropped + [r])
  }

  function OnWritten(d: Dispatcher, k: Key, i: nat, ok: bool): Dispatcher
    requires k in d.pool && i < |d.pool[k].w.inFlight|
  {
    var r := d.pool[k].w.inFlight[i];
    var d1 := d.(pool := d.pool[k := WriteDone(d.pool[k], i, ok)]);
    if ok then ReadFor(d1, k, r) else d1.(dropped := d.dropped + [r])
  }

  function OnReadDone(d: Dispatcher, k: Key, i: nat, ok: bool): Dispatcher
    requires k in d.pool && i < |d.pool[k].r.inFlight|
  {
    var r := d.pool[k].r.inFlight[i];
    var d1 := d.(pool := d.pool[k := ReadDone(d.pool[k], i, ok)]);
    if ok then d1.(responses := d.responses + [r]) else d1.(dropped := d.dropped + [r])
  }

  datatype Happening =
    | Message
    | Handler(j: nat, host: string, port: string)
    | Resolution(k: Key, i: nat, ok: bool)
    | Connection(k: Key, i: nat, ok: bool)
    | Written(k: Key, i: nat, ok: bool)
    | Received(k: Key, i: nat, ok: bool)

  predicate Possible(d: Dispatcher, h: Happening) {
    match h
    case Message => true
    case Handler(j, _, _) => j < |d.posted| && d.posted[j] < |d.keys|
    case Resolution(k, i, _) => k in d.pool && i < |d.pool[k].resolves|
    case Connection(k, i, _) => k in d.pool && i < |d.pool[k].connects|
    case Written(k, i, _) => k in d.pool && i < |d.pool[k].w.inFlight|
    case Received(k, i, _) => k in d.pool && i < |d.pool[k].r.inFlight|
  }

  function Next(d: Dispatcher, h: Happening): Dispatcher {
    if !Possible(d, h) then d else
    match h
    case Message => OnMessage(d)
    case Handler(j, host, port) => Handle(d, j, host, port)
    case Resolution(k, i, ok) => OnResolved(d, k, i, ok)
    case Connection(k, i, ok) => OnConnected(d, k, i, ok)
    case Written(k, i, ok) => OnWritten(d, k, i, ok)
    case Received(k, i, ok) => OnReadDone(d, k, i, ok)
  }

  /** The dispatcher after any sequence of messages, handlers and completions. */
  function Dispatched(run: seq<Happening>): Dispatcher {
    if run == [] then EMPTY_DISPATCHER else Next(Dispatched(run[..|run| - 1]), run[|run| - 1])
  }
}
