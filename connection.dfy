/** A Connection: the handle a robot holds on one physical transport. It
    owns one adaptor (the pluggable capability provider), reports its data,
    and delegates connect, disconnect and halt to the adaptor. */
module Connections {
  import opened JsValues
  import opened Effects

  /** What a robot's adaptor registry resolves an adaptor module name to: the
      provider's constructor name, its `name` property, the commands it
      exposes and what its connect and disconnect hooks return. */
  datatype AdaptorImpl = AdaptorImpl(
    className: string,
    name: Option<string>,
    commands: seq<string>,
    connectReply: Value,
    disconnectReply: Value)

  /** Stand-in for an adaptor instance: its hooks record their invocation and
      return what the implementation returns. */
  class Adaptor {
    const impl: AdaptorImpl

    constructor (impl: AdaptorImpl)
      ensures this.impl == impl
    {
      this.impl := impl;
    }

    function Commands(): seq<string> {
      impl.commands
    }

    method Connect(j: Journal) returns (r: Value)
      modifies j
      ensures r == impl.connectReply
      ensures j.events == old(j.events) + [Call(this, Op.Connect)]
    {
      j.Record(Call(this, Op.Connect));
      r := impl.connectReply;
    }

    method Disconnect(j: Journal) returns (r: Value)
      modifies j
      ensures r == impl.disconnectReply
      ensures j.events == old(j.events) + [Call(this, Op.Disconnect)]
    {
      j.Record(Call(this, Op.Disconnect));
      r := impl.disconnectReply;
    }
  }

  /** The options a connection is built from; an absent field is `None` (or
      `Undefined` for the id). `robot` is the owning robot. */
  datatype ConnectionOptions = ConnectionOptions(
    id: Value,
    name: Option<string>,
    port: Option<string>,
    robot: object?,
    adaptor: string)

  /** The record `data()` returns. */
  datatype ConnectionData = ConnectionData(
    name: Option<string>,
    port: Option<string>,
    adaptor: Option<string>,
    connectionId: Value)

  /** `Math.floor(Math.random() * 10000)`, where `draw` is the value `Math.random()` returned. */
  function DrawId(draw: real): (id: int)
    requires 0.0 <= draw < 1.0
    ensures 0 <= id < 10000
  {
    (draw * 10000.0).Floor
  }

  /** The id a connection ends up with: the given one, or a random draw when none was given. */
  function ConnectionId(id: Value, draw: real): (r: Value)
    requires 0.0 <= draw < 1.0
    ensures IsNullish(id) ==> r.Num? && 0 <= r.n < 10000
    ensures !IsNullish(id) ==> r == id
  {
    if IsNullish(id) then Num(DrawId(draw)) else id
  }

  /** `adaptor.constructor.name || adaptor.name`: the constructor's name unless it is empty. */
  function AdaptorLabel(impl: AdaptorImpl): Option<string> {
    if impl.className != "" then Some(impl.className) else impl.name
  }

  /** The tail a log message gets when the connection has a port. */
  function PortSuffix(port: Option<string>): (r: string)
    ensures port.Some? <==> r != []
    ensures port.Some? ==> r == " on port " + port.value
  {
    if port.Some? then " on port " + port.value else ""
  }

  class Connection {
    const robot: object?
    const name: Option<string>
    const connectionId: Value
    const port: Option<string>
    const adaptor: Adaptor
    /** The command names proxied from the adaptor onto the connection. */
    const proxied: seq<string>

    /** `adaptor` is what the robot's `initAdaptor` returned for `opts.adaptor`;
        `draw` is what `Math.random()` would return. */
    constructor (opts: ConnectionOptions, adaptor: Adaptor, draw: real)
      requires 0.0 <= draw < 1.0
      ensures robot == opts.robot && name == opts.name && port == opts.port
      ensures IsNullish(opts.id) ==> connectionId.Num? && 0 <= connectionId.n < 10000
      ensures !IsNullish(opts.id) ==> connectionId == opts.id
      ensures connectionId == ConnectionId(opts.id, draw)
      ensures this.adaptor == adaptor
      ensures proxied == adaptor.Commands()
      ensures Data() == ConnectionData(opts.name, opts.port, AdaptorLabel(adaptor.impl), connectionId)
    {
      var id := opts.id;
      if IsNullish(id) {
        id := Num(DrawId(draw));
      }
      robot := opts.robot;
      name := opts.name;
      connectionId := id;
      port := opts.port;
      this.adaptor := adaptor;
      proxied := adaptor.Commands();
    }

    function Data(): ConnectionData {
      ConnectionData(name, port, AdaptorLabel(adaptor.impl), connectionId)
    }

    /** Logs "Connecting to <name>[ on port <port>]" and returns what the adaptor's connect returns. */
    method Connect(j: Journal) returns (r: Value, log: seq<string>)
      modifies j
      ensures r == adaptor.impl.connectReply
      ensures log == ["Connecting to " + Show(name) + PortSuffix(port)]
      ensures j.events == old(j.events) + [Call(this, Op.Connect), Call(adaptor, Op.Connect)]
    {
      j.Record(Call(this, Op.Connect));
      var msg := "Connecting to " + Show(name);
      if port.Some? {
        msg := msg + (" on port " + port.value);
      }
      assert msg == "Connecting to " + Show(name) + PortSuffix(port);
      log := [msg];
      r := adaptor.Connect(j);
    }

    /** Logs "Disconnecting from <name>[ on port <port>]" and returns what the adaptor's disconnect returns. */
    method Disconnect(j: Journal) returns (r: Value, log: seq<string>)
      modifies j
      ensures r == adaptor.impl.disconnectReply
      ensures log == ["Disconnecting from " + Show(name) + PortSuffix(port)]
      ensures j.events == old(j.events) + [Call(this, Op.Disconnect), Call(adaptor, Op.Disconnect)]
    {
      j.Record(Call(this, Op.Disconnect));
      var msg := "Disconnecting from " + Show(name);
      if port.Some? {
        msg := msg + (" on port " + port.value);
      }
      assert msg == "Disconnecting from " + Show(name) + PortSuffix(port);
      log := [msg];
      r := adaptor.Disconnect(j);
    }

    /** Logs "Halting adaptor <name>[ on port <port>]", then disconnects: one
        halt is exactly one adaptor disconnect. */
    method Halt(j: Journal) returns (r: Value, log: seq<string>)
      modifies j
      ensures r == adaptor.impl.disconnectReply
      ensures log == ["Halting adaptor " + Show(name) + PortSuffix(port),
                      "Disconnecting from " + Show(name) + PortSuffix(port)]
      ensures j.events == old(j.events) + ConnectionHaltEvents(this)
    {
      j.Record(Call(this, Op.Halt));
      var msg := "Halting adaptor " + Show(name);
      if port.Some? {
        msg := msg + (" on port " + port.value);
      }
      assert msg == "Halting adaptor " + Show(name) + PortSuffix(port);
      var more;
      r, more := Disconnect(j);
      log := [msg] + more;
    }
  }

  /** The effects of `c.connect(...)`. */
  function ConnectionConnectEvents(c: Connection): seq<Event> {
    [Call(c, Op.Connect), Call(c.adaptor, Op.Connect)]
  }

  /** The effects of `c.halt()`: halt, then disconnect, then the adaptor's disconnect. */
  function ConnectionHaltEvents(c: Connection): seq<Event> {
    [Call(c, Op.Halt), Call(c, Op.Disconnect), Call(c.adaptor, Op.Disconnect)]
  }

  /** A halt reaches the adaptor exactly once, and only through disconnect. */
  lemma HaltDisconnectsOnce(c: Connection)
    ensures multiset(ConnectionHaltEvents(c))[Call(c.adaptor, Op.Disconnect)] == 1
    ensures Call(c.adaptor, Op.Connect) !in ConnectionHaltEvents(c)
  {
  }
}
