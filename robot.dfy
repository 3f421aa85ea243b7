/** The Robot aggregate: a name, the connections and devices built from its
    specifications (each held under its name, in the order the names were
    first assigned), its work callback and whatever extra option fields it was
    given; it reports its data and drives the start and halt of its children. */
module Robots {
  import opened JsValues
  import opened Effects
  import opened Connections
  import opened Drivers

  /** A specification field that may be absent, one object, or an array of objects. */
  datatype Specs<T> = Absent | One(spec: T) | Many(specs: seq<T>)

  /** `[].concat(specs)`: what the init loops iterate over. */
  function Normalize<T>(s: Specs<T>): seq<T> {
    match s
    case Absent => []
    case One(x) => [x]
    case Many(xs) => xs
  }

  /** A single spec and a one-element array of it are iterated alike. */
  lemma SingleSpecLikeArray<T>(x: T)
    ensures Normalize(One(x)) == Normalize(Many([x])) == [x]
  {
  }

  /** The adaptor and driver implementations a robot knows by module name. */
  datatype Registry = Registry(adaptors: map<string, AdaptorImpl>, drivers: set<string>)

  /** The robot's options. `connections` and `devices` hold whichever of the
      singular or plural keys was given; `extras` are the remaining fields. */
  datatype RobotOptions = RobotOptions(
    name: Option<string>,
    connections: Specs<ConnectionOptions>,
    devices: Specs<DeviceOptions>,
    work: Value,
    master: object?,
    commands: seq<string>,
    extras: map<string, Value>)

  /** The record `data()` returns. */
  datatype RobotData = RobotData(
    name: string,
    commands: seq<string>,
    devices: seq<DeviceData>,
    connections: seq<ConnectionData>)

  /** The key each connection spec is stored under. */
  function ConnectionKeys(specs: seq<ConnectionOptions>): (r: seq<string>)
    ensures |r| == |specs| && forall i :: 0 <= i < |specs| ==> r[i] == KeyOf(specs[i].name)
  {
    seq(|specs|, i requires 0 <= i < |specs| => KeyOf(specs[i].name))
  }

  /** The key each device spec is stored under. */
  function DeviceKeys(specs: seq<DeviceOptions>): (r: seq<string>)
    ensures |r| == |specs| && forall i :: 0 <= i < |specs| ==> r[i] == specs[i].name
  {
    seq(|specs|, i requires 0 <= i < |specs| => specs[i].name)
  }

  predicate DrawsFit(specs: seq<ConnectionOptions>, draws: seq<real>) {
    |draws| == |specs| && forall i :: 0 <= i < |draws| ==> 0.0 <= draws[i] < 1.0
  }

  /** The data records of the connections, in order. */
  function ConnectionDataList(cs: seq<Connection>): (r: seq<ConnectionData>)
    ensures |r| == |cs| && forall i :: 0 <= i < |cs| ==> r[i] == cs[i].Data()
    decreases |cs|
  {
    if cs == [] then [] else [cs[0].Data()] + ConnectionDataList(cs[1..])
  }

  /** The data records of the devices, in order. */
  function DeviceDataList(ds: seq<Device>): (r: seq<DeviceData>)
    reads set i | 0 <= i < |ds| :: ds[i]
    requires forall i :: 0 <= i < |ds| ==> ds[i].Valid()
    ensures |r| == |ds| && forall i :: 0 <= i < |ds| ==> r[i] == ds[i].Data()
    decreases |ds|
  {
    if ds == [] then [] else [ds[0].Data()] + DeviceDataList(ds[1..])
  }

  /** "[Robot name='<name>']". */
  function Describe(name: string): (s: string)
    ensures |s| == |name| + 15
    ensures s[..13] == "[Robot name='" && s[13..|s| - 2] == name && s[|s| - 2..] == "']"
  {
    "[Robot name='" + name + "']"
  }

  /** `c` was built from `opts` for `robot`, with the adaptor `registry` names
      and the random draw `draw`. */
  predicate ConnectionBuiltBy(c: Connection, opts: ConnectionOptions, draw: real, robot: object, registry: Registry)
    requires 0.0 <= draw < 1.0
  {
    && c.robot == robot && c.name == opts.name && c.port == opts.port
    && c.connectionId == ConnectionId(opts.id, draw)
    && opts.adaptor in registry.adaptors && c.adaptor.impl == registry.adaptors[opts.adaptor]
    && c.proxied == c.adaptor.Commands()
  }

  /** The connection stored under the name `n`, or null when there is none. */
  function NamedIn(conns: JsObject<Connection>, n: Option<string>): (c: Connection?)
    ensures c != null <==> n.Some? && n.value in conns.entries
    ensures c != null ==> c == conns.entries[n.value]
  {
    if n.Some? && n.value in conns.entries then conns.entries[n.value] else null
  }

  /** `d` was built from `opts` for `robot`, bound to the connection of `conns` the spec names. */
  predicate DeviceBuiltBy(d: Device, opts: DeviceOptions, robot: object, conns: JsObject<Connection>) {
    && d.name == opts.name && d.driverName == opts.driver
    && d.robot == robot && d.connection == NamedIn(conns, opts.connection)
  }

  /** `new Connection(opts)` with `opts.robot` set and the adaptor the registry names. */
  method MakeConnection(opts: ConnectionOptions, draw: real, robot: object, registry: Registry) returns (c: Connection)
    requires 0.0 <= draw < 1.0 && opts.adaptor in registry.adaptors
    ensures fresh(c) && ConnectionBuiltBy(c, opts, draw, robot, registry)
  {
    var adaptor := new Adaptor(registry.adaptors[opts.adaptor]);
    c := new Connection(opts.(robot := robot), adaptor, draw);
  }

  /** `new Device(opts)` with `opts.robot` set, bound to the connection the spec names. */
  method MakeDevice(opts: DeviceOptions, robot: object, conns: JsObject<Connection>) returns (d: Device)
    ensures fresh(d) && d.Valid() && DeviceBuiltBy(d, opts, robot, conns)
  {
    d := new Device(opts, robot, NamedIn(conns, opts.connection));
  }

  /** The connections loop of `initConnections`: one new connection per spec,
      each assigned under its spec's name. */
  method MakeConnections(o: JsObject<Connection>, list: seq<ConnectionOptions>, draws: seq<real>,
                         robot: object, registry: Registry)
    returns (r: JsObject<Connection>, ghost made: seq<Connection>)
    requires o.Valid() && DrawsFit(list, draws)
    requires forall i :: 0 <= i < |list| ==> list[i].adaptor in registry.adaptors
    ensures |made| == |list| && Distinct(made)
    ensures r == PutAll(o, ConnectionKeys(list), made)
    ensures forall c :: c in made ==> fresh(c)
    ensures ConnectionsBuilt(made, list, draws, robot, registry)
  {
    var keys := ConnectionKeys(list);
    r, made := o, [];
    var i := 0;
    while i < |list|
      invariant i == |made| <= |list|
      invariant ConnectionsSoFar(o, keys, list, draws, robot, registry, made, r)
      invariant forall n :: 0 <= n < i ==> fresh(made[n])
    {
      var c := MakeConnection(list[i], draws[i], robot, registry);
      ConnectionsSoFarStep(o, keys, list, draws, robot, registry, made, r, c);
      r := r.Put(keys[i], c);
      made := made + [c];
      i := i + 1;
    }
    assert keys[..i] == keys;
  }

  /** Each connection was built from the spec and draw at its position. */
  predicate ConnectionsBuilt(made: seq<Connection>, list: seq<ConnectionOptions>, draws: seq<real>,
                             robot: object, registry: Registry)
  {
    && |made| == |list| && DrawsFit(list, draws)
    && forall n :: 0 <= n < |made| ==> ConnectionBuiltBy(made[n], list[n], draws[n], robot, registry)
  }

  /** The first `|made|` specs have been built, each once, and assigned in order. */
  predicate ConnectionsSoFar(o: JsObject<Connection>, keys: seq<string>, list: seq<ConnectionOptions>,
                             draws: seq<real>, robot: object, registry: Registry,
                             made: seq<Connection>, r: JsObject<Connection>)
  {
    && o.Valid() && |keys| == |list| && |made| <= |list| && DrawsFit(list, draws)
    && r == PutAll(o, keys[..|made|], made)
    && Distinct(made)
    && forall n :: 0 <= n < |made| ==> ConnectionBuiltBy(made[n], list[n], draws[n], robot, registry)
  }

  lemma ConnectionsSoFarStep(o: JsObject<Connection>, keys: seq<string>, list: seq<ConnectionOptions>,
                             draws: seq<real>, robot: object, registry: Registry,
                             made: seq<Connection>, r: JsObject<Connection>, c: Connection)
    requires ConnectionsSoFar(o, keys, list, draws, robot, registry, made, r)
    requires |made| < |list| && c !in made
    requires ConnectionBuiltBy(c, list[|made|], draws[|made|], robot, registry)
    ensures ConnectionsSoFar(o, keys, list, draws, robot, registry, made + [c], r.Put(keys[|made|], c))
  {
    PutAllStep(o, keys, |made|, made, c);
    DistinctSnoc(made, c);
  }

  lemma DistinctSnoc<T>(s: seq<T>, x: T)
    requires Distinct(s) && x !in s
    ensures Distinct(s + [x])
  {
  }

  /** The devices loop of `initDevices`: one new device per spec, each
      assigned under its spec's name. */
  method MakeDevices(o: JsObject<Device>, list: seq<DeviceOptions>, robot: object, conns: JsObject<Connection>)
    returns (r: JsObject<Device>, ghost made: seq<Device>)
    requires o.Valid()
    ensures |made| == |list| && Distinct(made)
    ensures r == PutAll(o, DeviceKeys(list), made)
    ensures forall d :: d in made ==> fresh(d) && d.Valid()
    ensures DevicesBuilt(made, list, robot, conns)
  {
    var keys := DeviceKeys(list);
    r, made := o, [];
    var i := 0;
    while i < |list|
      invariant i == |made| <= |list|
      invariant DevicesSoFar(o, keys, list, robot, conns, made, r)
      invariant forall d :: d in made ==> fresh(d) && d.Valid()
    {
      var d := MakeDevice(list[i], robot, conns);
      DevicesSoFarStep(o, keys, list, robot, conns, made, r, d);
      r := r.Put(keys[i], d);
      made := made + [d];
      i := i + 1;
    }
    assert keys[..i] == keys;
  }

  /** Each device was built from the spec at its position. */
  predicate DevicesBuilt(made: seq<Device>, list: seq<DeviceOptions>, robot: object, conns: JsObject<Connection>) {
    && |made| == |list|
    && forall n :: 0 <= n < |made| ==> DeviceBuiltBy(made[n], list[n], robot, conns)
  }

  /** The first `|made|` specs have been built, each once, and assigned in order. */
  predicate DevicesSoFar(o: JsObject<Device>, keys: seq<string>, list: seq<DeviceOptions>,
                         robot: object, conns: JsObject<Connection>,
                         made: seq<Device>, r: JsObject<Device>)
  {
    && o.Valid() && |keys| == |list| && |made| <= |list|
    && r == PutAll(o, keys[..|made|], made)
    && Distinct(made)
    && forall n :: 0 <= n < |made| ==> DeviceBuiltBy(made[n], list[n], robot, conns)
  }

  lemma DevicesSoFarStep(o: JsObject<Device>, keys: seq<string>, list: seq<DeviceOptions>,
                         robot: object, conns: JsObject<Connection>,
                         made: seq<Device>, r: JsObject<Device>, d: Device)
    requires DevicesSoFar(o, keys, list, robot, conns, made, r)
    requires |made| < |list| && d !in made
    requires DeviceBuiltBy(d, list[|made|], robot, conns)
    ensures DevicesSoFar(o, keys, list, robot, conns, made + [d], r.Put(keys[|made|], d))
  {
    PutAllStep(o, keys, |made|, made, d);
    DistinctSnoc(made, d);
  }

  class Robot {
    const name: string
    const work: Value
    const master: object?
    const commands: seq<string>
    const extras: map<string, Value>
    const registry: Registry
    var connections: JsObject<Connection>
    var devices: JsObject<Device>
    /** The circular reference `robot.robot`. */
    var robot: Robot?

    /** Both maps are well formed, no child is held under two names, and
        every device has its driver. */
    predicate Valid()
      reads this, devices.entries.Values
      ensures Valid() ==> connections.Valid() && devices.Valid()
    {
      && connections.Valid() && Injective(connections)
      && devices.Valid() && Injective(devices)
      && (forall d :: d in devices.entries.Values ==> d.Valid())
    }

    /** `c` was built by this robot from `opts` with the random draw `draw`. */
    predicate BuiltConnection(c: Connection, opts: ConnectionOptions, draw: real)
      requires 0.0 <= draw < 1.0
    {
      ConnectionBuiltBy(c, opts, draw, this, registry)
    }

    /** `d` was built by this robot from `opts`. */
    predicate BuiltDevice(d: Device, opts: DeviceOptions)
      reads this
    {
      DeviceBuiltBy(d, opts, this, connections)
    }

    /** Every connection and every device was built by this robot from the
        spec last given under its name, and the names are listed in the order
        they were first given. */
    predicate BuiltFrom(opts: RobotOptions, draws: seq<real>)
      reads this
    {
      && DrawsFit(Normalize(opts.connections), draws)
      && (var specs := Normalize(opts.connections); var keys := ConnectionKeys(specs);
          && connections.keys == AddKeys([], keys)
          && forall k :: k in keys ==>
               var i := LastIndex(keys, k);
               k in connections.entries && BuiltConnection(connections.entries[k], specs[i], draws[i]))
      && (var specs := Normalize(opts.devices); var keys := DeviceKeys(specs);
          && devices.keys == AddKeys([], keys)
          && forall k :: k in keys ==>
               var i := LastIndex(keys, k);
               k in devices.entries && BuiltDevice(devices.entries[k], specs[i]))
    }

    /** `randomName` is what `Robot.randomName()` returns; `draws` are the
        `Math.random()` values the connections' ids would take. */
    constructor (opts: RobotOptions, randomName: string, registry: Registry, draws: seq<real>)
      requires DrawsFit(Normalize(opts.connections), draws)
      requires forall i :: 0 <= i < |Normalize(opts.connections)| ==> Normalize(opts.connections)[i].adaptor in registry.adaptors
      requires forall i :: 0 <= i < |Normalize(opts.devices)| ==> Normalize(opts.devices)[i].driver in registry.drivers
      ensures Valid() && robot == this
      ensures opts.name.Some? ==> name == opts.name.value
      ensures opts.name.None? ==> name == randomName
      ensures work == opts.work && master == opts.master && extras == opts.extras
      ensures commands == opts.commands && this.registry == registry
      ensures opts.connections.Absent? ==> connections.keys == [] && connections.entries == map[]
      ensures opts.devices.Absent? ==> devices.keys == [] && devices.entries == map[]
      ensures var specs := Normalize(opts.connections); var keys := ConnectionKeys(specs);
        && connections.keys == AddKeys([], keys)
        && forall k :: k in keys ==>
             var i := LastIndex(keys, k);
             k in connections.entries && fresh(connections.entries[k])
             && BuiltConnection(connections.entries[k], specs[i], draws[i])
      ensures var specs := Normalize(opts.devices); var keys := DeviceKeys(specs);
        && devices.keys == AddKeys([], keys)
        && forall k :: k in keys ==>
             var i := LastIndex(keys, k);
             k in devices.entries && fresh(devices.entries[k]) && BuiltDevice(devices.entries[k], specs[i])
    {
      name := if opts.name.Some? then opts.name.value else randomName;
      work := opts.work;
      master := opts.master;
      commands := opts.commands;
      extras := opts.extras;
      this.registry := registry;
      connections := Empty();
      devices := Empty();
      new;
      robot := this;
      InitConnections(opts.connections, draws);
      InitDevices(opts.devices);
    }

    /** Builds one connection per spec and stores it under the spec's name,
        replacing what was stored there; without specs nothing changes. */
    method InitConnections(specs: Specs<ConnectionOptions>, draws: seq<real>)
      requires Valid()
      requires DrawsFit(Normalize(specs), draws)
      requires forall i :: 0 <= i < |Normalize(specs)| ==> Normalize(specs)[i].adaptor in registry.adaptors
      modifies this
      ensures Valid()
      ensures devices == old(devices) && robot == old(robot)
      ensures specs.Absent? ==> connections == old(connections)
      ensures var keys := ConnectionKeys(Normalize(specs));
        && connections.keys == AddKeys(old(connections.keys), keys)
        && (forall k :: k in old(connections.entries) && k !in keys ==>
              k in connections.entries && connections.entries[k] == old(connections.entries[k]))
        && (forall k :: k in keys ==>
              var i := LastIndex(keys, k);
              k in connections.entries && fresh(connections.entries[k])
              && BuiltConnection(connections.entries[k], Normalize(specs)[i], draws[i]))
    {
      var list := Normalize(specs);
      ghost var keys := ConnectionKeys(list);
      ghost var made;
      connections, made := MakeConnections(connections, list, draws, this, registry);
      PutAllSpec(old(connections), keys, made);
      forall n | 0 <= n < |made|
        ensures made[n] !in old(connections).entries.Values
      {
        assert made[n] in made;
      }
      PutAllInjective(old(connections), keys, made);
      forall k | k in keys
        ensures var i := LastIndex(keys, k);
          k in connections.entries && fresh(connections.entries[k])
          && BuiltConnection(connections.entries[k], list[i], draws[i])
      {
        var i := LastIndex(keys, k);
        assert connections.entries[k] == made[i] && made[i] in made;
      }
    }

    /** Builds one device per spec, bound to the connection it names, and
        stores it under the spec's name; without specs nothing changes. */
    method InitDevices(specs: Specs<DeviceOptions>)
      requires Valid()
      requires forall i :: 0 <= i < |Normalize(specs)| ==> Normalize(specs)[i].driver in registry.drivers
      modifies this
      ensures Valid()
      ensures connections == old(connections) && robot == old(robot)
      ensures specs.Absent? ==> devices == old(devices)
      ensures var keys := DeviceKeys(Normalize(specs));
        && devices.keys == AddKeys(old(devices.keys), keys)
        && (forall k :: k in old(devices.entries) && k !in keys ==>
              k in devices.entries && devices.entries[k] == old(devices.entries[k]))
        && (forall k :: k in keys ==>
              var i := LastIndex(keys, k);
              k in devices.entries && fresh(devices.entries[k]) && BuiltDevice(devices.entries[k], Normalize(specs)[i]))
    {
      var list := Normalize(specs);
      ghost var keys := DeviceKeys(list);
      ghost var made;
      devices, made := MakeDevices(devices, list, this, connections);
      PutAllSpec(old(devices), keys, made);
      PutAllValues(old(devices), keys, made);
      forall n | 0 <= n < |made|
        ensures made[n] !in old(devices).entries.Values
      {
        assert made[n] in made;
      }
      PutAllInjective(old(devices), keys, made);
      forall k | k in keys
        ensures var i := LastIndex(keys, k);
          k in devices.entries && fresh(devices.entries[k]) && BuiltDevice(devices.entries[k], list[i])
      {
        var i := LastIndex(keys, k);
        assert devices.entries[k] == made[i] && made[i] in made;
      }
    }

    /** The connections in key order. */
    function ConnectionList(): seq<Connection>
      reads this
    {
      connections.Values()
    }

    /** The devices in key order. */
    function DeviceList(): (ds: seq<Device>)
      reads this
      ensures devices.Valid() ==> forall i :: 0 <= i < |ds| ==> ds[i] in devices.entries.Values
    {
      var ds := devices.Values();
      assert devices.Valid() ==> forall i :: 0 <= i < |ds| ==>
        devices.keys[i] in devices.entries && ds[i] == devices.entries[devices.keys[i]];
      ds
    }

    /** Name, commands, and the data of every device and every connection, in key order. */
    function Data(): (r: RobotData)
      reads this, devices.entries.Values
      requires Valid()
      ensures r.name == name && r.commands == commands
      ensures |r.devices| == |devices.keys|
      ensures forall i :: 0 <= i < |devices.keys| ==> r.devices[i] == devices.entries[devices.keys[i]].Data()
      ensures |r.connections| == |connections.keys|
      ensures forall i :: 0 <= i < |connections.keys| ==> r.connections[i] == connections.entries[connections.keys[i]].Data()
    {
      RobotData(name, commands, DeviceDataList(DeviceList()), ConnectionDataList(ConnectionList()))
    }

    /** The name can be read back from the description. */
    function ToString(): (s: string)
      ensures |s| == |name| + 15 && s[13..|s| - 2] == name
    {
      Describe(name)
    }

    /** The effects of `startConnections`. */
    function StartConnectionsTrace(): seq<Event>
      reads this
    {
      StartConnectionsEvents(this, ConnectionList())
    }

    /** The effects of `startDevices`. */
    function StartDevicesTrace(): seq<Event>
      reads this
    {
      StartDevicesEvents(this, DeviceList())
    }

    /** The effects of `start`. */
    function StartTrace(): seq<Event>
      reads this
    {
      StartEvents(this, ConnectionList(), DeviceList(), work)
    }

    /** The effects of `halt`. */
    function HaltTrace(): seq<Event>
      reads this
    {
      HaltEvents(this, DeviceList(), ConnectionList())
    }

    method StartConnections(j: Journal)
      requires Valid()
      modifies j
      ensures j.events == old(j.events) + StartConnectionsTrace()
    {
      j.Record(Call(this, Op.StartConnections));
      ConnectEach(ConnectionList(), j);
      AppendAssoc(old(j.events), [Call(this, Op.StartConnections)], FlatMap(ConnectionList(), ConnectionConnectEvents));
    }

    method StartDevices(j: Journal)
      requires Valid()
      modifies j
      ensures j.events == old(j.events) + StartDevicesTrace()
    {
      j.Record(Call(this, Op.StartDevices));
      DeviceListValid();
      StartEach(DeviceList(), j);
      AppendAssoc(old(j.events), [Call(this, Op.StartDevices)], FlatMap(DeviceList(), DeviceStartEvents));
    }

    method Start(j: Journal)
      requires Valid()
      modifies j
      ensures j.events == old(j.events) + StartTrace()
    {
      ghost var t := [Call(this, Op.Start)];
      j.Record(Call(this, Op.Start));
      StartConnections(j);
      AppendAssoc(old(j.events), t, StartConnectionsTrace());
      t := t + StartConnectionsTrace();
      StartDevices(j);
      AppendAssoc(old(j.events), t, StartDevicesTrace());
      t := t + StartDevicesTrace();
      if work.Fn? {
        j.Record(Call(this, Op.Work));
      }
      AppendAssoc(old(j.events), t, WorkEvents(this, work));
      t := t + WorkEvents(this, work);
      j.Record(Call(this, Op.Emit("working")));
      AppendAssoc(old(j.events), t, [Call(this, Op.Emit("working"))]);
    }

    method Halt(j: Journal)
      requires Valid()
      modifies j
      ensures j.events == old(j.events) + HaltTrace()
    {
      j.Record(Call(this, Op.Halt));
      DeviceListValid();
      HaltDevices(DeviceList(), j);
      AppendAssoc(old(j.events), [Call(this, Op.Halt)], FlatMap(DeviceList(), DeviceHaltEvents));
      HaltConnections(ConnectionList(), j);
      AppendAssoc(old(j.events), [Call(this, Op.Halt)] + FlatMap(DeviceList(), DeviceHaltEvents),
        FlatMap(ConnectionList(), ConnectionHaltEvents));
    }

    lemma DeviceListValid()
      requires Valid()
      ensures forall d :: d in DeviceList() ==> d.Valid()
    {
    }
  }

  /** `connect` on each connection in turn. */
  method ConnectEach(cs: seq<Connection>, j: Journal)
    modifies j
    ensures j.events == old(j.events) + FlatMap(cs, ConnectionConnectEvents)
  {
    var i := 0;
    while i < |cs|
      invariant 0 <= i <= |cs|
      invariant j.events == old(j.events) + FlatMap(cs[..i], ConnectionConnectEvents)
    {
      var _, _ := cs[i].Connect(j);
      FlatMapStep(cs, i, ConnectionConnectEvents);
      i := i + 1;
    }
    assert cs[..i] == cs;
  }

  /** `start` on each device in turn. */
  method StartEach(ds: seq<Device>, j: Journal)
    requires forall d :: d in ds ==> d.Valid()
    modifies j
    ensures j.events == old(j.events) + FlatMap(ds, DeviceStartEvents)
  {
    var i := 0;
    while i < |ds|
      invariant 0 <= i <= |ds|
      invariant j.events == old(j.events) + FlatMap(ds[..i], DeviceStartEvents)
    {
      var _, _ := ds[i].Start(j);
      FlatMapStep(ds, i, DeviceStartEvents);
      i := i + 1;
    }
    assert ds[..i] == ds;
  }

  /** `halt` on each device in turn. */
  method HaltDevices(ds: seq<Device>, j: Journal)
    requires forall d :: d in ds ==> d.Valid()
    modifies j
    ensures j.events == old(j.events) + FlatMap(ds, DeviceHaltEvents)
  {
    var i := 0;
    while i < |ds|
      invariant 0 <= i <= |ds|
      invariant j.events == old(j.events) + FlatMap(ds[..i], DeviceHaltEvents)
    {
      var _ := ds[i].Halt(j);
      FlatMapStep(ds, i, DeviceHaltEvents);
      i := i + 1;
    }
    assert ds[..i] == ds;
  }

  /** `halt` on each connection in turn. */
  method HaltConnections(cs: seq<Connection>, j: Journal)
    modifies j
    ensures j.events == old(j.events) + FlatMap(cs, ConnectionHaltEvents)
  {
    var i := 0;
    while i < |cs|
      invariant 0 <= i <= |cs|
      invariant j.events == old(j.events) + FlatMap(cs[..i], ConnectionHaltEvents)
    {
      var _, _ := cs[i].Halt(j);
      FlatMapStep(cs, i, ConnectionHaltEvents);
      i := i + 1;
    }
    assert cs[..i] == cs;
  }

  /** The effects of `startConnections` on `r`: the call, then `connect` on every connection in order. */
  function StartConnectionsEvents(r: Robot, cs: seq<Connection>): seq<Event> {
    [Call(r, Op.StartConnections)] + FlatMap(cs, ConnectionConnectEvents)
  }

  /** The effects of `startDevices` on `r`: the call, then `start` on every device in order. */
  function StartDevicesEvents(r: Robot, ds: seq<Device>): seq<Event> {
    [Call(r, Op.StartDevices)] + FlatMap(ds, DeviceStartEvents)
  }

  /** The work callback runs when there is one. */
  function WorkEvents(r: Robot, work: Value): seq<Event> {
    if work.Fn? then [Call(r, Op.Work)] else []
  }

  /** The effects of `start` on `r`: connections, then devices, then work, then 'working'. */
  function StartEvents(r: Robot, cs: seq<Connection>, ds: seq<Device>, work: Value): seq<Event> {
    [Call(r, Op.Start)] + StartConnectionsEvents(r, cs) + StartDevicesEvents(r, ds)
      + WorkEvents(r, work) + [Call(r, Op.Emit("working"))]
  }

  /** The effects of `halt` on `r`: every device halts, then every connection. */
  function HaltEvents(r: Robot, ds: seq<Device>, cs: seq<Connection>): seq<Event> {
    [Call(r, Op.Halt)] + FlatMap(ds, DeviceHaltEvents) + FlatMap(cs, ConnectionHaltEvents)
  }

  /** How often an event occurs in `start`'s effects, part by part. */
  lemma StartEventsCount(r: Robot, cs: seq<Connection>, ds: seq<Device>, work: Value, e: Event)
    ensures multiset(StartEvents(r, cs, ds, work))[e] ==
      multiset([Call(r, Op.Start), Call(r, Op.StartConnections), Call(r, Op.StartDevices), Call(r, Op.Emit("working"))])[e]
      + multiset(FlatMap(cs, ConnectionConnectEvents))[e] + multiset(FlatMap(ds, DeviceStartEvents))[e]
      + multiset(WorkEvents(r, work))[e]
  {
  }

  /** How often an event occurs in `halt`'s effects, part by part. */
  lemma HaltEventsCount(r: Robot, ds: seq<Device>, cs: seq<Connection>, e: Event)
    ensures multiset(HaltEvents(r, ds, cs))[e] ==
      multiset([Call(r, Op.Halt)])[e] + multiset(FlatMap(ds, DeviceHaltEvents))[e]
      + multiset(FlatMap(cs, ConnectionHaltEvents))[e]
  {
  }

  /** Only `connect` calls occur in the connections' connect effects. */
  lemma OnlyConnects(cs: seq<Connection>, e: Event)
    requires !(e.Call? && e.op == Op.Connect)
    ensures e !in FlatMap(cs, ConnectionConnectEvents)
  {
    FlatMapAbsent(cs, ConnectionConnectEvents, e);
  }

  /** Only `start` calls, 'start' emits and callbacks occur in the devices' start effects. */
  lemma OnlyDeviceStarts(ds: seq<Device>, e: Event)
    requires e.Call? && e.op != Op.Start && e.op != Op.Emit("start")
    ensures e !in FlatMap(ds, DeviceStartEvents)
  {
    FlatMapAbsent(ds, DeviceStartEvents, e);
  }

  lemma ConnectedOnce(cs: seq<Connection>, c: Connection)
    requires Distinct(cs) && c in cs
    ensures multiset(FlatMap(cs, ConnectionConnectEvents))[Call(c, Op.Connect)] == 1
  {
    FlatMapOnce(cs, ConnectionConnectEvents, c, Call(c, Op.Connect));
  }

  lemma StartedOnce(ds: seq<Device>, d: Device)
    requires Distinct(ds) && d in ds
    ensures multiset(FlatMap(ds, DeviceStartEvents))[Call(d, Op.Start)] == 1
    ensures multiset(FlatMap(ds, DeviceStartEvents))[Callback(d, [Null])] == 1
  {
    FlatMapOnce(ds, DeviceStartEvents, d, Call(d, Op.Start));
    FlatMapOnce(ds, DeviceStartEvents, d, Callback(d, [Null]));
  }

  lemma DeviceHaltedOnce(ds: seq<Device>, d: Device, cs: seq<Connection>)
    requires Distinct(ds) && d in ds
    ensures multiset(FlatMap(ds, DeviceHaltEvents))[Call(d, Op.Halt)] == 1
    ensures Call(d, Op.Halt) !in FlatMap(cs, ConnectionHaltEvents)
  {
    FlatMapOnce(ds, DeviceHaltEvents, d, Call(d, Op.Halt));
    FlatMapAbsent(cs, ConnectionHaltEvents, Call(d, Op.Halt));
  }

  lemma ConnectionHaltedOnce(cs: seq<Connection>, c: Connection, ds: seq<Device>)
    requires Distinct(cs) && c in cs
    ensures multiset(FlatMap(cs, ConnectionHaltEvents))[Call(c, Op.Halt)] == 1
    ensures Call(c, Op.Halt) !in FlatMap(ds, DeviceHaltEvents)
  {
    FlatMapOnce(cs, ConnectionHaltEvents, c, Call(c, Op.Halt));
    FlatMapAbsent(ds, DeviceHaltEvents, Call(c, Op.Halt));
  }

  lemma ConnectionDisconnectedOnce(cs: seq<Connection>, c: Connection, ds: seq<Device>)
    requires Distinct(cs) && c in cs
    ensures multiset(FlatMap(cs, ConnectionHaltEvents))[Call(c, Op.Disconnect)] == 1
    ensures Call(c, Op.Disconnect) !in FlatMap(ds, DeviceHaltEvents)
  {
    FlatMapOnce(cs, ConnectionHaltEvents, c, Call(c, Op.Disconnect));
    FlatMapAbsent(ds, DeviceHaltEvents, Call(c, Op.Disconnect));
  }

  /** Each listed connection is connected exactly once. */
  lemma {:induction false} StartEventsConnectOnce(r: Robot, cs: seq<Connection>, ds: seq<Device>, work: Value, c: Connection)
    requires Distinct(cs) && c in cs
    ensures multiset(StartEvents(r, cs, ds, work))[Call(c, Op.Connect)] == 1
  {
    var e := Call(c, Op.Connect);
    StartEventsCount(r, cs, ds, work, e);
    ConnectedOnce(cs, c);
    OnlyDeviceStarts(ds, e);
  }

  /** Each listed device is started exactly once. */
  lemma {:induction false} StartEventsStartOnce(r: Robot, cs: seq<Connection>, ds: seq<Device>, work: Value, d: Device)
    requires Distinct(ds) && d in ds
    ensures multiset(StartEvents(r, cs, ds, work))[Call(d, Op.Start)] == 1
  {
    var e := Call(d, Op.Start);
    StartEventsCount(r, cs, ds, work, e);
    StartedOnce(ds, d);
    OnlyConnects(cs, e);
  }

  /** Each listed device's completion callback runs exactly once. */
  lemma {:induction false} StartEventsCallbackOnce(r: Robot, cs: seq<Connection>, ds: seq<Device>, work: Value, d: Device)
    requires Distinct(ds) && d in ds
    ensures multiset(StartEvents(r, cs, ds, work))[Callback(d, [Null])] == 1
  {
    var e := Callback(d, [Null]);
    StartEventsCount(r, cs, ds, work, e);
    StartedOnce(ds, d);
    OnlyConnects(cs, e);
  }

  /** The work callback runs once if there is one, and not at all otherwise. */
  lemma {:induction false} StartEventsWorkOnce(r: Robot, cs: seq<Connection>, ds: seq<Device>, work: Value)
    ensures multiset(StartEvents(r, cs, ds, work))[Call(r, Op.Work)] == if work.Fn? then 1 else 0
  {
    var e := Call(r, Op.Work);
    StartEventsCount(r, cs, ds, work, e);
    OnlyConnects(cs, e);
    OnlyDeviceStarts(ds, e);
  }

  /** 'working' is emitted exactly once, as the last effect. */
  lemma {:induction false} StartEventsWorkingLast(r: Robot, cs: seq<Connection>, ds: seq<Device>, work: Value)
    ensures multiset(StartEvents(r, cs, ds, work))[Call(r, Op.Emit("working"))] == 1
    ensures StartEvents(r, cs, ds, work)[|StartEvents(r, cs, ds, work)| - 1] == Call(r, Op.Emit("working"))
  {
    var e := Call(r, Op.Emit("working"));
    StartEventsCount(r, cs, ds, work, e);
    OnlyConnects(cs, e);
    OnlyDeviceStarts(ds, e);
  }

  /** Any connect comes before any device start. */
  lemma {:induction false} StartEventsConnectBeforeStart(r: Robot, cs: seq<Connection>, ds: seq<Device>, work: Value,
                                                         c: Connection, d: Device, i: nat, k: nat)
    requires i < |StartEvents(r, cs, ds, work)| && StartEvents(r, cs, ds, work)[i] == Call(c, Op.Connect)
    requires k < |StartEvents(r, cs, ds, work)| && StartEvents(r, cs, ds, work)[k] == Call(d, Op.Start)
    ensures i < k
  {
    var head := [Call(r, Op.Start)] + StartConnectionsEvents(r, cs);
    var rest := StartDevicesEvents(r, ds) + WorkEvents(r, work) + [Call(r, Op.Emit("working"))];
    assert StartEvents(r, cs, ds, work) == head + rest;
    OnlyDeviceStarts(ds, Call(c, Op.Connect));
    OnlyConnects(cs, Call(d, Op.Start));
    SplitOrder(head, rest, i, k);
  }

  /** Any device start comes before the work callback. */
  lemma {:induction false} StartEventsStartBeforeWork(r: Robot, cs: seq<Connection>, ds: seq<Device>, work: Value,
                                                      d: Device, k: nat, w: nat)
    requires k < |StartEvents(r, cs, ds, work)| && StartEvents(r, cs, ds, work)[k] == Call(d, Op.Start)
    requires w < |StartEvents(r, cs, ds, work)| && StartEvents(r, cs, ds, work)[w] == Call(r, Op.Work)
    ensures k < w
  {
    var front := [Call(r, Op.Start)] + StartConnectionsEvents(r, cs) + StartDevicesEvents(r, ds);
    var back := WorkEvents(r, work) + [Call(r, Op.Emit("working"))];
    assert StartEvents(r, cs, ds, work) == front + back;
    OnlyConnects(cs, Call(r, Op.Work));
    OnlyDeviceStarts(ds, Call(r, Op.Work));
    SplitOrder(front, back, k, w);
  }

  /** Each listed connection disconnects exactly once. */
  lemma {:induction false} HaltEventsDisconnectOnce(r: Robot, ds: seq<Device>, cs: seq<Connection>, c: Connection)
    requires Distinct(cs) && c in cs
    ensures multiset(HaltEvents(r, ds, cs))[Call(c, Op.Disconnect)] == 1
  {
    HaltEventsCount(r, ds, cs, Call(c, Op.Disconnect));
    ConnectionDisconnectedOnce(cs, c, ds);
  }

  /** Every connection of the robot is connected exactly once by `start`. */
  lemma StartConnectsEachConnectionOnce(r: Robot, c: Connection)
    requires r.Valid() && c in r.connections.entries.Values
    ensures multiset(r.StartTrace())[Call(c, Op.Connect)] == 1
  {
    ValuesListed(r.connections, c);
    InjectiveValuesDistinct(r.connections);
    StartEventsConnectOnce(r, r.ConnectionList(), r.DeviceList(), r.work, c);
  }

  /** Every device of the robot is started exactly once by `start`, and its
      completion callback runs exactly once. */
  lemma StartStartsEachDeviceOnce(r: Robot, d: Device)
    requires r.Valid() && d in r.devices.entries.Values
    ensures multiset(r.StartTrace())[Call(d, Op.Start)] == 1
    ensures multiset(r.StartTrace())[Callback(d, [Null])] == 1
  {
    ValuesListed(r.devices, d);
    InjectiveValuesDistinct(r.devices);
    StartEventsStartOnce(r, r.ConnectionList(), r.DeviceList(), r.work, d);
    StartEventsCallbackOnce(r, r.ConnectionList(), r.DeviceList(), r.work, d);
  }

  /** `start` runs the work callback once when there is one and never
      otherwise, and ends by emitting 'working', exactly once. */
  lemma StartWorksThenAnnounces(r: Robot)
    requires r.Valid()
    ensures multiset(r.StartTrace())[Call(r, Op.Work)] == if r.work.Fn? then 1 else 0
    ensures multiset(r.StartTrace())[Call(r, Op.Emit("working"))] == 1
    ensures r.StartTrace()[|r.StartTrace()| - 1] == Call(r, Op.Emit("working"))
  {
    StartEventsWorkOnce(r, r.ConnectionList(), r.DeviceList(), r.work);
    StartEventsWorkingLast(r, r.ConnectionList(), r.DeviceList(), r.work);
  }

  /** In `start`, every connection is connected before any device starts,
      whether or not the robot has work. */
  lemma StartConnectsBeforeDevices(r: Robot, c: Connection, d: Device, i: nat, k: nat)
    requires r.Valid()
    requires i < |r.StartTrace()| && r.StartTrace()[i] == Call(c, Op.Connect)
    requires k < |r.StartTrace()| && r.StartTrace()[k] == Call(d, Op.Start)
    ensures i < k
  {
    StartEventsConnectBeforeStart(r, r.ConnectionList(), r.DeviceList(), r.work, c, d, i, k);
  }

  /** In `start`, every device has started before the work callback runs. */
  lemma StartDevicesBeforeWork(r: Robot, d: Device, k: nat, w: nat)
    requires r.Valid()
    requires k < |r.StartTrace()| && r.StartTrace()[k] == Call(d, Op.Start)
    requires w < |r.StartTrace()| && r.StartTrace()[w] == Call(r, Op.Work)
    ensures k < w
  {
    StartEventsStartBeforeWork(r, r.ConnectionList(), r.DeviceList(), r.work, d, k, w);
  }

  /** `halt` halts every device of the robot exactly once. */
  lemma HaltHaltsEachDeviceOnce(r: Robot, d: Device)
    requires r.Valid() && d in r.devices.entries.Values
    ensures multiset(r.HaltTrace())[Call(d, Op.Halt)] == 1
  {
    ValuesListed(r.devices, d);
    InjectiveValuesDistinct(r.devices);
    HaltEventsCount(r, r.DeviceList(), r.ConnectionList(), Call(d, Op.Halt));
    DeviceHaltedOnce(r.DeviceList(), d, r.ConnectionList());
  }

  /** `halt` halts every connection of the robot exactly once, and
      disconnects it exactly once. */
  lemma HaltHaltsEachConnectionOnce(r: Robot, c: Connection)
    requires r.Valid() && c in r.connections.entries.Values
    ensures multiset(r.HaltTrace())[Call(c, Op.Halt)] == 1
    ensures multiset(r.HaltTrace())[Call(c, Op.Disconnect)] == 1
  {
    ValuesListed(r.connections, c);
    InjectiveValuesDistinct(r.connections);
    HaltEventsCount(r, r.DeviceList(), r.ConnectionList(), Call(c, Op.Halt));
    ConnectionHaltedOnce(r.ConnectionList(), c, r.DeviceList());
    HaltEventsDisconnectOnce(r, r.DeviceList(), r.ConnectionList(), c);
  }

  /** Starting devices calls nothing on a robot. */
  lemma DevicesStartNoRobot(ds: seq<Device>, x: Robot)
    ensures Call(x, Op.Start) !in FlatMap(ds, DeviceStartEvents)
  {
    FlatMapAbsent(ds, DeviceStartEvents, Call(x, Op.Start));
  }

  /** A robot's `start` calls `start` on that robot exactly once. */
  lemma {:induction false} StartEventsOwnStart(r: Robot, cs: seq<Connection>, ds: seq<Device>, work: Value)
    ensures multiset(StartEvents(r, cs, ds, work))[Call(r, Op.Start)] == 1
  {
    var e := Call(r, Op.Start);
    StartEventsCount(r, cs, ds, work, e);
    OnlyConnects(cs, e);
    DevicesStartNoRobot(ds, r);
  }

  /** A robot's `start` never calls `start` on another robot. */
  lemma {:induction false} StartEventsOtherRobot(r: Robot, cs: seq<Connection>, ds: seq<Device>, work: Value, x: Robot)
    requires x != r
    ensures Call(x, Op.Start) !in StartEvents(r, cs, ds, work)
  {
    var e := Call(x, Op.Start);
    StartEventsCount(r, cs, ds, work, e);
    OnlyConnects(cs, e);
    DevicesStartNoRobot(ds, x);
  }

  /** A robot's `halt` calls `halt` on that robot exactly once. */
  lemma {:induction false} HaltEventsOwnHalt(r: Robot, ds: seq<Device>, cs: seq<Connection>)
    ensures multiset(HaltEvents(r, ds, cs))[Call(r, Op.Halt)] == 1
  {
    var e := Call(r, Op.Halt);
    HaltEventsCount(r, ds, cs, e);
    FlatMapAbsent(ds, DeviceHaltEvents, e);
    FlatMapAbsent(cs, ConnectionHaltEvents, e);
  }

  /** A robot's `halt` never calls `halt` on another robot. */
  lemma {:induction false} HaltEventsOtherRobot(r: Robot, ds: seq<Device>, cs: seq<Connection>, x: Robot)
    requires x != r
    ensures Call(x, Op.Halt) !in HaltEvents(r, ds, cs)
  {
    var e := Call(x, Op.Halt);
    FlatMapAbsent(ds, DeviceHaltEvents, e);
    FlatMapAbsent(cs, ConnectionHaltEvents, e);
    assert e !in [Call(r, Op.Halt)];
  }

  /** Different names give different descriptions. */
  lemma ToStringIdentifies(a: Robot, b: Robot)
    ensures a.ToString() == b.ToString() ==> a.name == b.name
  {
  }
}
