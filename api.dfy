/** The request logic of the API server: how a command's positional
    parameters are drawn from a request, which origin the CORS header
    allows, and what each route answers given the Master's lookups. The
    server's sockets, TLS material and middleware are not modelled. */
module Api {
  import opened JsValues
  import opened Effects
  import opened Connections
  import opened Drivers
  import opened Robots
  import opened Masters

  /** What a handler reads of a request: the HTTP method, the parsed query
      string and the parsed body. */
  datatype Request = Request(verb: string, query: JsObject<Value>, body: Value)

  /** The query is a well-formed object, and so is the body when it is one. */
  predicate WellFormed(req: Request) {
    req.query.Valid() && (req.body.Obj? ==> req.body.fields.Valid())
  }

  /** The container `parseCommandParams` enumerates: the query for a GET or
      when the query has a key, otherwise the body when `typeof body` is
      'object', otherwise an empty object. */
  function ParamContainer(req: Request): Value {
    if req.verb == "GET" || |req.query.keys| > 0 then Obj(req.query)
    else if IsObjectType(req.body) then req.body
    else Obj(Empty())
  }

  /** How many properties `for (var p in c)` visits: an object's keys, an
      array's indices, nothing for null. */
  function Size(c: Value): nat {
    match c
    case Obj(o) => |o.keys|
    case Arr(items) => |items|
    case _ => 0
  }

  /** `c[p]` for the `i`-th property a `for (var p in c)` loop visits. */
  function At(c: Value, i: nat): Value
    requires c.Obj? ==> c.fields.Valid()
    requires i < Size(c)
  {
    if c.Obj? then c.fields.entries[c.fields.keys[i]] else c.items[i]
  }

  /** The values `for (var p in c) params.push(c[p])` collects, in order. */
  function Enumerated(c: Value): (vs: seq<Value>)
    requires c.Obj? ==> c.fields.Valid()
    ensures |vs| == Size(c) && forall i :: 0 <= i < Size(c) ==> vs[i] == At(c, i)
  {
    match c
    case Obj(o) => o.Values()
    case Arr(items) => items
    case _ => []
  }

  /** The command parameters a request carries: one per key of the chosen
      container, its values in key order. */
  function CommandParams(req: Request): (params: seq<Value>)
    requires WellFormed(req)
    ensures req.verb == "GET" || |req.query.keys| > 0 ==>
      |params| == |req.query.keys|
      && forall i :: 0 <= i < |params| ==> params[i] == req.query.entries[req.query.keys[i]]
    ensures req.verb != "GET" && req.query.keys == [] && req.body.Obj? ==>
      |params| == |req.body.fields.keys|
      && forall i :: 0 <= i < |params| ==> params[i] == req.body.fields.entries[req.body.fields.keys[i]]
    ensures req.verb != "GET" && req.query.keys == [] && req.body.Arr? ==> params == req.body.items
    ensures req.verb != "GET" && req.query.keys == [] && !req.body.Obj? && !req.body.Arr? ==> params == []
  {
    var c := ParamContainer(req);
    var vs := Enumerated(c);
    assert c.Arr? ==> vs == c.items;
    vs
  }

  /** Once the query is chosen, the body plays no part. */
  lemma ParamsIgnoreBody(req: Request, body: Value)
    requires WellFormed(req) && (body.Obj? ==> body.fields.Valid())
    requires req.verb == "GET" || |req.query.keys| > 0
    ensures CommandParams(req.(body := body)) == CommandParams(req)
  {
  }

  /** A GET with an empty query has no parameters, whatever its body. */
  lemma EmptyGetHasNoParams(req: Request)
    requires WellFormed(req) && req.verb == "GET" && req.query.keys == []
    ensures CommandParams(req) == []
  {
  }

  /** Every method other than GET draws its parameters alike. */
  lemma ParamsSameForOtherVerbs(req: Request, verb: string)
    requires WellFormed(req) && req.verb != "GET" && verb != "GET"
    ensures CommandParams(req.(verb := verb)) == CommandParams(req)
  {
  }

  /** The values of a query built by assigning fields one by one are
      the assigned values, in the order the names were first assigned. */
  lemma {:induction false} ParamsOfAssignedQuery(verb: string, names: seq<string>, vs: seq<Value>, body: Value)
    requires |names| == |vs| && Distinct(names) && (verb == "GET" || names != [])
    requires body.Obj? ==> body.fields.Valid()
    ensures WellFormed(Request(verb, PutAll(Empty(), names, vs), body))
    ensures CommandParams(Request(verb, PutAll(Empty(), names, vs), body)) == vs
  {
    var q := PutAll(Empty(), names, vs);
    PutAllSpec(Empty(), names, vs);
    AddKeysDistinct(names);
    forall i | 0 <= i < |names|
      ensures q.entries[q.keys[i]] == vs[i]
    {
      assert q.keys[i] == names[i];
      LastIndexDistinct(names, i);
    }
  }

  /** With distinct names, adding them to no keys lists them as they are. */
  lemma {:induction false} AddKeysDistinct(names: seq<string>)
    requires Distinct(names)
    ensures AddKeys([], names) == names
    decreases |names|
  {
    if names != [] {
      var init, last := names[..|names| - 1], names[|names| - 1];
      assert names == init + [last];
      assert Distinct(init);
      AddKeysDistinct(init);
      assert last !in init;
      AddKeysSnoc([], init, last);
    }
  }

  /** In a sequence without repeats, an element's last position is its only one. */
  lemma LastIndexDistinct<T>(s: seq<T>, i: nat)
    requires Distinct(s) && i < |s|
    ensures LastIndex(s, s[i]) == i
  {
  }

  /** The value of `Access-Control-Allow-Origin`: the configured CORS origin
      unless it is missing or empty, in which case any origin. */
  function AllowOrigin(cors: Option<string>): (origin: string)
    ensures origin != ""
    ensures cors.Some? && cors.value != "" ==> origin == cors.value
    ensures cors.None? || cors.value == "" ==> origin == "*"
  {
    if cors.Some? && cors.value != "" then cors.value else "*"
  }

  /** A fresh configuration allows any origin; after `api({CORS: o})` with a
      non-empty `o`, only `o`. */
  lemma AllowOriginOfConfig(c: ApiConfig, o: string)
    requires o != ""
    ensures AllowOrigin(DefaultApiConfig.cors) == "*"
    ensures AllowOrigin(Merge(c, NoPatch.(cors := Some(o))).cors) == o
  {
  }

  /** `{result: r}`. */
  function ResultObject(r: Value): (v: Value)
    ensures v.Obj? && v.fields.Valid() && v.fields.keys == ["result"] && v.fields.entries["result"] == r
  {
    Obj(JsObject(["result"], map["result" := r]))
  }

  /** What `res.json(...)` is handed. */
  datatype Reply =
    /** An error object or a command result, sent as it is. */
    | Json(value: Value)
    | AllRobots(robots: seq<RobotData>)
    | RobotInfo(robot: RobotData)
    | CommandNames(names: seq<string>)
    | DevicesInfo(devices: seq<DeviceData>)
    | DeviceInfo(device: DeviceData)
    | ConnectionsInfo(connections: seq<ConnectionData>)
    | ConnectionInfo(connection: ConnectionData)

  /** Which part of a robot's data a robot route answers with. */
  datatype RobotPart = WholeRobot | RobotCommands | RobotDevices | RobotConnections

  /** Which part of a device's data a device route answers with. */
  datatype DevicePart = WholeDevice | DeviceCommands

  /** `robot.data()` or the field of it a route names. */
  function RobotProjection(data: RobotData, part: RobotPart): Reply {
    match part
    case WholeRobot => RobotInfo(data)
    case RobotCommands => CommandNames(data.commands)
    case RobotDevices => DevicesInfo(data.devices)
    case RobotConnections => ConnectionsInfo(data.connections)
  }

  /** `device.data()` or its commands. */
  function DeviceProjection(data: DeviceData, part: DevicePart): Reply {
    match part
    case WholeDevice => DeviceInfo(data)
    case DeviceCommands => CommandNames(data.commands)
  }

  /** Every registered robot is well formed. */
  predicate AllValid(rs: seq<Robot>)
    reads rs, set i, d | 0 <= i < |rs| && d in rs[i].devices.entries.Values :: d
  {
    forall i :: 0 <= i < |rs| ==> rs[i].Valid()
  }

  /** `data` holds the data of the first `|data|` robots, in order. */
  predicate DataSoFar(rs: seq<Robot>, data: seq<RobotData>)
    reads rs, set i, d | 0 <= i < |rs| && d in rs[i].devices.entries.Values :: d
    requires AllValid(rs)
  {
    |data| <= |rs| && forall k :: 0 <= k < |data| ==> data[k] == rs[k].Data()
  }

  lemma DataSoFarStep(rs: seq<Robot>, data: seq<RobotData>)
    requires AllValid(rs) && DataSoFar(rs, data) && |data| < |rs|
    ensures DataSoFar(rs, data + [rs[|data|].Data()])
  {
    var next := data + [rs[|data|].Data()];
    forall k | 0 <= k < |next|
      ensures next[k] == rs[k].Data()
    {
      if k < |data| {
        assert next[k] == data[k];
      }
    }
  }

  /** A device a lookup finds belongs to a well-formed robot, so it has its driver. */
  lemma FoundDeviceValid(rs: seq<Robot>, rn: string, dn: string)
    requires AllValid(rs) && LookupDevice(rs, rn, dn).Found?
    ensures LookupDevice(rs, rn, dn).entity.Valid()
  {
    var i :| 0 <= i < |rs| && rs[i].name == rn && dn in rs[i].devices.entries
             && LookupDevice(rs, rn, dn).entity == rs[i].devices.entries[dn];
    assert rs[i].Valid();
    assert rs[i].devices.entries[dn] in rs[i].devices.entries.Values;
  }

  /** A robot a lookup finds is one of the registered robots. */
  lemma FoundRobotValid(rs: seq<Robot>, n: string)
    requires AllValid(rs) && LookupRobot(rs, n).Found?
    ensures LookupRobot(rs, n).entity.Valid()
  {
    var i :| 0 <= i < |rs| && rs[i] == LookupRobot(rs, n).entity;
  }

  class ApiServer {
    const opts: ApiConfig
    const host: string
    const port: string
    const master: Master

    /** Takes the configuration and the Master to serve; an empty host or
        port falls back to 127.0.0.1 and 3000. */
    constructor (opts: ApiConfig, master: Master)
      ensures this.opts == opts && this.master == master
      ensures host == (if opts.host != "" then opts.host else "127.0.0.1")
      ensures port == (if opts.port != "" then opts.port else "3000")
    {
      this.opts := opts;
      this.master := master;
      host := if opts.host != "" then opts.host else "127.0.0.1";
      port := if opts.port != "" then opts.port else "3000";
    }

    /** The origin every response allows. */
    function Origin(): (origin: string)
      ensures origin != ""
      ensures opts.cors.Some? && opts.cors.value != "" ==> origin == opts.cors.value
      ensures opts.cors.None? || opts.cors.value == "" ==> origin == "*"
    {
      AllowOrigin(opts.cors)
    }

    /** `parseCommandParams(req)`: enumerates the chosen container and
        collects its values. */
    method ParseCommandParams(req: Request) returns (params: seq<Value>)
      requires WellFormed(req)
      ensures params == CommandParams(req)
    {
      var container := Obj(Empty());
      if req.verb == "GET" || |req.query.keys| > 0 {
        container := Obj(req.query);
      } else if IsObjectType(req.body) {
        container := req.body;
      }
      assert container == ParamContainer(req);
      params := [];
      var i := 0;
      while i < Size(container)
        invariant 0 <= i <= Size(container) && |params| == i
        invariant forall k :: 0 <= k < i ==> params[k] == At(container, k)
      {
        params := params + [At(container, i)];
        i := i + 1;
      }
    }

    /** GET /robots: the data of every registered robot, in registration order. */
    method RobotsRoute() returns (reply: Reply)
      requires AllValid(master.robots)
      ensures reply.AllRobots? && |reply.robots| == |master.robots|
      ensures forall i :: 0 <= i < |master.robots| ==> reply.robots[i] == master.robots[i].Data()
    {
      var rs := master.robots;
      var data := [];
      var i := 0;
      while i < |rs|
        invariant i == |data| && DataSoFar(rs, data)
      {
        DataSoFarStep(rs, data);
        data := data + [rs[i].Data()];
        i := i + 1;
      }
      reply := AllRobots(data);
    }

    /** GET /robots/:robot, /robots/:robot/commands, /robots/:robot/devices
        and /robots/:robot/connections: the robot error unchanged, or the
        named part of the robot's data. */
    method RobotRoute(name: string, part: RobotPart) returns (reply: Reply)
      requires AllValid(master.robots)
      ensures LookupRobot(master.robots, name).Missing? ==> reply == Json(ErrorObject(NoRobotMessage(name)))
      ensures LookupRobot(master.robots, name).Found? ==>
        reply == RobotProjection(LookupRobot(master.robots, name).entity.Data(), part)
    {
      var err, robot := master.FindRobotReply(name);
      if Truthy(err) {
        reply := Json(err);
      } else {
        FoundRobotValid(master.robots, name);
        reply := RobotProjection(robot.Data(), part);
      }
    }

    /** GET /robots/:robot/devices/:device and its /commands: the lookup's
        error unchanged, or the device's data or commands. */
    method DeviceRoute(robotName: string, deviceName: string, part: DevicePart) returns (reply: Reply)
      requires AllValid(master.robots)
      ensures LookupDevice(master.robots, robotName, deviceName).Missing? ==>
        reply == Json(ErrorObject(LookupDevice(master.robots, robotName, deviceName).message))
      ensures LookupDevice(master.robots, robotName, deviceName).Found? ==>
        reply == DeviceProjection(LookupDevice(master.robots, robotName, deviceName).entity.Data(), part)
    {
      var err, device := master.FindRobotDeviceReply(robotName, deviceName);
      if Truthy(err) {
        reply := Json(err);
      } else {
        FoundDeviceValid(master.robots, robotName, deviceName);
        reply := DeviceProjection(device.Data(), part);
      }
    }

    /** GET /robots/:robot/connections/:connection: the lookup's error
        unchanged, or the connection's data. */
    method ConnectionRoute(robotName: string, connectionName: string) returns (reply: Reply)
      ensures LookupConnection(master.robots, robotName, connectionName).Missing? ==>
        reply == Json(ErrorObject(LookupConnection(master.robots, robotName, connectionName).message))
      ensures LookupConnection(master.robots, robotName, connectionName).Found? ==>
        reply == ConnectionInfo(LookupConnection(master.robots, robotName, connectionName).entity.Data())
    {
      var err, connection := master.FindRobotConnectionReply(robotName, connectionName);
      reply := if Truthy(err) then Json(err) else ConnectionInfo(connection.Data());
    }

    /** ALL /robots/:robot/commands/:command. `invoke(e, c, ps)` is what
        `e[c].apply(e, ps)` returns. The parameters are parsed first; on a
        lookup error nothing is invoked and the error is the answer,
        otherwise the command runs once on the robot and its result is
        answered as `{result: r}`. */
    method RobotCommandRoute(req: Request, name: string, command: string,
                             invoke: (object, string, seq<Value>) -> Value, j: Journal)
      returns (reply: Reply)
      requires WellFormed(req)
      modifies j
      ensures var f := LookupRobot(master.robots, name);
        && (f.Missing? ==> reply == Json(ErrorObject(f.message)) && j.events == old(j.events))
        && (f.Found? ==>
              reply == Json(ResultObject(invoke(f.entity, command, CommandParams(req))))
              && j.events == old(j.events) + [Call(f.entity, Op.Invoke(command, CommandParams(req)))])
    {
      var params := ParseCommandParams(req);
      var err, robot := master.FindRobotReply(name);
      if Truthy(err) {
        reply := Json(err);
        return;
      }
      j.Record(Call(robot, Op.Invoke(command, params)));
      reply := Json(ResultObject(invoke(robot, command, params)));
    }

    /** ALL /robots/:robot/devices/:device/commands/:command, like the robot
        command route but on the device the lookup finds. */
    method DeviceCommandRoute(req: Request, robotName: string, deviceName: string, command: string,
                              invoke: (object, string, seq<Value>) -> Value, j: Journal)
      returns (reply: Reply)
      requires WellFormed(req)
      modifies j
      ensures var f := LookupDevice(master.robots, robotName, deviceName);
        && (f.Missing? ==> reply == Json(ErrorObject(f.message)) && j.events == old(j.events))
        && (f.Found? ==>
              reply == Json(ResultObject(invoke(f.entity, command, CommandParams(req))))
              && j.events == old(j.events) + [Call(f.entity, Op.Invoke(command, CommandParams(req)))])
    {
      var params := ParseCommandParams(req);
      var err, device := master.FindRobotDeviceReply(robotName, deviceName);
      if Truthy(err) {
        reply := Json(err);
        return;
      }
      j.Record(Call(device, Op.Invoke(command, params)));
      reply := Json(ResultObject(invoke(device, command, params)));
    }
  }
}
