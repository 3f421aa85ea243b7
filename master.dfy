/** The Master registry: the ordered list of registered robots, the
    configuration the API server is started with, and lookups of robots and
    of their devices and connections by name, in a synchronous form (the
    entity or null) and a callback form (an error object or undefined, and
    the entity or null). */
module Masters {
  import opened JsValues
  import opened Effects
  import opened Connections
  import opened Drivers
  import opened Robots

  /** The API server configuration. `auth` is the auth strategy object. */
  datatype ApiConfig = ApiConfig(
    host: string,
    port: string,
    cert: Option<string>,
    key: Option<string>,
    auth: Value,
    cors: Option<string>)

  /** Listen on 127.0.0.1:3000 with no TLS paths, an empty auth object and no CORS origin. */
  const DefaultApiConfig := ApiConfig("127.0.0.1", "3000", None, None, Obj(Empty()), None)

  /** The fields a call of `api` gives; an absent field is `None`. */
  datatype ApiPatch = ApiPatch(
    host: Option<string>,
    port: Option<string>,
    cert: Option<string>,
    key: Option<string>,
    auth: Option<Value>,
    cors: Option<string>)

  /** `api()` with no argument. */
  const NoPatch := ApiPatch(None, None, None, None, None, None)

  function Pick<T>(given: Option<T>, current: T): T {
    if given.Some? then given.value else current
  }

  /** The configuration after `api(patch)`. */
  function Merge(c: ApiConfig, p: ApiPatch): ApiConfig {
    ApiConfig(Pick(p.host, c.host), Pick(p.port, c.port),
              if p.cert.Some? then p.cert else c.cert,
              if p.key.Some? then p.key else c.key,
              Pick(p.auth, c.auth),
              if p.cors.Some? then p.cors else c.cors)
  }

  /** `api()` with no argument leaves the configuration as it is. */
  lemma MergeNothing(c: ApiConfig)
    ensures Merge(c, NoPatch) == c
  {
  }

  /** Every field `api` is given is overwritten with the given value. */
  lemma MergeOverwrites(c: ApiConfig, p: ApiPatch)
    ensures p.host.Some? ==> Merge(c, p).host == p.host.value
    ensures p.port.Some? ==> Merge(c, p).port == p.port.value
    ensures p.cert.Some? ==> Merge(c, p).cert == p.cert
    ensures p.key.Some? ==> Merge(c, p).key == p.key
    ensures p.auth.Some? ==> Merge(c, p).auth == p.auth.value
    ensures p.cors.Some? ==> Merge(c, p).cors == p.cors
  {
  }

  /** Every field `api` is not given keeps its value. */
  lemma MergeKeeps(c: ApiConfig, p: ApiPatch)
    ensures p.host.None? ==> Merge(c, p).host == c.host
    ensures p.port.None? ==> Merge(c, p).port == c.port
    ensures p.cert.None? ==> Merge(c, p).cert == c.cert
    ensures p.key.None? ==> Merge(c, p).key == c.key
    ensures p.auth.None? ==> Merge(c, p).auth == c.auth
    ensures p.cors.None? ==> Merge(c, p).cors == c.cors
  {
  }

  /** Giving the same fields twice changes nothing the second time. */
  lemma MergeIdempotent(c: ApiConfig, p: ApiPatch)
    ensures Merge(Merge(c, p), p) == Merge(c, p)
  {
  }

  /** The outcome of a lookup by name. */
  datatype Found<T> = Found(entity: T) | Missing(message: string)

  function NoRobotMessage(n: string): string {
    "No Robot found with the name " + n
  }

  function NoDeviceMessage(d: string): string {
    "No device found with the name " + d + "."
  }

  function NoConnectionMessage(c: string): string {
    "No connection found with the name " + c + "."
  }

  /** `{error: message}`. */
  function ErrorObject(message: string): (v: Value)
    ensures Truthy(v) && v.Obj? && v.fields.Valid()
    ensures v.fields.keys == ["error"] && v.fields.entries["error"] == Str(message)
  {
    Obj(JsObject(["error"], map["error" := Str(message)]))
  }

  /** The error a callback-form lookup passes: `{error: message}` when the
      lookup failed, undefined when it succeeded. */
  function ErrorOf<T>(f: Found<T>): (err: Value)
    ensures Truthy(err) <==> f.Missing?
    ensures f.Missing? ==> err == ErrorObject(f.message)
  {
    if f.Missing? then ErrorObject(f.message) else Undefined
  }

  /** The three failure messages can be told apart, whatever the names. */
  lemma MessagesDiffer(a: string, b: string, c: string)
    ensures NoRobotMessage(a) != NoDeviceMessage(b)
    ensures NoRobotMessage(a) != NoConnectionMessage(c)
    ensures NoDeviceMessage(b) != NoConnectionMessage(c)
  {
    assert NoRobotMessage(a)[3] == 'R';
    assert NoDeviceMessage(b)[3] == 'd';
    assert NoConnectionMessage(c)[3] == 'c';
  }

  /** The robot registered under `n`: found exactly when some registered
      robot has that name, and then it is one of them; otherwise the robot
      error. */
  function LookupRobot(rs: seq<Robot>, n: string): (f: Found<Robot>)
    ensures f.Found? <==> exists i :: 0 <= i < |rs| && rs[i].name == n
    ensures f.Found? ==> f.entity in rs && f.entity.name == n
    ensures f.Missing? ==> f.message == NoRobotMessage(n)
    decreases |rs|
  {
    if rs == [] then Missing(NoRobotMessage(n))
    else if rs[0].name == n then Found(rs[0])
    else LookupRobot(rs[1..], n)
  }

  /** The device `dn` of the robot `rn`. The robot is looked up first: with no
      robot of that name the answer is the robot error even when another
      robot has a device `dn`. */
  function LookupDevice(rs: seq<Robot>, rn: string, dn: string): (f: Found<Device>)
    reads rs
    ensures (forall i :: 0 <= i < |rs| ==> rs[i].name != rn) ==> f == Missing(NoRobotMessage(rn))
    ensures f.Found? ==> exists i :: 0 <= i < |rs| && rs[i].name == rn
                          && dn in rs[i].devices.entries && f.entity == rs[i].devices.entries[dn]
    ensures (exists i :: 0 <= i < |rs| && rs[i].name == rn)
            && (forall i :: 0 <= i < |rs| && rs[i].name == rn ==> dn in rs[i].devices.entries)
            ==> f.Found?
    ensures (exists i :: 0 <= i < |rs| && rs[i].name == rn)
            && (forall i :: 0 <= i < |rs| && rs[i].name == rn ==> dn !in rs[i].devices.entries)
            ==> f == Missing(NoDeviceMessage(dn))
  {
    var r := LookupRobot(rs, rn);
    if r.Missing? then Missing(r.message)
    else if dn in r.entity.devices.entries then Found(r.entity.devices.entries[dn])
    else Missing(NoDeviceMessage(dn))
  }

  /** The connection `cn` of the robot `rn`, looked up like a device. */
  function LookupConnection(rs: seq<Robot>, rn: string, cn: string): (f: Found<Connection>)
    reads rs
    ensures (forall i :: 0 <= i < |rs| ==> rs[i].name != rn) ==> f == Missing(NoRobotMessage(rn))
    ensures f.Found? ==> exists i :: 0 <= i < |rs| && rs[i].name == rn
                          && cn in rs[i].connections.entries && f.entity == rs[i].connections.entries[cn]
    ensures (exists i :: 0 <= i < |rs| && rs[i].name == rn)
            && (forall i :: 0 <= i < |rs| && rs[i].name == rn ==> cn in rs[i].connections.entries)
            ==> f.Found?
    ensures (exists i :: 0 <= i < |rs| && rs[i].name == rn)
            && (forall i :: 0 <= i < |rs| && rs[i].name == rn ==> cn !in rs[i].connections.entries)
            ==> f == Missing(NoConnectionMessage(cn))
  {
    var r := LookupRobot(rs, rn);
    if r.Missing? then Missing(r.message)
    else if cn in r.entity.connections.entries then Found(r.entity.connections.entries[cn])
    else Missing(NoConnectionMessage(cn))
  }

  /** Registering a robot makes its name found, and found as that robot when
      no earlier robot had the name; lookups of every other name are as before. */
  lemma {:induction false} LookupAfterRegister(rs: seq<Robot>, r: Robot, n: string)
    ensures LookupRobot(rs + [r], r.name).Found?
    ensures (forall i :: 0 <= i < |rs| ==> rs[i].name != r.name) ==> LookupRobot(rs + [r], r.name) == Found(r)
    ensures n != r.name ==> LookupRobot(rs + [r], n) == LookupRobot(rs, n)
    decreases |rs|
  {
    assert (rs + [r])[|rs|] == r;
    if rs != [] {
      assert (rs + [r])[1..] == rs[1..] + [r];
      LookupAfterRegister(rs[1..], r, n);
      assert forall i :: 0 <= i < |rs| - 1 ==> rs[1..][i] == rs[i + 1];
    } else {
      assert [r][1..] == [];
    }
  }

  /** Once a robot with a new name is registered, each of its devices and
      connections is found under that robot's name and the child's own. */
  lemma RegisteredChildrenFound(rs: seq<Robot>, r: Robot, dn: string, cn: string)
    requires forall i :: 0 <= i < |rs| ==> rs[i].name != r.name
    ensures dn in r.devices.entries ==> LookupDevice(rs + [r], r.name, dn) == Found(r.devices.entries[dn])
    ensures cn in r.connections.entries ==> LookupConnection(rs + [r], r.name, cn) == Found(r.connections.entries[cn])
    ensures dn !in r.devices.entries ==> LookupDevice(rs + [r], r.name, dn) == Missing(NoDeviceMessage(dn))
    ensures cn !in r.connections.entries ==> LookupConnection(rs + [r], r.name, cn) == Missing(NoConnectionMessage(cn))
  {
    LookupAfterRegister(rs, r, r.name);
  }

  /** The effects of starting each robot in turn. */
  function StartTraces(rs: seq<Robot>): (ts: seq<seq<Event>>)
    reads rs
    ensures |ts| == |rs| && forall i :: 0 <= i < |rs| ==> ts[i] == rs[i].StartTrace()
  {
    seq(|rs|, i requires 0 <= i < |rs| reads rs => rs[i].StartTrace())
  }

  /** The effects of halting each robot in turn. */
  function HaltTraces(rs: seq<Robot>): (ts: seq<seq<Event>>)
    reads rs
    ensures |ts| == |rs| && forall i :: 0 <= i < |rs| ==> ts[i] == rs[i].HaltTrace()
  {
    seq(|rs|, i requires 0 <= i < |rs| reads rs => rs[i].HaltTrace())
  }

  /** Starting the registry starts every registered robot exactly once. */
  lemma {:induction false} StartsEachRobotOnce(rs: seq<Robot>, i: nat)
    requires i < |rs| && Distinct(rs)
    ensures multiset(Concat(StartTraces(rs)))[Call(rs[i], Op.Start)] == 1
  {
    var ts := StartTraces(rs);
    var e := Call(rs[i], Op.Start);
    StartEventsOwnStart(rs[i], rs[i].ConnectionList(), rs[i].DeviceList(), rs[i].work);
    forall k | 0 <= k < |ts| && k != i
      ensures e !in RunEvents(ts[k])
    {
      StartEventsOtherRobot(rs[k], rs[k].ConnectionList(), rs[k].DeviceList(), rs[k].work, rs[i]);
    }
    FlatMapOnceAt(ts, RunEvents, i, e);
  }

  /** Robots are started in registration order. */
  lemma StartsRobotsInOrder(rs: seq<Robot>, i: nat, j: nat, p: nat, q: nat)
    requires i < j < |rs| && Distinct(rs)
    requires p < |Concat(StartTraces(rs))| && Concat(StartTraces(rs))[p] == Call(rs[i], Op.Start)
    requires q < |Concat(StartTraces(rs))| && Concat(StartTraces(rs))[q] == Call(rs[j], Op.Start)
    ensures p < q
  {
    var ts := StartTraces(rs);
    forall k | j <= k < |ts| ensures Call(rs[i], Op.Start) !in RunEvents(ts[k]) {
      StartEventsOtherRobot(rs[k], rs[k].ConnectionList(), rs[k].DeviceList(), rs[k].work, rs[i]);
    }
    forall k | 0 <= k < j ensures Call(rs[j], Op.Start) !in RunEvents(ts[k]) {
      StartEventsOtherRobot(rs[k], rs[k].ConnectionList(), rs[k].DeviceList(), rs[k].work, rs[j]);
    }
    FlatMapOrder(ts, RunEvents, j, Call(rs[i], Op.Start), Call(rs[j], Op.Start), p, q);
  }

  /** Halting the registry halts every registered robot exactly once. */
  lemma {:induction false} HaltsEachRobotOnce(rs: seq<Robot>, i: nat)
    requires i < |rs| && Distinct(rs)
    ensures multiset(Concat(HaltTraces(rs)))[Call(rs[i], Op.Halt)] == 1
  {
    var ts := HaltTraces(rs);
    var e := Call(rs[i], Op.Halt);
    HaltEventsOwnHalt(rs[i], rs[i].DeviceList(), rs[i].ConnectionList());
    forall k | 0 <= k < |ts| && k != i
      ensures e !in RunEvents(ts[k])
    {
      HaltEventsOtherRobot(rs[k], rs[k].DeviceList(), rs[k].ConnectionList(), rs[i]);
    }
    FlatMapOnceAt(ts, RunEvents, i, e);
  }

  /** Robots are halted in registration order. */
  lemma HaltsRobotsInOrder(rs: seq<Robot>, i: nat, j: nat, p: nat, q: nat)
    requires i < j < |rs| && Distinct(rs)
    requires p < |Concat(HaltTraces(rs))| && Concat(HaltTraces(rs))[p] == Call(rs[i], Op.Halt)
    requires q < |Concat(HaltTraces(rs))| && Concat(HaltTraces(rs))[q] == Call(rs[j], Op.Halt)
    ensures p < q
  {
    var ts := HaltTraces(rs);
    forall k | j <= k < |ts| ensures Call(rs[i], Op.Halt) !in RunEvents(ts[k]) {
      HaltEventsOtherRobot(rs[k], rs[k].DeviceList(), rs[k].ConnectionList(), rs[i]);
    }
    forall k | 0 <= k < j ensures Call(rs[j], Op.Halt) !in RunEvents(ts[k]) {
      HaltEventsOtherRobot(rs[k], rs[k].DeviceList(), rs[k].ConnectionList(), rs[j]);
    }
    FlatMapOrder(ts, RunEvents, j, Call(rs[i], Op.Halt), Call(rs[j], Op.Halt), p, q);
  }

  /** `new Robot(opts)`, with only what registration needs of its outcome. */
  method NewRobot(opts: RobotOptions, randomName: string, registry: Registry, draws: seq<real>)
    returns (r: Robot)
    requires DrawsFit(Normalize(opts.connections), draws)
    requires forall i :: 0 <= i < |Normalize(opts.connections)| ==> Normalize(opts.connections)[i].adaptor in registry.adaptors
    requires forall i :: 0 <= i < |Normalize(opts.devices)| ==> Normalize(opts.devices)[i].driver in registry.drivers
    ensures fresh(r) && r.Valid()
    ensures r.name == (if opts.name.Some? then opts.name.value else randomName)
    ensures r.work == opts.work && r.master == opts.master && r.extras == opts.extras
    ensures r.commands == opts.commands && r.registry == registry
    ensures r.BuiltFrom(opts, draws)
    ensures forall c :: c in r.connections.entries.Values ==> fresh(c)
    ensures forall d :: d in r.devices.entries.Values ==> fresh(d)
  {
    r := new Robot(opts, randomName, registry, draws);
    AddKeysSpec([], ConnectionKeys(Normalize(opts.connections)));
    AddKeysSpec([], DeviceKeys(Normalize(opts.devices)));
    forall c | c in r.connections.entries.Values ensures fresh(c) {
      var k :| k in r.connections.entries && r.connections.entries[k] == c;
      assert k in r.connections.keys;
    }
    forall d | d in r.devices.entries.Values ensures fresh(d) {
      var k :| k in r.devices.entries && r.devices.entries[k] == d;
      assert k in r.devices.keys;
    }
  }

  class Master {
    var robots: seq<Robot>
    var apiConfig: ApiConfig
    /** The API server, created when the API starts; never here, where starting it is an effect. */
    var apiInstance: object?

    constructor ()
      ensures robots == [] && apiInstance == null
      ensures apiConfig == DefaultApiConfig
      ensures apiConfig.host == "127.0.0.1" && apiConfig.port == "3000"
    {
      robots := [];
      apiConfig := DefaultApiConfig;
      apiInstance := null;
    }

    /** `robot(opts)`: builds a robot from the options and appends it to the registry. */
    method RegisterRobot(opts: RobotOptions, randomName: string, registry: Registry, draws: seq<real>)
      returns (r: Robot)
      requires DrawsFit(Normalize(opts.connections), draws)
      requires forall i :: 0 <= i < |Normalize(opts.connections)| ==> Normalize(opts.connections)[i].adaptor in registry.adaptors
      requires forall i :: 0 <= i < |Normalize(opts.devices)| ==> Normalize(opts.devices)[i].driver in registry.drivers
      requires forall i :: 0 <= i < |robots| ==> robots[i].Valid()
      modifies this
      ensures fresh(r) && r.Valid()
      ensures robots == old(robots) + [r]
      ensures forall i :: 0 <= i < |robots| ==> robots[i].Valid()
      ensures Distinct(old(robots)) ==> Distinct(robots)
      ensures r.name == (if opts.name.Some? then opts.name.value else randomName)
      ensures r.work == opts.work && r.master == opts.master && r.extras == opts.extras
      ensures r.commands == opts.commands && r.registry == registry
      ensures r.BuiltFrom(opts, draws)
      ensures forall c :: c in r.connections.entries.Values ==> fresh(c)
      ensures forall d :: d in r.devices.entries.Values ==> fresh(d)
      ensures apiConfig == old(apiConfig) && apiInstance == old(apiInstance)
    {
      r := NewRobot(opts, randomName, registry, draws);
      robots := robots + [r];
    }

    /** `api(patch)`: merges the given fields into the configuration and answers it. */
    method Api(patch: ApiPatch) returns (config: ApiConfig)
      modifies this
      ensures apiConfig == Merge(old(apiConfig), patch) && config == apiConfig
      ensures robots == old(robots) && apiInstance == old(apiInstance)
    {
      apiConfig := Merge(apiConfig, patch);
      config := apiConfig;
    }

    /** `findRobot(n)`: the robot, or null when none has that name. */
    method FindRobot(n: string) returns (r: Robot?)
      ensures r != null <==> LookupRobot(robots, n).Found?
      ensures r != null ==> r == LookupRobot(robots, n).entity
    {
      var i := 0;
      assert robots[0..] == robots;
      while i < |robots|
        invariant 0 <= i <= |robots|
        invariant LookupRobot(robots[i..], n) == LookupRobot(robots, n)
      {
        if robots[i].name == n {
          return robots[i];
        }
        assert robots[i..][1..] == robots[i + 1..];
        i := i + 1;
      }
      return null;
    }

    /** `findRobot(n, callback)`: the arguments the callback receives. */
    method FindRobotReply(n: string) returns (err: Value, r: Robot?)
      ensures err == ErrorOf(LookupRobot(robots, n))
      ensures r != null <==> LookupRobot(robots, n).Found?
      ensures r != null ==> r == LookupRobot(robots, n).entity
    {
      r := FindRobot(n);
      err := if r == null then ErrorObject(NoRobotMessage(n)) else Undefined;
    }

    /** `findRobotDevice(rn, dn)`: the device, or null when the robot or the device is missing. */
    method FindRobotDevice(rn: string, dn: string) returns (d: Device?)
      ensures d != null <==> LookupDevice(robots, rn, dn).Found?
      ensures d != null ==> d == LookupDevice(robots, rn, dn).entity
    {
      var r := FindRobot(rn);
      d := if r != null && dn in r.devices.entries then r.devices.entries[dn] else null;
    }

    /** `findRobotDevice(rn, dn, callback)`: the arguments the callback receives. */
    method FindRobotDeviceReply(rn: string, dn: string) returns (err: Value, d: Device?)
      ensures err == ErrorOf(LookupDevice(robots, rn, dn))
      ensures d != null <==> LookupDevice(robots, rn, dn).Found?
      ensures d != null ==> d == LookupDevice(robots, rn, dn).entity
    {
      var robotErr, r := FindRobotReply(rn);
      if r == null {
        err, d := robotErr, null;
      } else if dn in r.devices.entries {
        err, d := Undefined, r.devices.entries[dn];
      } else {
        err, d := ErrorObject(NoDeviceMessage(dn)), null;
      }
    }

    /** `findRobotConnection(rn, cn)`: the connection, or null when the robot or the connection is missing. */
    method FindRobotConnection(rn: string, cn: string) returns (c: Connection?)
      ensures c != null <==> LookupConnection(robots, rn, cn).Found?
      ensures c != null ==> c == LookupConnection(robots, rn, cn).entity
    {
      var r := FindRobot(rn);
      c := if r != null && cn in r.connections.entries then r.connections.entries[cn] else null;
    }

    /** `findRobotConnection(rn, cn, callback)`: the arguments the callback receives. */
    method FindRobotConnectionReply(rn: string, cn: string) returns (err: Value, c: Connection?)
      ensures err == ErrorOf(LookupConnection(robots, rn, cn))
      ensures c != null <==> LookupConnection(robots, rn, cn).Found?
      ensures c != null ==> c == LookupConnection(robots, rn, cn).entity
    {
      var robotErr, r := FindRobotReply(rn);
      if r == null {
        err, c := robotErr, null;
      } else if cn in r.connections.entries {
        err, c := Undefined, r.connections.entries[cn];
      } else {
        err, c := ErrorObject(NoConnectionMessage(cn)), null;
      }
    }

    /** `start`: starts the API, then every robot in registration order. */
    method Start(j: Journal)
      requires forall i :: 0 <= i < |robots| ==> robots[i].Valid()
      modifies j
      ensures j.events == old(j.events) + [Call(this, Op.Start), Call(this, Op.StartApi)] + Concat(old(StartTraces(robots)))
    {
      var rs := robots;
      ghost var ts := StartTraces(rs);
      ghost var head := [Call(this, Op.Start), Call(this, Op.StartApi)];
      j.Record(Call(this, Op.Start));
      j.Record(Call(this, Op.StartApi));
      var i := 0;
      while i < |rs|
        invariant 0 <= i <= |rs|
        invariant j.events == old(j.events) + head + Concat(ts[..i])
      {
        ghost var done := Concat(ts[..i]);
        rs[i].Start(j);
        FlatMapStep(ts, i, RunEvents);
        AppendAssoc(old(j.events) + head, done, ts[i]);
        i := i + 1;
      }
      assert ts[..i] == ts;
    }

    /** `halt`: halts every robot in registration order. */
    method Halt(j: Journal)
      requires forall i :: 0 <= i < |robots| ==> robots[i].Valid()
      modifies j
      ensures j.events == old(j.events) + [Call(this, Op.Halt)] + Concat(old(HaltTraces(robots)))
    {
      var rs := robots;
      ghost var ts := HaltTraces(rs);
      j.Record(Call(this, Op.Halt));
      var i := 0;
      while i < |rs|
        invariant 0 <= i <= |rs|
        invariant j.events == old(j.events) + [Call(this, Op.Halt)] + Concat(ts[..i])
      {
        ghost var done := Concat(ts[..i]);
        rs[i].Halt(j);
        FlatMapStep(ts, i, RunEvents);
        AppendAssoc(old(j.events) + [Call(this, Op.Halt)], done, ts[i]);
        i := i + 1;
      }
      assert ts[..i] == ts;
    }
  }
}
