# Cylon core: the Master registry, robots, connections, drivers and the API request logic

This project models the core of Cylon, a JavaScript framework for robots. It
covers:

- the **Master**: the ordered list of registered robots, the API server
  configuration, and lookups of robots, devices and connections by name;
- the **Robot**: the aggregate of named connections and devices built from
  the robot's options, its data record, and the start and halt of its
  children;
- the **Connection** (the handle on one transport, delegating to its adaptor)
  and the **Driver** base object (with the Device it serves);
- the request logic of the **ApiServer**: how a command's positional
  parameters are drawn from a request, which origin the CORS header allows,
  and what each route answers.

Modules follow the program's structure:

| module | file | what it models |
|---|---|---|
| `JsValues` | `values.dfy` | JavaScript values and plain objects with ordered own keys (`o[k] = v` keeps a key's first position) |
| `Effects` | `effects.dfy` | the journal of observable calls and callbacks, in order |
| `Connections` | `connection.dfy` | `connection.js` |
| `Drivers` | `driver.dfy` | `driver.js`, and the Device it drives |
| `Robots` | `robot.dfy` | the robot behaviour `robot.spec.js` fixes |
| `Masters` | `master.dfy` | the Master behaviour `cylon.spec.js` fixes |
| `Api` | `api.dfy` | the pure request logic of `api.js` |

Objects the source updates in place are classes: `Robot`, `Master`,
`Connection`, `Driver` and `Device`. Their methods carry `modifies` clauses and
state their whole new state. The lifecycle operations take a `Journal`
(a `seq<Event>`) and append what they do: `Call(receiver, op)` for an
invocation, and `Callback(owner, args)` for a completion callback. The
operations of a single connection, driver or device return their log output
as log lines. The composite operations (a robot's and the Master's start and
halt) return none: they drop their children's log lines.

A few things the source gets from the environment are parameters here:

- `Math.random()` is a `draw: real` in `[0, 1)`;
- `Robot.randomName()` is a string parameter;
- the adaptors and drivers a robot knows are a `Registry` value;
- invoking a command by name, `e[command].apply(e, params)`, is an `invoke`
  function.

Where the code and its own comments disagree, the model follows the code:

- `Driver.prototype.start` is documented as emitting 'connect', but it emits
  'start' (`driver.js:46-56`).
- The error a failed lookup reports is `{error: message}`, as the tests fix
  it (`cylon.spec.js:145`, `191`, `252`). It is not `{message: ...}`.
- The robot message has no final period, while the device and connection
  messages do.

## Model

| member | source | states |
|---|---|---|
| `Connections.ConnectionId` | node_modules/cylon/lib/connection.js:37 | a null or undefined id is replaced by a random integer in 0..9999; any other id is kept as given |
| `Connections.DrawId` | node_modules/cylon/lib/connection.js:37 | `Math.floor(Math.random() * 10000)` lies in 0..9999 |
| `Connections.PortSuffix` | node_modules/cylon/lib/connection.js:71-73 | a log message gets " on port <port>" exactly when the connection has a port |
| `Connections.Connection.constructor` | node_modules/cylon/lib/connection.js:35-61 | robot, name and port are taken from the options; the id is the given one or a draw in 0..9999; the adaptor's commands are proxied; `data()` then reports that name, port and id, and as the adaptor its constructor's name, or its `name` when the constructor's name is empty |
| `Connections.Connection.Connect` | node_modules/cylon/lib/connection.js:68-77 | logs "Connecting to <name>[ on port <port>]", calls the adaptor's connect once and returns its result |
| `Connections.Connection.Disconnect` | node_modules/cylon/lib/connection.js:82-91 | logs "Disconnecting from <name>[ on port <port>]", calls the adaptor's disconnect once and returns its result |
| `Connections.Connection.Halt` | node_modules/cylon/lib/connection.js:107-116 | logs "Halting adaptor ...", then disconnects; returns the adaptor's disconnect result |
| `Connections.HaltDisconnectsOnce` | node_modules/cylon/lib/connection.js:107-116 | a halt reaches the adaptor exactly once, through disconnect, and never connects it |
| `Drivers.Driver.constructor` | node_modules/cylon/lib/driver.js:28-44 | name and device come from the options; the connection is the device's; `commands()` answers the command list, which starts empty |
| `Drivers.Driver.Start` | node_modules/cylon/lib/driver.js:52-57 | logs "Driver <name> started", runs the callback with null, then emits 'start' on the device, and returns true |
| `Drivers.Driver.Halt` | node_modules/cylon/lib/driver.js:62-64 | only logs "Driver <name> halted" |
| `Drivers.Device.Halt` | node_modules/cylon/lib/driver.js:62-64 | a device halt is one recorded call, and logs its driver's "Driver <name> halted" |
| `Drivers.Device.Start` | node_modules/cylon/lib/driver.js:52-57 | a device start runs its driver's start: the callback with null, then 'start' emitted on the device |
| `Robots.SingleSpecLikeArray` | node_modules/cylon/test/specs/robot.spec.js:115-146 | passing one spec object and passing an array holding it build the same children (`[].concat(specs)` iterates both alike) |
| `Robots.Robot.constructor` | node_modules/cylon/test/specs/robot.spec.js:19-75 | `robot.robot` is the robot itself; the name is the given one or the random name; work, master, the command list and the extra fields are taken from the options (the tests read `commands` back only through `data()`, robot.spec.js:93-95); with no specs, connections and devices are empty; otherwise each spec's child is built and stored under its name |
| `Robots.Robot.InitConnections` | node_modules/cylon/test/specs/robot.spec.js:108-148 | without specs nothing changes; otherwise one new connection per spec is built with that spec, stored under its name, the last spec of a name winning; other entries and the devices are unchanged; no connection sits under two names |
| `Robots.Robot.InitDevices` | node_modules/cylon/test/specs/robot.spec.js:150-190 | without specs nothing changes; otherwise one new device per spec is built with that spec and bound to the connection it names; the connections are unchanged; no device sits under two names |
| `Robots.Robot.Data` | node_modules/cylon/test/specs/robot.spec.js:77-106 | the robot's name and commands, and the `data()` of every device and of every connection, in key order |
| `Robots.Robot.ToString` | node_modules/cylon/test/specs/robot.spec.js:297-301 | "[Robot name='<name>']", from which the name can be read back |
| `Robots.Describe` | node_modules/cylon/test/specs/cylon.spec.js:29-35 | the description is the fixed prefix, the name, and the fixed suffix |
| `Robots.ToStringIdentifies` | node_modules/cylon/test/specs/robot.spec.js:297-301 | two robots with the same description have the same name |
| `Robots.Robot.StartConnections` | node_modules/cylon/test/specs/robot.spec.js:224-245 | `connect` runs on every connection, in key order |
| `Robots.Robot.StartDevices` | node_modules/cylon/test/specs/robot.spec.js:247-268 | `start` runs on every device, in key order |
| `Robots.Robot.Start` | node_modules/cylon/test/specs/robot.spec.js:192-222 | its effects are exactly: start the connections, start the devices, run the work when there is one, emit 'working' |
| `Robots.Robot.Halt` | node_modules/cylon/test/specs/robot.spec.js:270-295 | its effects are exactly: halt every device, then halt every connection |
| `Robots.StartConnectsEachConnectionOnce` | node_modules/cylon/test/specs/robot.spec.js:239-244 | every connection of a robot is connected exactly once by its start |
| `Robots.StartStartsEachDeviceOnce` | node_modules/cylon/test/specs/robot.spec.js:262-267 | every device of a robot is started exactly once by its start, and its completion callback runs exactly once |
| `Robots.StartWorksThenAnnounces` | node_modules/cylon/test/specs/robot.spec.js:215-221 | start runs the work once if there is one and never otherwise, and emits 'working' exactly once, as its last effect |
| `Robots.StartConnectsBeforeDevices` | node_modules/cylon/test/specs/robot.spec.js:192-222 | in a start, every connect comes before every device start, whether or not the robot has work |
| `Robots.StartDevicesBeforeWork` | node_modules/cylon/test/specs/robot.spec.js:192-222 | in a start, every device start comes before the work |
| `Robots.HaltHaltsEachDeviceOnce` | node_modules/cylon/test/specs/robot.spec.js:289-291 | halt halts every device of the robot exactly once, whatever connections it has |
| `Robots.HaltHaltsEachConnectionOnce` | node_modules/cylon/test/specs/robot.spec.js:292-294 | halt halts every connection of the robot exactly once and disconnects it exactly once, whatever devices it has |
| `Masters.Master.constructor` | node_modules/cylon/test/specs/cylon.spec.js:7-21 | no API instance; the API configuration listens on 127.0.0.1:3000; no robots |
| `Masters.Master.RegisterRobot` | node_modules/cylon/test/specs/cylon.spec.js:29-35 | a robot is built from the options, with its name, fields, and every connection and device built from the spec last given under its name, and appended as the last registered robot; the API configuration is unchanged |
| `Masters.RegisteredChildrenFound` | node_modules/cylon/test/specs/cylon.spec.js:166-286 | after a robot with a new name registers, each of its devices and connections is found under that robot's name, and any other child name gets the device or connection error |
| `Masters.Master.Api` | node_modules/cylon/test/specs/cylon.spec.js:38-123 | the configuration becomes the old one with the given fields merged in (`Merge`, whose properties the four rows below state), and is answered |
| `Masters.MergeNothing` | node_modules/cylon/test/specs/cylon.spec.js:56-61 | `api()` with no argument leaves the configuration as it is |
| `Masters.MergeOverwrites` | node_modules/cylon/test/specs/cylon.spec.js:63-122 | each field given to `api` (host, port, cert, key, auth, CORS) takes the given value |
| `Masters.MergeKeeps` | node_modules/cylon/test/specs/cylon.spec.js:63-91 | each field not given to `api` keeps its value |
| `Masters.MergeIdempotent` | node_modules/cylon/test/specs/cylon.spec.js:63-122 | giving the same fields twice changes nothing the second time |
| `Masters.ErrorObject` | node_modules/cylon/test/specs/cylon.spec.js:145 | the error is the truthy object whose only key is `error`, holding the message |
| `Masters.ErrorOf` | node_modules/cylon/test/specs/cylon.spec.js:132-148 | the callback's error argument is truthy exactly when the lookup failed, and is then the error object |
| `Masters.MessagesDiffer` | node_modules/cylon/test/specs/cylon.spec.js:187-203 | no robot message equals a device or connection message, and no device message equals a connection message |
| `Masters.LookupRobot` | node_modules/cylon/test/specs/cylon.spec.js:125-164 | a robot is found exactly when some registered robot has the name, and then it is one of them; otherwise the message is "No Robot found with the name <n>" |
| `Masters.LookupDevice` | node_modules/cylon/test/specs/cylon.spec.js:166-225 | with no robot of that name, the robot error; with the robot but no such device, "No device found with the name <d>."; a found device is the robot's device under that name |
| `Masters.LookupConnection` | node_modules/cylon/test/specs/cylon.spec.js:227-286 | as for devices, with "No connection found with the name <c>." |
| `Masters.LookupAfterRegister` | node_modules/cylon/test/specs/cylon.spec.js:125-164 | after a robot registers, its name is found, and found as that robot when the name was new; every other name is looked up as before |
| `Masters.Master.FindRobot` | node_modules/cylon/test/specs/cylon.spec.js:151-163 | the robot with the name, or null exactly when there is none |
| `Masters.Master.FindRobotReply` | node_modules/cylon/test/specs/cylon.spec.js:132-149 | the callback gets (undefined, robot) when the robot exists, and (the robot error, null) otherwise |
| `Masters.Master.FindRobotDevice` | node_modules/cylon/test/specs/cylon.spec.js:206-224 | the device, or null exactly when the robot or the device is missing |
| `Masters.Master.FindRobotDeviceReply` | node_modules/cylon/test/specs/cylon.spec.js:178-204 | the callback gets (undefined, device) on success and (robot or device error, null) otherwise |
| `Masters.Master.FindRobotConnection` | node_modules/cylon/test/specs/cylon.spec.js:267-285 | the connection, or null exactly when the robot or the connection is missing |
| `Masters.Master.FindRobotConnectionReply` | node_modules/cylon/test/specs/cylon.spec.js:239-265 | the callback gets (undefined, connection) on success and (robot or connection error, null) otherwise |
| `Masters.Master.Start` | node_modules/cylon/test/specs/cylon.spec.js:288-314 | starts the API, then runs every registered robot's start in registration order |
| `Masters.Master.Halt` | node_modules/cylon/test/specs/cylon.spec.js:316-332 | runs every registered robot's halt in registration order |
| `Masters.StartsEachRobotOnce` | node_modules/cylon/test/specs/cylon.spec.js:303-313 | starting the registry starts every registered robot exactly once |
| `Masters.StartsRobotsInOrder` | node_modules/cylon/test/specs/cylon.spec.js:303-313 | an earlier-registered robot starts before a later one |
| `Masters.HaltsEachRobotOnce` | node_modules/cylon/test/specs/cylon.spec.js:321-331 | halting the registry halts every registered robot exactly once |
| `Masters.HaltsRobotsInOrder` | node_modules/cylon/test/specs/cylon.spec.js:321-331 | an earlier-registered robot halts before a later one |
| `Api.Enumerated` | node_modules/cylon/lib/api.js:81 | `for...in` visits an object's keys in order, an array's indices, and nothing for null |
| `Api.CommandParams` | node_modules/cylon/lib/api.js:71-84 | the query's values in key order for a GET or a non-empty query; otherwise the body object's values, or the body array's items; otherwise (a null body, whose `typeof` is 'object', or a body that is no object) no params |
| `Api.ParamsIgnoreBody` | node_modules/cylon/lib/api.js:75-76 | once the query is chosen, the body plays no part |
| `Api.EmptyGetHasNoParams` | node_modules/cylon/lib/api.js:75-76 | a GET with an empty query has no params, whatever its body |
| `Api.ParamsSameForOtherVerbs` | node_modules/cylon/lib/api.js:75-79 | every method other than GET draws its params alike |
| `Api.ParamsOfAssignedQuery` | node_modules/cylon/lib/api.js:71-84 | for a query built by assigning distinct names, the params are the assigned values in assignment order |
| `Api.ApiServer.ParseCommandParams` | node_modules/cylon/lib/api.js:71-84 | the loop collects exactly `CommandParams(req)` |
| `Api.AllowOrigin` | node_modules/cylon/lib/api.js:93 | `Access-Control-Allow-Origin` is the configured origin unless it is missing or empty, and then `*`; it is never empty |
| `Api.AllowOriginOfConfig` | node_modules/cylon/lib/api.js:93 | a default configuration allows any origin; after `api({CORS: o})` with a non-empty `o`, only `o` |
| `Api.ApiServer.constructor` | node_modules/cylon/lib/api.js:21-31 | keeps the options; an empty host or port falls back to "127.0.0.1" and "3000" |
| `Api.ApiServer.Origin` | node_modules/cylon/lib/api.js:92-97 | every response allows the server's configured CORS origin, or `*` when none or an empty one is configured |
| `Api.ResultObject` | node_modules/cylon/lib/api.js:129 | the command reply is the object whose only key is `result` |
| `Api.ApiServer.RobotsRoute` | node_modules/cylon/lib/api.js:99-108 | GET /robots answers the `data()` of every registered robot, in registration order |
| `Api.ApiServer.RobotRoute` | node_modules/cylon/lib/api.js:110-120 | the robot lookup's error unchanged, or the robot's data, its commands (116-120), devices (133-137) or connections (198-202) |
| `Api.ApiServer.DeviceRoute` | node_modules/cylon/lib/api.js:139-146 | the device lookup's error unchanged, or the device's data, or its commands (174-181) |
| `Api.ApiServer.ConnectionRoute` | node_modules/cylon/lib/api.js:204-211 | the connection lookup's error unchanged, or the connection's data |
| `Api.ApiServer.RobotCommandRoute` | node_modules/cylon/lib/api.js:122-131 | on a lookup error, the error and nothing invoked; otherwise the command runs once on the robot with the parsed params, and its result is answered as `{result: r}` |
| `Api.ApiServer.DeviceCommandRoute` | node_modules/cylon/lib/api.js:183-196 | as the robot command route, on the device the lookup finds |

## Left out

- TLS, the HTTPS server, the express middleware, basic auth and `listen`
  (`api.js:33-66`) are I/O. They are not modelled.
- The event-stream route `/robots/:robot/devices/:device/events/:event`
  (`api.js:148-172`) subscribes to device events over a live response. It is
  left out. As written, that route does not return after answering an error.
- Api.ApiServer.RobotCommandRoute and Api.ApiServer.DeviceCommandRoute:
  the command's result is the `invoke` parameter's, so the TypeError for
  an unknown command name is not modelled.
- `Connections.Connection.constructor` and `Drivers.Driver.constructor` take
  options, as every caller gives them. With no options the source crashes
  (`connection.js:101` on the undefined robot, `driver.js:35` on the undefined
  device), and that crash is not modelled.
- The Device, the adaptors and the robot's own source (`robot.js`,
  `device.js`, `cylon.js`) are not part of this model. The Device and Adaptor
  classes are stand-ins with only what the driver, the connection and the
  robot use. A device spec without a connection name is bound to no
  connection; the default connection is not modelled.
- Robots.Robot.constructor: the adaptor and driver registries are a
  parameter, so the fixed key sets `loopback`/`test` and `ping`/`test`
  (`robot.spec.js:59-65`) are not stated.
- Connections.Connection.constructor: the source writes the drawn id back
  into the caller's options (`connection.js:37`), and the robot writes
  itself into them as `robot`. The model treats options as values. So a
  spec object given twice, in one robot or in two, draws a fresh id each
  time here, while in the source it keeps its first id, and `Math.random()`
  is not called again.
- Robots.Robot.constructor, Robots.Robot.InitConnections,
  Robots.Robot.InitDevices and Masters.Master.RegisterRobot require every
  spec to name an adaptor or driver the registry knows. A spec naming an
  unregistered one is excluded: there the source aborts with an error
  while loading the adaptor or driver (`connection.js:99-102`). The driver
  registry is used only by this requirement, since the base Driver is
  built for every device.
- A device spec's name is always given. A device spec without a name, which
  the source would store under the key "undefined", is not modelled.
- The singular and plural option keys (`connection`/`connections`,
  `device`/`devices`) are one field per kind. Which key wins when both are
  given is not modelled.
- Robots.Robot.Start, Robots.Robot.StartConnections, Robots.Robot.StartDevices and
  Connections.Connection.Connect: in the source, `start` moves to its next stage only when
  the previous stage calls back (`robot.spec.js:194-195` stubs both stages with `callsArg(0)`),
  and `connect` hands its callback to the adaptor (`connection.js:68-77`). The model assumes
  every stage completes at once and in sequence: connect, device start, work and the 'working'
  emit run back to back, and `Connect` takes no callback. A stage whose callback never fires,
  and any order that depends on when callbacks fire, are not modelled.
- Completion callbacks are modelled as journal events. The callback form of
  the lookups returns the pair of callback arguments.
- Logger output is returned as log lines by the connection, driver and
  device operations only. Robots.Robot.Start, Robots.Robot.Halt,
  Masters.Master.Start and Masters.Master.Halt drop the lines their children
  log and state only their effects. The debug line of `initAdaptor`
  (`connection.js:100`) is not modelled.
- Numbers are integers. `Math.random()` is a real draw in `[0, 1)`.
- `utils` (subclass, bind, proxyFunctionsToObject) and the `self`
  properties are not modelled. The proxied command names are a field of the
  connection.
- Masters.LookupRobot: when two registered robots share a name, the
  lookup promises only some robot with that name, not the first.
- JavaScript's enumeration of integer-like keys before other keys is not
  modelled. Keys keep insertion order.
- `Masters.Master.Start` records starting the API as one effect. The creation
  of the API server instance (`apiInstance`) behind it is not modelled.
- `Api.ApiServer.constructor` takes the Master as a parameter rather than
  reading `opts.master`.
