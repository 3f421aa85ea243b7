/** The Driver base object and the Device it serves. A driver is built from
    its options, takes its connection from its device, exposes its command
    list, and on start runs the completion callback and then announces
    'start' on its device. The Device here is only the collaborator the
    driver and the robot need: its fields, its data record, and start and
    halt delegating to its driver. */
module Drivers {
  import opened JsValues
  import opened Effects
  import opened Connections

  /** The specification a robot builds a device from. */
  datatype DeviceOptions = DeviceOptions(name: string, driver: string, connection: Option<string>)

  /** The record a device's `data()` returns. */
  datatype DeviceData = DeviceData(
    name: string,
    driver: string,
    connection: Option<string>,
    commands: seq<string>)

  /** The options a driver is built from. `device` must be present: the
      constructor reads `device.connection`. */
  datatype DriverOptions = DriverOptions(name: Option<string>, device: Device)

  class Device {
    const name: string
    const driverName: string
    const robot: object?
    const connection: Connection?
    var driver: Driver?

    predicate Valid()
      reads this
    {
      driver != null && driver.device == this
    }

    constructor (opts: DeviceOptions, robot: object?, connection: Connection?)
      ensures Valid() && fresh(driver)
      ensures name == opts.name && driverName == opts.driver
      ensures this.robot == robot && this.connection == connection
      ensures driver.name == Some(opts.name) && driver.connection == connection
      ensures Commands() == []
    {
      name := opts.name;
      driverName := opts.driver;
      this.robot := robot;
      this.connection := connection;
      new;
      driver := new Driver(DriverOptions(Some(opts.name), this));
    }

    function Commands(): seq<string>
      reads this
      requires Valid()
    {
      driver.Commands()
    }

    function Data(): DeviceData
      reads this
      requires Valid()
    {
      DeviceData(name, driverName, if connection != null then connection.name else None, Commands())
    }

    method Start(j: Journal) returns (r: bool, log: seq<string>)
      requires Valid()
      modifies j
      ensures r
      ensures log == ["Driver " + Show(driver.name) + " started"]
      ensures j.events == old(j.events) + DeviceStartEvents(this)
    {
      j.Record(Call(this, Op.Start));
      r, log := driver.Start(j);
    }

    method Halt(j: Journal) returns (log: seq<string>)
      requires Valid()
      modifies j
      ensures log == ["Driver " + Show(driver.name) + " halted"]
      ensures j.events == old(j.events) + DeviceHaltEvents(this)
    {
      j.Record(Call(this, Op.Halt));
      log := driver.Halt();
    }
  }

  /** The effects of `d.start(callback)`: the call, the callback with null, then 'start' emitted on `d`. */
  function DeviceStartEvents(d: Device): seq<Event> {
    [Call(d, Op.Start), Callback(d, [Null]), Call(d, Op.Emit("start"))]
  }

  /** The effects of `d.halt()`. */
  function DeviceHaltEvents(d: Device): seq<Event> {
    [Call(d, Op.Halt)]
  }

  class Driver {
    const name: Option<string>
    const device: Device
    const connection: Connection?
    const commandList: seq<string>

    constructor (opts: DriverOptions)
      ensures name == opts.name && device == opts.device
      ensures connection == opts.device.connection
      ensures Commands() == []
    {
      name := opts.name;
      device := opts.device;
      connection := opts.device.connection;
      commandList := [];
    }

    /** The names of the commands this driver offers to its device. */
    function Commands(): seq<string> {
      commandList
    }

    /** Runs the callback with null, then emits 'start' on the device, and answers true. */
    method Start(j: Journal) returns (r: bool, log: seq<string>)
      modifies j
      ensures r
      ensures log == ["Driver " + Show(name) + " started"]
      ensures j.events == old(j.events) + [Callback(device, [Null]), Call(device, Op.Emit("start"))]
    {
      log := ["Driver " + Show(name) + " started"];
      j.Record(Callback(device, [Null]));
      j.Record(Call(device, Op.Emit("start")));
      r := true;
    }

    /** Only logs: nothing about the driver or anything else changes. */
    method Halt() returns (log: seq<string>)
      ensures log == ["Driver " + Show(name) + " halted"]
    {
      log := ["Driver " + Show(name) + " halted"];
    }
  }
}
