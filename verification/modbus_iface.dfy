/** The Modbus-side types shared by the adapter and the Modbus client
    (internal/interface/modbus/modbus.go and the RegMap structs). */
module ModbusIface {
  import opened Wrappers

  type uint16 = x: int | 0 <= x < 0x1_0000

  /** Which register to read for one metric and how to scale it:
      physical value = signed raw value / scale. */
  datatype RegisterParam = RegisterParam(addr: uint16, scale: real, holding: bool)

  /** The register map: one entry per metric. An address of 0 for power or
      energy means "not mapped". */
  datatype RegMap = RegMap(
    frequency: RegisterParam,
    voltage: RegisterParam,
    power: RegisterParam,
    energy: RegisterParam)

  /** ReadFloat's (float64, error) pair; `err == None` is Go's nil error. */
  datatype Reading = Reading(value: real, err: Option<string>)

  /** The modbus.Client interface as its callers see it. The device is
      modelled as the function `device`: its answer to the request numbered
      n (counting every request issued on this client) for a register, so
      the registers may change from one read to the next. Each ReadFloat is
      recorded in `requests` in the order it was issued. */
  class Client {
    const device: (nat, RegisterParam) -> Reading
    var requests: seq<RegisterParam>

    constructor (device: (nat, RegisterParam) -> Reading)
      ensures this.device == device && requests == []
    {
      this.device := device;
      requests := [];
    }

    method ReadFloat(param: RegisterParam) returns (v: real, err: Option<string>)
      modifies this
      ensures requests == old(requests) + [param]
      ensures Reading(v, err) == device(|old(requests)|, param)
    {
      var r := device(|requests|, param);
      v, err := r.value, r.err;
      requests := requests + [param];
    }
  }
}
