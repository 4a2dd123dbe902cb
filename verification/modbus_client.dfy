/** The Modbus client (internal/client/modbus/modbus_client.go): decoding of
    one 16-bit register into a physical value, and the validation of the
    Modbus settings read from the environment. */
module ModbusClient {
  import opened Wrappers
  import opened ModbusIface
  import opened Env
  import opened GoText

  /** The register bank a read goes to. */
  datatype Bank = Holding | Input

  /** One call of ReadHoldingRegisters or ReadInputRegisters. */
  datatype ReadRequest = ReadRequest(bank: Bank, address: uint16, quantity: uint16)

  /** The transport's (results []byte, err error) answer. */
  datatype Reply = Reply(results: seq<bv8>, err: Option<string>)

  /** The single request ReadFloat issues for `param`. */
  function Request(param: RegisterParam): (q: ReadRequest)
    ensures q.quantity == 1 && q.address == param.addr
    ensures q.bank == Holding <==> param.holding
  {
    ReadRequest(if param.holding then Holding else Input, param.addr, 1)
  }

  /** The register word of a reply, big-endian: the first byte is the high
      byte. */
  function Word(hi: bv8, lo: bv8): (w: uint16)
    ensures w / 256 == hi as int && w % 256 == lo as int
  {
    hi as int * 256 + lo as int
  }

  /** Word is what the source's uint16(res[0])<<8 | uint16(res[1]) computes. */
  lemma WordIsShiftOr(hi: bv8, lo: bv8)
    ensures ((hi as bv16 << 8) | (lo as bv16)) as int == Word(hi, lo)
  {
  }

  /** int16(w): the two's-complement reading of a 16-bit word, the unique
      value in the int16 range that is congruent to w modulo 2^16. */
  function Int16(w: uint16): (i: int)
    ensures -0x8000 <= i < 0x8000
    ensures (i - w) % 0x1_0000 == 0
  {
    if w < 0x8000 then w else w - 0x1_0000
  }

  /** The 16-bit word that holds the int16 value `i` (uint16(i) in Go). */
  function Uint16Of(i: int): (w: uint16)
    requires -0x8000 <= i < 0x8000
  {
    i % 0x1_0000
  }

  /** Int16 and Uint16Of are inverse bijections between words and the int16
      range. */
  lemma Int16RoundTrip(i: int, w: uint16)
    requires -0x8000 <= i < 0x8000
    ensures Int16(Uint16Of(i)) == i
    ensures Uint16Of(Int16(w)) == w
  {
  }

  /** Int16 loses nothing: distinct words give distinct values. */
  lemma Int16Injective(wa: uint16, wb: uint16)
    requires Int16(wa) == Int16(wb)
    ensures wa == wb
  {
  }

  /** ...so no two byte pairs decode to the same value. */
  lemma DecodeInjective(a0: bv8, a1: bv8, b0: bv8, b1: bv8)
    requires Int16(Word(a0, a1)) == Int16(Word(b0, b1))
    ensures a0 == b0 && a1 == b1
  {
    Int16Injective(Word(a0, a1), Word(b0, b1));
    var x0, x1, y0, y1 := a0 as int, a1 as int, b0 as int, b1 as int;
    assert x0 * 256 + x1 == y0 * 256 + y1;
    assert x0 == y0 && x1 == y1;
  }

  /** handler.ReadFloat: one read of one register from the bank `param`
      selects, through the transport `api`; a transport error is passed on,
      a reply of fewer than two bytes is a "short response", and otherwise
      the first two bytes are the big-endian signed raw value, divided by the
      scale. On an error the value is 0. */
  function ReadFloat(api: ReadRequest -> Reply, param: RegisterParam): (r: Reading)
    requires param.scale != 0.0
    ensures var reply := api(Request(param));
      && (reply.err.Some? ==> r == Reading(0.0, reply.err))
      && (reply.err.None? && |reply.results| < 2 ==> r == Reading(0.0, Some("short response")))
      && (reply.err.None? && |reply.results| >= 2 ==>
            r == Reading(Int16(Word(reply.results[0], reply.results[1])) as real / param.scale, None))
  {
    var reply := api(Request(param));
    if reply.err.Some? then Reading(0.0, reply.err)
    else if |reply.results| < 2 then Reading(0.0, Some("short response"))
    else Reading(Int16(Word(reply.results[0], reply.results[1])) as real / param.scale, None)
  }

  /** Only the first two bytes of a reply matter. */
  lemma ReadFloatIgnoresTrailingBytes(api: ReadRequest -> Reply, api': ReadRequest -> Reply, param: RegisterParam)
    requires param.scale != 0.0
    requires api(Request(param)).err.None? && api'(Request(param)).err.None?
    requires |api(Request(param)).results| >= 2
    requires api'(Request(param)).results == api(Request(param)).results[..2]
    ensures ReadFloat(api', param) == ReadFloat(api, param)
  {
  }

  /** The int16 boundaries: 0x7FFF is the largest value, 0x8000 the
      smallest, 0xFFFF is -1. */
  lemma Int16Boundaries()
    ensures Int16(Word(0x7F, 0xFF)) == 32767
    ensures Int16(Word(0x80, 0x00)) == -32768
    ensures Int16(Word(0xFF, 0xFF)) == -1
  {
  }

  /** The settings of internal/client/modbus/modbus_client.go's EnvCfg (the
      adapter's envCfg has the same fields). */
  datatype EnvCfg = EnvCfg(
    mqttUrl: string, deviceId: string, model: string, area: string,
    mode: string,
    port: string, baud: int, dataBits: int, parity: string, stopBits: int, slaveId: int, timeoutMs: int,
    tcpAddr: string,
    intervalSec: int,
    mapCfg: RegMap)

  const ZeroParam: RegisterParam := RegisterParam(0, 0.0, false)
  const ZeroMap: RegMap := RegMap(ZeroParam, ZeroParam, ZeroParam, ZeroParam)
  /** Go's zero value of EnvCfg. */
  const ZeroCfg: EnvCfg := EnvCfg("", "", "", "", "", "", 0, 0, "", 0, 0, 0, "", 0, ZeroMap)

  /** The errors LoadEnvCfg returns, with their texts. */
  datatype ConfigError = BadMode | MissingTcpAddr | MissingPort {
    function Text(): string {
      match this
      case BadMode => "MODBUS_MODE must be 'rtu' or 'tcp'"
      case MissingTcpAddr => "missing MODBUS_TCP_ADDR for tcp mode"
      case MissingPort => "missing MODBUS_PORT for rtu mode"
    }
  }

  /** LoadEnvCfg: fills the settings field by field and stops at the first
      problem, returning what it has filled so far. The numeric settings
      discard strconv.Atoi's error, so they take whatever value Atoi returns
      with it. */
  method LoadEnvCfg(env: Environment) returns (c: EnvCfg, err: Option<ConfigError>)
    ensures c.mode == ToLower(Getenv(env, "MODBUS_MODE"))
    ensures c.mqttUrl == "" && c.mapCfg == ZeroMap
    ensures c.mode != "rtu" && c.mode != "tcp" ==>
      err == Some(BadMode) && c == ZeroCfg.(mode := c.mode)
    ensures c.mode == "tcp" ==>
      && c.tcpAddr == Getenv(env, "MODBUS_TCP_ADDR")
      && c.port == "" && c.baud == 0 && c.dataBits == 0 && c.parity == ""
      && c.stopBits == 0 && c.slaveId == 0 && c.timeoutMs == 0
    ensures c.mode == "tcp" && c.tcpAddr == "" ==>
      err == Some(MissingTcpAddr) && c == ZeroCfg.(mode := "tcp")
    ensures c.mode == "rtu" ==> c.port == Getenv(env, "MODBUS_PORT") && c.tcpAddr == ""
    ensures c.mode == "rtu" && c.port == "" ==>
      err == Some(MissingPort) && c == ZeroCfg.(mode := "rtu")
    ensures err.None? <==> (c.mode == "tcp" && c.tcpAddr != "") || (c.mode == "rtu" && c.port != "")
    ensures err.None? && c.mode == "rtu" ==>
      && c.baud == Atoi(GetDefault(env, "MODBUS_BAUD", "9600")).value
      && c.dataBits == Atoi(GetDefault(env, "MODBUS_DATABITS", "8")).value
      && c.parity == GetDefault(env, "MODBUS_PARITY", "N")
      && c.stopBits == Atoi(GetDefault(env, "MODBUS_STOPBITS", "1")).value
      && c.slaveId == Atoi(GetDefault(env, "MODBUS_SLAVE_ID", "1")).value
      && c.timeoutMs == Atoi(GetDefault(env, "MODBUS_TIMEOUT_MS", "500")).value
    ensures err.None? ==>
      && c.intervalSec == Atoi(GetDefault(env, "INTERVAL_SEC", "1")).value
      && c.deviceId == GetDefault(env, "DEVICE_ID", "unknown")
      && c.model == GetDefault(env, "MODEL", "unknown")
      && c.area == GetDefault(env, "AREA", "lab")
    ensures err.Some? ==> c.intervalSec == 0 && c.deviceId == "" && c.model == "" && c.area == ""
  {
    c := ZeroCfg;
    c := c.(mode := ToLower(Getenv(env, "MODBUS_MODE")));
    if c.mode != "rtu" && c.mode != "tcp" {
      return c, Some(BadMode);
    }

    if c.mode == "tcp" {
      c := c.(tcpAddr := Getenv(env, "MODBUS_TCP_ADDR"));
      if c.tcpAddr == "" {
        return c, Some(MissingTcpAddr);
      }
    } else {
      c := c.(port := Getenv(env, "MODBUS_PORT"));
      if c.port == "" {
        return c, Some(MissingPort);
      }
      c := c.(baud := Atoi(GetDefault(env, "MODBUS_BAUD", "9600")).value);
      c := c.(dataBits := Atoi(GetDefault(env, "MODBUS_DATABITS", "8")).value);
      c := c.(parity := GetDefault(env, "MODBUS_PARITY", "N"));
      c := c.(stopBits := Atoi(GetDefault(env, "MODBUS_STOPBITS", "1")).value);
      c := c.(slaveId := Atoi(GetDefault(env, "MODBUS_SLAVE_ID", "1")).value);
      c := c.(timeoutMs := Atoi(GetDefault(env, "MODBUS_TIMEOUT_MS", "500")).value);
    }

    c := c.(intervalSec := Atoi(GetDefault(env, "INTERVAL_SEC", "1")).value);
    c := c.(deviceId := GetDefault(env, "DEVICE_ID", "unknown"));
    c := c.(model := GetDefault(env, "MODEL", "unknown"));
    c := c.(area := GetDefault(env, "AREA", "lab"));
    err := None;
  }

  /** A mode is accepted in any letter case, and nothing else is. */
  lemma ModeCaseInsensitive(env: Environment)
    ensures Getenv(env, "MODBUS_MODE") in {"TCP", "Tcp", "tCp", "tcP", "TCp", "TcP", "tCP", "tcp"} ==>
      ToLower(Getenv(env, "MODBUS_MODE")) == "tcp"
    ensures Getenv(env, "MODBUS_MODE") == "" ==> ToLower(Getenv(env, "MODBUS_MODE")) !in {"rtu", "tcp"}
  {
  }
}
