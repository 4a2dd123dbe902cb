/** The Modbus adapter (cmd/adapter-modbus/main.go): its settings, the
    state events of one polling tick, and the handler that reads the
    registers and publishes them. */
module Adapter {
  import opened Wrappers
  import opened Json
  import opened Env
  import opened GoText
  import opened ModbusIface
  import opened MqttIface
  import opened Rounding
  import opened Announcement
  import opened ModbusClient
  import opened Seqs

  const CapFrequency: string := "sensor.frequency"
  const CapVoltage: string := "sensor.voltage"
  const CapEnergyMeter: string := "energy.meter"

  /** The capabilities the adapter announces, in this order. */
  const AdapterCaps: seq<string> := [CapFrequency, CapVoltage, CapEnergyMeter]

  /** A normalised reading (SensorState); None is nil. */
  datatype SensorState = SensorState(
    ts: int, cap: string, unit: string,
    value: Option<real>, powerW: Option<real>, energyKwh: Option<real>)

  /** Sets `key` to the number when it is not nil (omitempty). */
  function SetNum(o: map<string, Json>, key: string, v: Option<real>): (r: map<string, Json>)
    ensures v.Some? ==> r == o[key := JNum(v.value)]
    ensures v.None? ==> r == o
  {
    if v.Some? then o[key := JNum(v.value)] else o
  }

  /** json.Marshal of a SensorState (the fields it writes are stated by
      EncodeStateFields). */
  function EncodeState(s: SensorState): (o: map<string, Json>)
    ensures Encodable(JObj(o))
  {
    var base := map["ts" := JNum(s.ts as real), "cap" := JStr(s.cap)];
    var withUnit := if s.unit != "" then base["unit" := JStr(s.unit)] else base;
    SetNum(SetNum(SetNum(withUnit, "value", s.value), "power_w", s.powerW), "energy_kwh", s.energyKwh)
  }

  /** The encoding has ts and cap always, unit when it is not empty, value /
      power_w / energy_kwh when they are not nil, and nothing else. */
  lemma EncodeStateFields(s: SensorState)
    ensures var o := EncodeState(s);
      && "ts" in o && "cap" in o && o["ts"] == JNum(s.ts as real) && o["cap"] == JStr(s.cap)
      && ("unit" in o <==> s.unit != "") && (s.unit != "" ==> o["unit"] == JStr(s.unit))
      && ("value" in o <==> s.value.Some?) && (s.value.Some? ==> o["value"] == JNum(s.value.value))
      && ("power_w" in o <==> s.powerW.Some?) && (s.powerW.Some? ==> o["power_w"] == JNum(s.powerW.value))
      && ("energy_kwh" in o <==> s.energyKwh.Some?)
      && (s.energyKwh.Some? ==> o["energy_kwh"] == JNum(s.energyKwh.value))
      && o.Keys <= {"ts", "cap", "unit", "value", "power_w", "energy_kwh"}
  {
  }

  /** Different states never share a payload: nothing is lost in encoding. */
  lemma EncodeStateInjective(a: SensorState, b: SensorState)
    requires EncodeState(a) == EncodeState(b)
    ensures a == b
  {
    EncodeStateFields(a);
    EncodeStateFields(b);
    var o := EncodeState(a);
    assert JNum(a.ts as real) == o["ts"] == JNum(b.ts as real);
  }

  // ---------------------------------------------------------------------
  // One tick, as a specification over the readings the device returned
  // and the rounding rule.

  /** The four readings a tick works from; `power` and `energy` matter
      only when that register is mapped (otherwise it is not read). */
  datatype TickReads = TickReads(frequency: Reading, voltage: Reading, power: Reading, energy: Reading)

  /** The readings of a tick whose first request is number k: the
      frequency answers request k, the voltage k + 1, the power (when
      mapped) k + 2, and the energy (when mapped) the request after that. */
  function TickReadsAt(device: (nat, RegisterParam) -> Reading, k: nat, m: RegMap): TickReads {
    var e := if m.power.addr != 0 then k + 3 else k + 2;
    TickReads(device(k, m.frequency), device(k + 1, m.voltage), device(k + 2, m.power), device(e, m.energy))
  }

  /** The event of a metric that is always read (frequency, voltage):
      present iff the read succeeds, with the value rounded to `prec`. */
  function RequiredStates(rule: Rule, r: Reading, now: int, cap: string, unit: string, prec: int)
    : seq<SensorState>
  {
    if r.err.None? then [SensorState(now, cap, unit, Some(Rounded(rule, r.value, prec)), None, None)]
    else []
  }

  function FrequencyStates(rule: Rule, rs: TickReads, now: int): seq<SensorState> {
    RequiredStates(rule, rs.frequency, now, CapFrequency, "Hz", 2)
  }

  function VoltageStates(rule: Rule, rs: TickReads, now: int): seq<SensorState> {
    RequiredStates(rule, rs.voltage, now, CapVoltage, "V", 1)
  }

  /** An optional metric: read only when mapped (address not 0), and kept
      only when the read succeeds. */
  function OptionalValue(rule: Rule, p: RegisterParam, r: Reading, prec: int): Option<real> {
    if p.addr != 0 && r.err.None? then Some(Rounded(rule, r.value, prec)) else None
  }

  /** The merged energy.meter event: present iff an optional read succeeds. */
  function EnergyStates(rule: Rule, m: RegMap, power: Reading, energy: Reading, now: int)
    : seq<SensorState>
  {
    var pw, ek := OptionalValue(rule, m.power, power, 1), OptionalValue(rule, m.energy, energy, 6);
    if pw.Some? || ek.Some? then [SensorState(now, CapEnergyMeter, "", None, pw, ek)] else []
  }

  /** Position of a capability in the tick's publishing order. */
  function CapRank(cap: string): nat {
    if cap == CapFrequency then 0 else if cap == CapVoltage then 1 else 2
  }

  /** The events of one tick (TickShape says what they look like). */
  function TickStates(rule: Rule, m: RegMap, rs: TickReads, now: int): seq<SensorState> {
    FrequencyStates(rule, rs, now) + VoltageStates(rule, rs, now)
      + EnergyStates(rule, m, rs.power, rs.energy, now)
  }

  /** A tick emits at most three events, all stamped with the one clock
      reading, in the order frequency, voltage, energy.meter. */
  lemma TickShape(rule: Rule, m: RegMap, rs: TickReads, now: int)
    ensures var s := TickStates(rule, m, rs, now);
      && |s| <= 3
      && (forall i | 0 <= i < |s| :: s[i].ts == now)
      && (forall i, j | 0 <= i < j < |s| :: CapRank(s[i].cap) < CapRank(s[j].cap))
  {
  }

  /** The registers one tick reads, in order. */
  function TickRequests(m: RegMap): (q: seq<RegisterParam>)
    ensures 2 <= |q| && q[0] == m.frequency && q[1] == m.voltage
    ensures |q| == 2 + (if m.power.addr != 0 then 1 else 0) + (if m.energy.addr != 0 then 1 else 0)
    ensures forall i | 2 <= i < |q| :: q[i].addr != 0 && (q[i] == m.power || q[i] == m.energy)
  {
    [m.frequency, m.voltage]
      + (if m.power.addr != 0 then [m.power] else [])
      + (if m.energy.addr != 0 then [m.energy] else [])
  }

  /** The events of `s` with capability `cap`, in order. */
  function WithCap(s: seq<SensorState>, cap: string): (r: seq<SensorState>)
    ensures |r| <= |s|
    ensures forall i | 0 <= i < |r| :: r[i].cap == cap && r[i] in s
  {
    if s == [] then [] else (if s[0].cap == cap then [s[0]] else []) + WithCap(s[1..], cap)
  }

  lemma {:induction false} WithCapAppend(a: seq<SensorState>, b: seq<SensorState>, cap: string)
    ensures WithCap(a + b, cap) == WithCap(a, cap) + WithCap(b, cap)
  {
    if a == [] {
      assert a + b == b;
    } else {
      assert (a + b)[0] == a[0];
      assert (a + b)[1..] == a[1..] + b;
      WithCapAppend(a[1..], b, cap);
      var h := if a[0].cap == cap then [a[0]] else [];
      AppendAssoc(h, WithCap(a[1..], cap), WithCap(b, cap));
    }
  }

  lemma SplitTick(rule: Rule, m: RegMap, rs: TickReads, now: int, cap: string)
    ensures WithCap(TickStates(rule, m, rs, now), cap) ==
      WithCap(FrequencyStates(rule, rs, now), cap) + WithCap(VoltageStates(rule, rs, now), cap)
        + WithCap(EnergyStates(rule, m, rs.power, rs.energy, now), cap)
  {
    var f, v := FrequencyStates(rule, rs, now), VoltageStates(rule, rs, now);
    var e := EnergyStates(rule, m, rs.power, rs.energy, now);
    WithCapAppend(f + v, e, cap);
    WithCapAppend(f, v, cap);
  }

  lemma RequiredWithCap(rule: Rule, r: Reading, now: int, cap: string, unit: string, prec: int, c: string)
    ensures var s := RequiredStates(rule, r, now, cap, unit, prec);
      WithCap(s, c) == if cap == c then s else []
  {
    var s := RequiredStates(rule, r, now, cap, unit, prec);
    if s != [] {
      assert s[1..] == [];
    }
  }

  lemma EnergyWithCap(rule: Rule, m: RegMap, power: Reading, energy: Reading, now: int, c: string)
    ensures var s := EnergyStates(rule, m, power, energy, now);
      WithCap(s, c) == if c == CapEnergyMeter then s else []
  {
    var s := EnergyStates(rule, m, power, energy, now);
    if s != [] {
      assert s[1..] == [];
    }
  }

  /** A tick emits one frequency event, Hz at two decimals, iff the
      frequency read succeeds. */
  lemma TickFrequency(rule: Rule, m: RegMap, rs: TickReads, now: int)
    ensures var r := rs.frequency;
      WithCap(TickStates(rule, m, rs, now), CapFrequency) ==
        if r.err.None? then [SensorState(now, CapFrequency, "Hz", Some(Rounded(rule, r.value, 2)), None, None)]
        else []
  {
    SplitTick(rule, m, rs, now, CapFrequency);
    assert CapVoltage[7] != CapFrequency[7] && CapEnergyMeter[0] != CapFrequency[0];
    RequiredWithCap(rule, rs.frequency, now, CapFrequency, "Hz", 2, CapFrequency);
    RequiredWithCap(rule, rs.voltage, now, CapVoltage, "V", 1, CapFrequency);
    EnergyWithCap(rule, m, rs.power, rs.energy, now, CapFrequency);
  }

  /** A tick emits one voltage event, V at one decimal, iff the voltage
      read succeeds. */
  lemma TickVoltage(rule: Rule, m: RegMap, rs: TickReads, now: int)
    ensures var r := rs.voltage;
      WithCap(TickStates(rule, m, rs, now), CapVoltage) ==
        if r.err.None? then [SensorState(now, CapVoltage, "V", Some(Rounded(rule, r.value, 1)), None, None)]
        else []
  {
    SplitTick(rule, m, rs, now, CapVoltage);
    assert CapVoltage[7] != CapFrequency[7] && CapEnergyMeter[0] != CapVoltage[0];
    RequiredWithCap(rule, rs.frequency, now, CapFrequency, "Hz", 2, CapVoltage);
    RequiredWithCap(rule, rs.voltage, now, CapVoltage, "V", 1, CapVoltage);
    EnergyWithCap(rule, m, rs.power, rs.energy, now, CapVoltage);
  }

  /** A tick emits at most one energy.meter event, and one iff a mapped
      optional register reads successfully; it carries power_w iff the power
      read succeeded, energy_kwh iff the energy read did, and never a unit
      or a value. */
  lemma TickEnergy(rule: Rule, m: RegMap, rs: TickReads, now: int)
    ensures var e := WithCap(TickStates(rule, m, rs, now), CapEnergyMeter);
      var powerOk := m.power.addr != 0 && rs.power.err.None?;
      var energyOk := m.energy.addr != 0 && rs.energy.err.None?;
      && |e| <= 1
      && (|e| == 1 <==> powerOk || energyOk)
      && forall x | x in e ::
        && x.ts == now && x.unit == "" && x.value.None?
        && (x.powerW.Some? <==> powerOk) && (x.energyKwh.Some? <==> energyOk)
        && (powerOk ==> x.powerW.value == Rounded(rule, rs.power.value, 1))
        && (energyOk ==> x.energyKwh.value == Rounded(rule, rs.energy.value, 6))
  {
    SplitTick(rule, m, rs, now, CapEnergyMeter);
    var f, v := FrequencyStates(rule, rs, now), VoltageStates(rule, rs, now);
    var e := EnergyStates(rule, m, rs.power, rs.energy, now);
    assert CapFrequency[0] != CapEnergyMeter[0] && CapVoltage[0] != CapEnergyMeter[0];
    assert WithCap(f, CapEnergyMeter) == [];
    assert WithCap(v, CapEnergyMeter) == [];
    assert WithCap(e, CapEnergyMeter) == e;
    var pw, ek := OptionalValue(rule, m.power, rs.power, 1), OptionalValue(rule, m.energy, rs.energy, 6);
    assert e == if pw.Some? || ek.Some? then [SensorState(now, CapEnergyMeter, "", None, pw, ek)] else [];
  }

  /** With neither optional register mapped, a tick reads two registers
      and never emits an energy.meter event. */
  lemma TickWithoutOptionalRegisters(rule: Rule, m: RegMap, rs: TickReads, now: int)
    requires m.power.addr == 0 && m.energy.addr == 0
    ensures WithCap(TickStates(rule, m, rs, now), CapEnergyMeter) == []
    ensures TickRequests(m) == [m.frequency, m.voltage]
    ensures |TickStates(rule, m, rs, now)| <= 2
  {
    SplitTick(rule, m, rs, now, CapEnergyMeter);
    var f, v := FrequencyStates(rule, rs, now), VoltageStates(rule, rs, now);
    assert EnergyStates(rule, m, rs.power, rs.energy, now) == [];
    assert CapFrequency[0] != CapEnergyMeter[0] && CapVoltage[0] != CapEnergyMeter[0];
    assert WithCap(f, CapEnergyMeter) == [];
    assert WithCap(v, CapEnergyMeter) == [];
  }

  /** While no reading is negative, the tick `round` produces is the one
      rounding half away from zero produces. */
  lemma TickNonNegativeAgrees(m: RegMap, rs: TickReads, now: int)
    requires rs.frequency.value >= 0.0 && rs.voltage.value >= 0.0
    requires rs.power.value >= 0.0 && rs.energy.value >= 0.0
    ensures TickStates(AsWritten, m, rs, now) == TickStates(HalfAway, m, rs, now)
  {
    RoundHalfAwayAgrees(rs.frequency.value, 2);
    RoundHalfAwayAgrees(rs.voltage.value, 1);
    RoundHalfAwayAgrees(rs.power.value, 1);
    RoundHalfAwayAgrees(rs.energy.value, 6);
  }

  /** A meter exporting 800 W (power register -800 at scale 1) is
      published by `round` as power_w -799.9, where half away from zero
      gives -800. */
  lemma TickNegativePower(m: RegMap, rs: TickReads, now: int)
    requires m.power.addr != 0 && rs.power == Reading(-800.0, None)
    ensures var e := WithCap(TickStates(AsWritten, m, rs, now), CapEnergyMeter);
      |e| == 1 && e[0].powerW == Some(-799.9)
    ensures var e := WithCap(TickStates(HalfAway, m, rs, now), CapEnergyMeter);
      |e| == 1 && e[0].powerW == Some(-800.0)
  {
    TickEnergy(AsWritten, m, rs, now);
    TickEnergy(HalfAway, m, rs, now);
    RoundTruncNegative();
    RoundHalfAwayOdd(800.0, 1);
    RoundHalfAwayAgrees(800.0, 1);
    assert Scale(1) == 10.0 && Trunc(8000.5) == 8000;
    SnapDef(800.0, 10.0, 0.5);
  }

  // ---------------------------------------------------------------------
  // Messages.

  /** publishEvent's topic: "smh/" + device id + path. */
  function Topic(deviceId: string, path: string): string {
    "smh/" + deviceId + path
  }

  function StateMessage(deviceId: string, s: SensorState): Message {
    Message(Topic(deviceId, "/state"), EncodeState(s), 1, false)
  }

  /** The publications of a sequence of states, one each, in order. */
  function StateMessages(deviceId: string, states: seq<SensorState>): (ms: seq<Message>)
    ensures |ms| == |states|
    ensures forall i | 0 <= i < |ms| :: ms[i] == StateMessage(deviceId, states[i])
  {
    seq(|states|, i requires 0 <= i < |states| => StateMessage(deviceId, states[i]))
  }

  lemma StateMessagesAppend(deviceId: string, a: seq<SensorState>, b: seq<SensorState>)
    ensures StateMessages(deviceId, a + b) == StateMessages(deviceId, a) + StateMessages(deviceId, b)
  {
  }

  /** The meta the adapter announces for its settings. */
  function AdapterMeta(cfg: EnvCfg): (m: Meta)
    ensures m.caps == [CapFrequency, CapVoltage, CapEnergyMeter]
  {
    Meta(cfg.deviceId, cfg.model, cfg.area, AdapterCaps)
  }

  function MetaMessage(cfg: EnvCfg): Message {
    Message(Topic(cfg.deviceId, "/meta"), EncodeMeta(AdapterMeta(cfg)), 1, false)
  }

  /** The state publications of a run whose ticker fired at `ticks`, on a
      client that had issued `start` requests before it: each tick reads
      the device's answers to the requests that follow the earlier ticks'. */
  function Polls(cfg: EnvCfg, device: (nat, RegisterParam) -> Reading, start: nat, ticks: seq<int>)
    : seq<Message>
  {
    if ticks == [] then []
    else
      var n := |ticks| - 1;
      Polls(cfg, device, start, ticks[..n]) + TickMessages(cfg, device, TickStart(cfg.mapCfg, start, n), ticks[n])
  }

  /** The number of the first request of tick i (counting from 0), on a
      client that had issued `start` requests before the first tick. */
  function TickStart(m: RegMap, start: nat, i: nat): nat {
    start + i * |TickRequests(m)|
  }

  /** The publications of one tick at clock reading `now` whose first
      request is number k. */
  function TickMessages(cfg: EnvCfg, device: (nat, RegisterParam) -> Reading, k: nat, now: int): seq<Message> {
    StateMessages(cfg.deviceId, TickStates(AsWritten, cfg.mapCfg, TickReadsAt(device, k, cfg.mapCfg), now))
  }

  /** One more tick appends that tick's state events. */
  lemma PollsSnoc(cfg: EnvCfg, device: (nat, RegisterParam) -> Reading, start: nat, ticks: seq<int>, t: nat)
    requires t < |ticks|
    ensures Polls(cfg, device, start, ticks[..t + 1])
      == Polls(cfg, device, start, ticks[..t]) + TickMessages(cfg, device, TickStart(cfg.mapCfg, start, t), ticks[t])
  {
    var s := ticks[..t + 1];
    assert |s| - 1 == t && s[..t] == ticks[..t] && s[t] == ticks[t];
  }

  /** The register reads of n ticks. */
  function PollRequests(m: RegMap, n: nat): seq<RegisterParam> {
    if n == 0 then [] else PollRequests(m, n - 1) + TickRequests(m)
  }

  /** Every tick issues the same number of reads, so the requests of the
      first i ticks end where tick i starts. */
  lemma {:induction false} PollRequestsLength(m: RegMap, n: nat)
    ensures |PollRequests(m, n)| == n * |TickRequests(m)|
  {
    if n > 0 {
      PollRequestsLength(m, n - 1);
    }
  }

  /** Every publication of the ticks goes to the state topic with QoS 1,
      not retained, and none of them to the meta topic: the meta is
      announced once per run. */
  lemma {:induction false} PollsAreStateMessages(cfg: EnvCfg, device: (nat, RegisterParam) -> Reading,
                                                 start: nat, ticks: seq<int>)
    ensures forall msg | msg in Polls(cfg, device, start, ticks) ::
      msg.topic == Topic(cfg.deviceId, "/state") && msg.qos == 1 && !msg.retain
    ensures MetaMessage(cfg) !in Polls(cfg, device, start, ticks)
  {
    if ticks != [] {
      PollsAreStateMessages(cfg, device, start, ticks[..|ticks| - 1]);
    }
    var state, meta := Topic(cfg.deviceId, "/state"), Topic(cfg.deviceId, "/meta");
    assert state[|state| - 1] == 'e' && meta[|meta| - 1] == 'a';
  }

  // ---------------------------------------------------------------------
  // The ticker.

  /** A Go int64 result: x reduced into [MinInt64, MaxInt64] modulo 2^64. */
  function WrapInt64(x: int): (r: int)
    ensures MinInt64 <= r <= MaxInt64
    ensures (r - x) % 0x1_0000_0000_0000_0000 == 0
    ensures MinInt64 <= x <= MaxInt64 ==> r == x
  {
    (x + 0x8000_0000_0000_0000) % 0x1_0000_0000_0000_0000 - 0x8000_0000_0000_0000
  }

  /** The ticker's period in nanoseconds, time.Duration(IntervalSec) *
      time.Second; time.NewTicker panics when it is not positive. */
  function TickerPeriod(sec: int): int {
    WrapInt64(sec * 1_000_000_000)
  }

  /** An interval of up to 9223372036 seconds either way gives a period
      that is not positive exactly when the interval is not; one second more
      wraps the product past MaxInt64 into a negative period. */
  lemma TickerPeriodSign(sec: int)
    ensures -9223372036 <= sec <= 9223372036 ==> (TickerPeriod(sec) <= 0 <==> sec <= 0)
    ensures TickerPeriod(9223372037) < 0
  {
    assert 9223372037 * 1_000_000_000 - 0x1_0000_0000_0000_0000 == -9223372036709551616;
  }

  // ---------------------------------------------------------------------
  // Settings.

  /** The adapter's built-in CW100-like register map. */
  const DefaultRegMap: RegMap := RegMap(
    RegisterParam(0x2000, 100.0, true),
    RegisterParam(0x2001, 10.0, true),
    RegisterParam(0x2003, 1.0, true),
    RegisterParam(0x2004, 100.0, true))

  /** loadEnv's `atoi`: the parsed value, or the default when
      strconv.Atoi reports an error. */
  function AtoiOr(s: string, def: int): (r: int)
    ensures Atoi(s).err == Nil ==> r == Atoi(s).value
    ensures Atoi(s).err != Nil ==> r == def
  {
    var p := Atoi(s);
    if p.err == Nil then p.value else def
  }

  /** The register map after the optional MODBUS_MAP_JSON override;
      `parseMap` stands for json.Unmarshal into a RegMap (None: an error). */
  function MapSetting(env: Environment, parseMap: string -> Option<RegMap>): RegMap {
    var js := Getenv(env, "MODBUS_MAP_JSON");
    if js != "" && parseMap(js).Some? then parseMap(js).value else DefaultRegMap
  }

  /** The settings loadEnv produces. */
  function Settings(env: Environment, parseMap: string -> Option<RegMap>): EnvCfg {
    EnvCfg(
      mqttUrl := GetDefault(env, "MQTT_URL", "tcp://mqtt:1883"),
      deviceId := GetDefault(env, "DEVICE_ID", "cw100.inverter"),
      model := GetDefault(env, "MODEL", "CW100"),
      area := GetDefault(env, "AREA", "lab"),
      mode := ToLower(GetDefault(env, "MODBUS_MODE", "rtu")),
      port := GetDefault(env, "MODBUS_PORT", "/dev/ttyUSB0"),
      baud := AtoiOr(GetDefault(env, "MODBUS_BAUD", "9600"), 9600),
      dataBits := AtoiOr(GetDefault(env, "MODBUS_DATABITS", "8"), 8),
      parity := ToUpper(GetDefault(env, "MODBUS_PARITY", "N")),
      stopBits := AtoiOr(GetDefault(env, "MODBUS_STOPBITS", "1"), 1),
      slaveId := AtoiOr(GetDefault(env, "MODBUS_SLAVE_ID", "1"), 1),
      timeoutMs := AtoiOr(GetDefault(env, "MODBUS_TIMEOUT_MS", "500"), 500),
      tcpAddr := GetDefault(env, "MODBUS_TCP_ADDR", "127.0.0.1:502"),
      intervalSec := AtoiOr(GetDefault(env, "INTERVAL_SEC", "1"), 1),
      mapCfg := MapSetting(env, parseMap))
  }

  /** loadEnv: the settings literal, then the default register map entry
      by entry, then the override when MODBUS_MAP_JSON is set and parses. */
  method LoadEnv(env: Environment, parseMap: string -> Option<RegMap>) returns (cfg: EnvCfg)
    ensures cfg == Settings(env, parseMap)
  {
    cfg := EnvCfg(
      mqttUrl := GetDefault(env, "MQTT_URL", "tcp://mqtt:1883"),
      deviceId := GetDefault(env, "DEVICE_ID", "cw100.inverter"),
      model := GetDefault(env, "MODEL", "CW100"),
      area := GetDefault(env, "AREA", "lab"),
      mode := ToLower(GetDefault(env, "MODBUS_MODE", "rtu")),
      port := GetDefault(env, "MODBUS_PORT", "/dev/ttyUSB0"),
      baud := AtoiOr(GetDefault(env, "MODBUS_BAUD", "9600"), 9600),
      dataBits := AtoiOr(GetDefault(env, "MODBUS_DATABITS", "8"), 8),
      parity := ToUpper(GetDefault(env, "MODBUS_PARITY", "N")),
      stopBits := AtoiOr(GetDefault(env, "MODBUS_STOPBITS", "1"), 1),
      slaveId := AtoiOr(GetDefault(env, "MODBUS_SLAVE_ID", "1"), 1),
      timeoutMs := AtoiOr(GetDefault(env, "MODBUS_TIMEOUT_MS", "500"), 500),
      tcpAddr := GetDefault(env, "MODBUS_TCP_ADDR", "127.0.0.1:502"),
      intervalSec := AtoiOr(GetDefault(env, "INTERVAL_SEC", "1"), 1),
      mapCfg := ZeroMap);

    cfg := cfg.(mapCfg := cfg.mapCfg.(frequency := RegisterParam(0x2000, 100.0, true)));
    cfg := cfg.(mapCfg := cfg.mapCfg.(voltage := RegisterParam(0x2001, 10.0, true)));
    cfg := cfg.(mapCfg := cfg.mapCfg.(power := RegisterParam(0x2003, 1.0, true)));
    cfg := cfg.(mapCfg := cfg.mapCfg.(energy := RegisterParam(0x2004, 100.0, true)));

    var js := Getenv(env, "MODBUS_MAP_JSON");
    if js != "" {
      var m := parseMap(js);
      if m.Some? {
        cfg := cfg.(mapCfg := m.value);
      }
    }
  }

  /** With nothing set, every setting takes its documented default. */
  lemma SettingsUnset(parseMap: string -> Option<RegMap>)
    ensures Settings(map[], parseMap) == EnvCfg(
      "tcp://mqtt:1883", "cw100.inverter", "CW100", "lab",
      "rtu", "/dev/ttyUSB0", 9600, 8, "N", 1, 1, 500,
      "127.0.0.1:502", 1, DefaultRegMap)
  {
    assert Atoi("9600") == Parsed(9600, Nil) && Atoi("8") == Parsed(8, Nil);
    assert Atoi("1") == Parsed(1, Nil) && Atoi("500") == Parsed(500, Nil);
    assert ToLower("rtu") == "rtu" && ToUpper("N") == "N";
  }

  /** A numeric setting falls back to its default both when unset and
      when set to something strconv.Atoi rejects; otherwise it is the
      parsed value. */
  lemma SettingsNumber(env: Environment, parseMap: string -> Option<RegMap>)
    ensures var v := Getenv(env, "MODBUS_BAUD");
      Settings(env, parseMap).baud == if v != "" && Atoi(v).err == Nil then Atoi(v).value else 9600
    ensures var v := Getenv(env, "INTERVAL_SEC");
      Settings(env, parseMap).intervalSec == if v != "" && Atoi(v).err == Nil then Atoi(v).value else 1
  {
    assert Atoi("9600") == Parsed(9600, Nil) && Atoi("1") == Parsed(1, Nil);
  }

  /** MODBUS_MAP_JSON replaces the whole register map when it is set and
      parses, and is ignored otherwise. */
  lemma SettingsMapOverride(env: Environment, parseMap: string -> Option<RegMap>)
    ensures var js := Getenv(env, "MODBUS_MAP_JSON");
      && (js == "" ==> Settings(env, parseMap).mapCfg == DefaultRegMap)
      && (js != "" && parseMap(js).None? ==> Settings(env, parseMap).mapCfg == DefaultRegMap)
      && (js != "" && parseMap(js).Some? ==> Settings(env, parseMap).mapCfg == parseMap(js).value)
  {
  }

  // ---------------------------------------------------------------------
  // The handler.

  /** The adapter's MainHandler: an MQTT connection and a Modbus client. */
  class MainHandler {
    const mqtt: Publisher
    const modbus: Client

    constructor (mqtt: Publisher, modbus: Client)
      ensures this.mqtt == mqtt && this.modbus == modbus
    {
      this.mqtt := mqtt;
      this.modbus := modbus;
    }

    /** publishEvent: a payload json.Marshal refuses is not sent; any other
        is published once to smh/<device><path>, QoS 1, not retained. */
    method PublishEvent(cfg: EnvCfg, payload: map<string, Json>, path: string) returns (err: Option<string>)
      modifies mqtt
      ensures var msg := Message(Topic(cfg.deviceId, path), payload, 1, false);
        if Encodable(JObj(payload)) then
          mqtt.published == old(mqtt.published) + [msg] && (err.None? <==> mqtt.accepts(msg))
        else
          mqtt.published == old(mqtt.published) && err == Some("failed to marshal payload")
    {
      if !Encodable(JObj(payload)) {
        return Some("failed to marshal payload");
      }
      err := mqtt.Publish(Message(Topic(cfg.deviceId, path), payload, 1, false));
    }

    /** The announcement at start-up, to smh/<device>/meta. */
    method AnnounceMeta(cfg: EnvCfg) returns (err: Option<string>)
      modifies mqtt
      ensures mqtt.published == old(mqtt.published) + [MetaMessage(cfg)]
      ensures err.None? <==> mqtt.accepts(MetaMessage(cfg))
    {
      var meta := Meta(cfg.deviceId, cfg.model, cfg.area, [CapFrequency, CapVoltage, CapEnergyMeter]);
      err := PublishEvent(cfg, EncodeMeta(meta), "/meta");
    }

    /** Publishes one state event; a failure is only logged. */
    method PublishState(cfg: EnvCfg, state: SensorState)
      modifies mqtt
      ensures mqtt.published == old(mqtt.published) + [StateMessage(cfg.deviceId, state)]
    {
      var err := PublishEvent(cfg, EncodeState(state), "/state");
    }

    /** A metric that is always read: on success its event is published
        at once, on failure nothing is. */
    method PollRequired(cfg: EnvCfg, param: RegisterParam, now: int, cap: string, unit: string, prec: int)
      modifies mqtt, modbus
      ensures modbus.requests == old(modbus.requests) + [param]
      ensures var r := modbus.device(|old(modbus.requests)|, param);
        mqtt.published ==
          old(mqtt.published) + StateMessages(cfg.deviceId, RequiredStates(AsWritten, r, now, cap, unit, prec))
    {
      var v, err := modbus.ReadFloat(RegisterParam(param.addr, param.scale, param.holding));
      if err.None? {
        var r := Round(v, prec);
        var state := SensorState(now, cap, unit, Some(r), None, None);
        PublishState(cfg, state);
        assert StateMessages(cfg.deviceId, [state]) == [StateMessage(cfg.deviceId, state)];
      }
    }

    /** An optional metric: read only when mapped; its rounded value when
        the read succeeds. */
    method ReadOptional(param: RegisterParam, prec: int) returns (val: Option<real>)
      modifies modbus
      ensures modbus.requests == old(modbus.requests) + (if param.addr != 0 then [param] else [])
      ensures val == OptionalValue(AsWritten, param, modbus.device(|old(modbus.requests)|, param), prec)
    {
      val := None;
      if param.addr != 0 {
        var v, err := modbus.ReadFloat(RegisterParam(param.addr, param.scale, param.holding));
        if err.None? {
          var r := Round(v, prec);
          val := Some(r);
        }
      }
    }

    /** The optional metrics: power and energy are read when mapped and
        merged into one energy.meter event, published iff a read succeeded. */
    method PollOptional(cfg: EnvCfg, now: int)
      modifies mqtt, modbus
      ensures modbus.requests == old(modbus.requests)
        + (if cfg.mapCfg.power.addr != 0 then [cfg.mapCfg.power] else [])
        + (if cfg.mapCfg.energy.addr != 0 then [cfg.mapCfg.energy] else [])
      ensures var m, k := cfg.mapCfg, |old(modbus.requests)|;
        var power, energy := modbus.device(k, m.power), modbus.device(if m.power.addr != 0 then k + 1 else k, m.energy);
        mqtt.published == old(mqtt.published) + StateMessages(cfg.deviceId, EnergyStates(AsWritten, m, power, energy, now))
    {
      var pw := ReadOptional(cfg.mapCfg.power, 1);
      var ek := ReadOptional(cfg.mapCfg.energy, 6);
      var ok := pw.Some? || ek.Some?;
      if ok {
        var state := SensorState(now, CapEnergyMeter, "", None, pw, ek);
        PublishState(cfg, state);
        assert StateMessages(cfg.deviceId, [state]) == [StateMessage(cfg.deviceId, state)];
      }
    }

    /** The body of the ticker loop: one tick at clock reading `now`. */
    method PollOnce(cfg: EnvCfg, now: int)
      modifies mqtt, modbus
      ensures modbus.requests == old(modbus.requests) + TickRequests(cfg.mapCfg)
      ensures var rs := TickReadsAt(modbus.device, |old(modbus.requests)|, cfg.mapCfg);
        mqtt.published == old(mqtt.published) + StateMessages(cfg.deviceId, TickStates(AsWritten, cfg.mapCfg, rs, now))
    {
      var m := cfg.mapCfg;
      ghost var id, k, p0 := cfg.deviceId, |modbus.requests|, mqtt.published;
      ghost var rs := TickReadsAt(modbus.device, k, m);
      ghost var f, v := FrequencyStates(AsWritten, rs, now), VoltageStates(AsWritten, rs, now);
      ghost var e := EnergyStates(AsWritten, m, rs.power, rs.energy, now);
      assert rs.frequency == modbus.device(k, m.frequency) && rs.voltage == modbus.device(k + 1, m.voltage);
      PollRequired(cfg, m.frequency, now, CapFrequency, "Hz", 2);
      assert mqtt.published == p0 + StateMessages(id, f);
      PollRequired(cfg, m.voltage, now, CapVoltage, "V", 1);
      assert mqtt.published == (p0 + StateMessages(id, f)) + StateMessages(id, v);
      PollOptional(cfg, now);
      assert mqtt.published == ((p0 + StateMessages(id, f)) + StateMessages(id, v)) + StateMessages(id, e);
      assert modbus.requests == old(modbus.requests) + TickRequests(m);
      StateMessagesAppend(id, f, v);
      StateMessagesAppend(id, f + v, e);
      AppendAssoc(p0, StateMessages(id, f), StateMessages(id, v));
      AppendAssoc(p0, StateMessages(id, f) + StateMessages(id, v), StateMessages(id, e));
    }

    /** The ticker loop, with the ticker firing once per entry of `ticks`
        (the clock reading of that tick). */
    method PollEach(cfg: EnvCfg, ticks: seq<int>)
      modifies mqtt, modbus
      ensures mqtt.published == old(mqtt.published) + Polls(cfg, modbus.device, |old(modbus.requests)|, ticks)
      ensures modbus.requests == old(modbus.requests) + PollRequests(cfg.mapCfg, |ticks|)
    {
      ghost var p0, q0, device, m := mqtt.published, modbus.requests, modbus.device, cfg.mapCfg;
      for t := 0 to |ticks|
        invariant mqtt.published == p0 + Polls(cfg, device, |q0|, ticks[..t])
        invariant modbus.requests == q0 + PollRequests(m, t)
      {
        ghost var done, asked := Polls(cfg, device, |q0|, ticks[..t]), PollRequests(m, t);
        ghost var states := TickMessages(cfg, device, TickStart(m, |q0|, t), ticks[t]);
        PollRequestsLength(m, t);
        assert |modbus.requests| == TickStart(m, |q0|, t);
        PollOnce(cfg, ticks[t]);
        assert mqtt.published == (p0 + done) + states;
        PollsSnoc(cfg, device, |q0|, ticks, t);
        AppendAssoc(p0, done, states);
        AppendAssoc(q0, asked, TickRequests(m));
        assert mqtt.published == p0 + Polls(cfg, device, |q0|, ticks[..t + 1]);
      }
      assert ticks[..|ticks|] == ticks;
    }

    /** Handle, over a run in which the ticker fires at `ticks`: load the
        settings, then run with them (Run). */
    method Handle(env: Environment, parseMap: string -> Option<RegMap>, ticks: seq<int>) returns (panics: bool)
      modifies mqtt, modbus
      ensures var cfg := Settings(env, parseMap);
        && (panics <==> TickerPeriod(cfg.intervalSec) <= 0)
        && mqtt.published == old(mqtt.published) + [MetaMessage(cfg)]
          + (if panics then [] else Polls(cfg, modbus.device, |old(modbus.requests)|, ticks))
        && modbus.requests == old(modbus.requests) + (if panics then [] else PollRequests(cfg.mapCfg, |ticks|))
    {
      var cfg := LoadEnv(env, parseMap);
      panics := Run(cfg, ticks);
    }

    /** The rest of Handle once the settings are loaded: announce the meta
        once; then time.NewTicker panics (`panics`) when the period is not
        positive, and otherwise the handler polls at every tick. */
    method Run(cfg: EnvCfg, ticks: seq<int>) returns (panics: bool)
      modifies mqtt, modbus
      ensures panics <==> TickerPeriod(cfg.intervalSec) <= 0
      ensures mqtt.published == old(mqtt.published) + [MetaMessage(cfg)]
        + (if panics then [] else Polls(cfg, modbus.device, |old(modbus.requests)|, ticks))
      ensures modbus.requests == old(modbus.requests) + (if panics then [] else PollRequests(cfg.mapCfg, |ticks|))
    {
      var err := AnnounceMeta(cfg);
      panics := TickerPeriod(cfg.intervalSec) <= 0;
      if panics {
        return;
      }
      PollEach(cfg, ticks);
    }
  }
}
