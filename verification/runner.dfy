/** The test entry point PublishOnce (cmd/adapter-modbus/runner.go): one
    polling cycle over an abstract register reader and publisher, with the
    payloads built as maps rather than SensorState structs. */
module Runner {
  import opened Wrappers
  import opened Json
  import opened ModbusIface
  import opened MqttIface
  import opened Rounding
  import opened ModbusClient
  import opened Adapter
  import opened Seqs

  /** The map literal of a frequency or voltage event is the encoding of
      the SensorState the ticker loop publishes. */
  lemma RequiredPayload(now: int, cap: string, unit: string, r: real)
    requires unit != ""
    ensures map["ts" := JNum(now as real), "cap" := JStr(cap), "value" := JNum(r), "unit" := JStr(unit)]
      == EncodeState(SensorState(now, cap, unit, Some(r), None, None))
  {
    EncodeStateFields(SensorState(now, cap, unit, Some(r), None, None));
  }

  /** The energy payload, {ts, cap} plus the fields that were added, is the
      encoding of the merged energy.meter state. */
  lemma EnergyPayload(now: int, pw: Option<real>, ek: Option<real>)
    ensures SetNum(SetNum(map["ts" := JNum(now as real), "cap" := JStr(CapEnergyMeter)], "power_w", pw), "energy_kwh", ek)
      == EncodeState(SensorState(now, CapEnergyMeter, "", None, pw, ek))
  {
    EncodeStateFields(SensorState(now, CapEnergyMeter, "", None, pw, ek));
  }

  /** A frequency or voltage block: read, and on success publish the
      rounded value at once; publish errors are ignored. */
  method PublishRequired(h: Client, client: Publisher, deviceId: string, param: RegisterParam,
                         now: int, cap: string, unit: string, prec: int)
    requires unit != ""
    modifies h, client
    ensures h.requests == old(h.requests) + [param]
    ensures client.published == old(client.published)
      + StateMessages(deviceId, RequiredStates(AsWritten, h.device(|old(h.requests)|, param), now, cap, unit, prec))
  {
    var v, err := h.ReadFloat(param);
    if err.None? {
      var r := Round(v, prec);
      var state := map["ts" := JNum(now as real), "cap" := JStr(cap), "value" := JNum(r), "unit" := JStr(unit)];
      RequiredPayload(now, cap, unit, r);
      var e := client.Publish(Message("smh/" + deviceId + "/state", state, 1, false));
      ghost var s := SensorState(now, cap, unit, Some(r), None, None);
      assert StateMessages(deviceId, [s]) == [StateMessage(deviceId, s)];
    }
  }

  /** The energy.meter block: the payload gains power_w and energy_kwh as
      their reads succeed, and is published iff one of them did. */
  method PublishEnergy(h: Client, client: Publisher, deviceId: string, m: RegMap, now: int)
    modifies h, client
    ensures h.requests == old(h.requests)
      + (if m.power.addr != 0 then [m.power] else [])
      + (if m.energy.addr != 0 then [m.energy] else [])
    ensures var k := |old(h.requests)|;
      var power, energy := h.device(k, m.power), h.device(if m.power.addr != 0 then k + 1 else k, m.energy);
      client.published == old(client.published) + StateMessages(deviceId, EnergyStates(AsWritten, m, power, energy, now))
  {
    ghost var k := |h.requests|;
    var payload := map["ts" := JNum(now as real), "cap" := JStr(CapEnergyMeter)];
    var ok := false;
    ghost var pw, ek := None, None;
    if m.power.addr != 0 {
      var v, err := h.ReadFloat(m.power);
      if err.None? {
        var r := Round(v, 1);
        payload := payload["power_w" := JNum(r)];
        ok := true;
        pw := Some(r);
      }
    }
    if m.energy.addr != 0 {
      var v, err := h.ReadFloat(m.energy);
      if err.None? {
        var r := Round(v, 6);
        payload := payload["energy_kwh" := JNum(r)];
        ok := true;
        ek := Some(r);
      }
    }
    ghost var power, energy := h.device(k, m.power), h.device(if m.power.addr != 0 then k + 1 else k, m.energy);
    assert pw == OptionalValue(AsWritten, m.power, power, 1) && ek == OptionalValue(AsWritten, m.energy, energy, 6);
    assert ok <==> pw.Some? || ek.Some?;
    EnergyPayload(now, pw, ek);
    if ok {
      var e := client.Publish(Message("smh/" + deviceId + "/state", payload, 1, false));
      ghost var s := SensorState(now, CapEnergyMeter, "", None, pw, ek);
      assert StateMessages(deviceId, [s]) == [StateMessage(deviceId, s)];
    }
  }

  /** PublishOnce publishes exactly what one tick of the ticker loop does:
      the same reads in the same order and the same state events. */
  method PublishOnce(h: Client, client: Publisher, cfg: EnvCfg, now: int)
    modifies h, client
    ensures h.requests == old(h.requests) + TickRequests(cfg.mapCfg)
    ensures var rs := TickReadsAt(h.device, |old(h.requests)|, cfg.mapCfg);
      client.published == old(client.published) + StateMessages(cfg.deviceId, TickStates(AsWritten, cfg.mapCfg, rs, now))
  {
    var m := cfg.mapCfg;
    ghost var id, k, p0 := cfg.deviceId, |h.requests|, client.published;
    ghost var rs := TickReadsAt(h.device, k, m);
    ghost var f, v := FrequencyStates(AsWritten, rs, now), VoltageStates(AsWritten, rs, now);
    ghost var e := EnergyStates(AsWritten, m, rs.power, rs.energy, now);
    assert rs.frequency == h.device(k, m.frequency) && rs.voltage == h.device(k + 1, m.voltage);
    PublishRequired(h, client, cfg.deviceId, m.frequency, now, CapFrequency, "Hz", 2);
    assert client.published == p0 + StateMessages(id, f);
    PublishRequired(h, client, cfg.deviceId, m.voltage, now, CapVoltage, "V", 1);
    assert client.published == (p0 + StateMessages(id, f)) + StateMessages(id, v);
    PublishEnergy(h, client, cfg.deviceId, m, now);
    assert client.published == ((p0 + StateMessages(id, f)) + StateMessages(id, v)) + StateMessages(id, e);
    assert h.requests == old(h.requests) + TickRequests(m);
    StateMessagesAppend(id, f, v);
    StateMessagesAppend(id, f + v, e);
    AppendAssoc(p0, StateMessages(id, f), StateMessages(id, v));
    AppendAssoc(p0, StateMessages(id, f) + StateMessages(id, v), StateMessages(id, e));
  }

  /** The register map the runner's example sets up. */
  const ExampleMap: RegMap := RegMap(
    RegisterParam(0x2000, 100.0, true), RegisterParam(0x2001, 10.0, true),
    RegisterParam(0x2003, 1.0, true), RegisterParam(0x2004, 100.0, true))

  /** The example's mock device: every request for an address gets the
      scripted raw value divided by the scale, and 0 without error for an
      unscripted address. */
  function ExampleDevice(n: nat, p: RegisterParam): Reading {
    var raw :=
      if p.addr == 0x2000 then 5000.0
      else if p.addr == 0x2001 then 2300.0
      else if p.addr == 0x2003 then 800.0
      else if p.addr == 0x2004 then 12345.0
      else 0.0;
    if p.scale == 0.0 then Reading(0.0, None) else Reading(raw / p.scale, None)
  }

  /** With raw registers 5000/100, 2300/10, 800/1 and 12345/100 one cycle
      publishes three events: 50 Hz, 230 V, and an energy.meter event with
      power_w 800 and energy_kwh 123.45, all stamped with `now`. */
  lemma ExampleCycle(k: nat, now: int)
    ensures TickStates(AsWritten, ExampleMap, TickReadsAt(ExampleDevice, k, ExampleMap), now) == [
      SensorState(now, CapFrequency, "Hz", Some(50.0), None, None),
      SensorState(now, CapVoltage, "V", Some(230.0), None, None),
      SensorState(now, CapEnergyMeter, "", None, Some(800.0), Some(123.45))]
  {
    var rs := TickReadsAt(ExampleDevice, k, ExampleMap);
    assert rs == TickReads(Reading(50.0, None), Reading(230.0, None), Reading(800.0, None), Reading(123.45, None));
    assert Scale(1) == 10.0 && Scale(2) == 100.0 && Scale(6) == 1000000.0;
    assert Trunc(5000.5) == 5000 && Trunc(2300.5) == 2300;
    assert Trunc(8000.5) == 8000 && Trunc(123450000.5) == 123450000;
    SnapDef(50.0, 100.0, 0.5);
    SnapDef(230.0, 10.0, 0.5);
    SnapDef(800.0, 10.0, 0.5);
    SnapDef(123.45, 1000000.0, 0.5);
  }
}
