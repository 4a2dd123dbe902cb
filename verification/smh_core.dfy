/** The hub (cmd/smh-core/main.go): it reads an adapter's meta announcement
    and publishes one retained Home Assistant discovery config per metric
    of every capability it knows. */
module SmhCore {
  import opened Wrappers
  import opened Json
  import opened GoText
  import opened MqttIface
  import opened Announcement
  import opened Ha
  import opened CoreSanitize
  import opened ModbusIface
  import Adapter
  import Rounding
  import opened Seqs

  // ---------------------------------------------------------------------
  // publishDiscovery: the configs of one announcement.

  /** The metrics the hub knows, each with its own config. */
  datatype Metric = Power | Energy | Frequency | Voltage

  /** One discovery publication: the config topic and the config. */
  datatype Discovery = Discovery(topic: string, config: SensorConfig)

  /** The device every config of one announcement shares. */
  function DeviceOf(meta: Meta): Device {
    Device([meta.deviceId], "SMH", meta.model, meta.deviceId)
  }

  /** The topic the adapter publishes the device's state events on. */
  function StateTopic(deviceId: string): string {
    "smh/" + deviceId + "/state"
  }

  /** The metric segment of the discovery topic. */
  function MetricTopic(m: Metric): string {
    match m
    case Power => "power_w"
    case Energy => "energy_kwh"
    case Frequency => "frequency"
    case Voltage => "voltage"
  }

  /** A value template: the field `field` of events whose cap is `cap`. */
  function ValueTemplate(field: string, cap: string): string {
    "{{ value_json." + field + " if value_json.cap == \"" + cap + "\" }}"
  }

  /** The sensor config literal of each metric. */
  function ConfigFor(meta: Meta, unique: string, m: Metric): SensorConfig {
    var id, dev := meta.deviceId, Some(DeviceOf(meta));
    match m
    case Power =>
      SensorConfig(id + " power", unique + "_power", StateTopic(id),
        ValueTemplate("power_w", "energy.meter"), "power", "W", dev, 0, [], None)
    case Energy =>
      SensorConfig(id + " energy", unique + "_energy", StateTopic(id),
        ValueTemplate("energy_kwh", "energy.meter"), "energy", "kWh", dev, 0, [], None)
    case Frequency =>
      SensorConfig(id + " frequency", unique + "_freq", StateTopic(id),
        ValueTemplate("value", "sensor.frequency"), "", "Hz", dev, 0, [], None)
    case Voltage =>
      SensorConfig(id + " voltage", unique + "_volt", StateTopic(id),
        ValueTemplate("value", "sensor.voltage"), "", "V", dev, 0, [], None)
  }

  function DiscoveryFor(meta: Meta, unique: string, m: Metric): Discovery {
    Discovery(TopicSensorConfig(MetricTopic(m), unique), ConfigFor(meta, unique, m))
  }

  /** The switch on one capability: energy.meter has two metrics, power
      first; the frequency and voltage sensors one each; anything else none. */
  function CapConfigs(meta: Meta, unique: string, cap: string): (ds: seq<Discovery>)
    ensures |ds| == if cap == "energy.meter" then 2
      else if cap == "sensor.frequency" || cap == "sensor.voltage" then 1 else 0
    ensures forall d | d in ds ::
      && d.config.stateTopic == StateTopic(meta.deviceId)
      && |d.config.uniqueId| > |unique| && d.config.uniqueId[..|unique|] == unique
  {
    if cap == "energy.meter" then [DiscoveryFor(meta, unique, Power), DiscoveryFor(meta, unique, Energy)]
    else if cap == "sensor.frequency" then [DiscoveryFor(meta, unique, Frequency)]
    else if cap == "sensor.voltage" then [DiscoveryFor(meta, unique, Voltage)]
    else []
  }

  /** The configs of the capabilities `caps`, in order, without dedup. */
  function Configs(meta: Meta, unique: string, caps: seq<string>): seq<Discovery> {
    if caps == [] then []
    else Configs(meta, unique, caps[..|caps| - 1]) + CapConfigs(meta, unique, caps[|caps| - 1])
  }

  /** One more capability appends its configs. */
  lemma ConfigsSnoc(meta: Meta, unique: string, caps: seq<string>, i: nat)
    requires i < |caps|
    ensures Configs(meta, unique, caps[..i + 1]) == Configs(meta, unique, caps[..i]) + CapConfigs(meta, unique, caps[i])
  {
    assert caps[..i + 1][..i] == caps[..i];
  }

  function DiscoveryConfigs(meta: Meta): seq<Discovery> {
    Configs(meta, Sanitize(meta.deviceId), meta.caps)
  }

  /** The number of entries of `caps` equal to `cap`. */
  function Count(caps: seq<string>, cap: string): nat {
    if caps == [] then 0
    else Count(caps[..|caps| - 1], cap) + (if caps[|caps| - 1] == cap then 1 else 0)
  }

  /** 2 configs per energy.meter, 1 per frequency or voltage sensor. */
  lemma {:induction false} ConfigsCount(meta: Meta, unique: string, caps: seq<string>)
    ensures |Configs(meta, unique, caps)|
      == 2 * Count(caps, "energy.meter") + Count(caps, "sensor.frequency") + Count(caps, "sensor.voltage")
  {
    if caps != [] {
      ConfigsCount(meta, unique, caps[..|caps| - 1]);
    }
  }

  /** Every config of one announcement: its topic is the metric's
      discovery topic under the sanitized id, its unique id the sanitized
      id plus the metric's suffix, its name the raw id, its state topic the
      adapter's, its device the shared one, and a device class only for
      power and energy. */
  predicate WellFormed(meta: Meta, d: Discovery) {
    var unique, c := Sanitize(meta.deviceId), d.config;
    exists m: Metric ::
      && d.topic == TopicSensorConfig(MetricTopic(m), unique)
      && c.uniqueId == unique + (match m case Power => "_power" case Energy => "_energy"
                                         case Frequency => "_freq" case Voltage => "_volt")
      && |c.name| >= |meta.deviceId| && c.name[..|meta.deviceId|] == meta.deviceId
      && c.stateTopic == Adapter.Topic(meta.deviceId, "/state")
      && c.device == Some(DeviceOf(meta))
      && (c.deviceClass != "" <==> m == Power || m == Energy)
      && c.qos == 0 && c.availability == [] && c.extra.None?
  }

  lemma DiscoveryForWellFormed(meta: Meta, m: Metric)
    ensures WellFormed(meta, DiscoveryFor(meta, Sanitize(meta.deviceId), m))
  {
    var c := ConfigFor(meta, Sanitize(meta.deviceId), m);
    assert c.name[..|meta.deviceId|] == meta.deviceId;
  }

  lemma {:induction false} ConfigsWellFormed(meta: Meta, caps: seq<string>)
    ensures forall d | d in Configs(meta, Sanitize(meta.deviceId), caps) :: WellFormed(meta, d)
  {
    if caps != [] {
      ConfigsWellFormed(meta, caps[..|caps| - 1]);
      DiscoveryForWellFormed(meta, Power);
      DiscoveryForWellFormed(meta, Energy);
      DiscoveryForWellFormed(meta, Frequency);
      DiscoveryForWellFormed(meta, Voltage);
    }
  }

  /** Each value template reads a field the adapter writes, out of the
      events whose cap is the string the adapter writes for that metric:
      every frequency or voltage event of a tick carries "value", and every
      energy.meter event carries power_w or energy_kwh. */
  lemma TemplatesMatchAdapter(meta: Meta, unique: string, rule: Rounding.Rule, m: RegMap, rs: Adapter.TickReads, now: int)
    ensures ConfigFor(meta, unique, Frequency).valueTpl == ValueTemplate("value", Adapter.CapFrequency)
    ensures ConfigFor(meta, unique, Voltage).valueTpl == ValueTemplate("value", Adapter.CapVoltage)
    ensures ConfigFor(meta, unique, Power).valueTpl == ValueTemplate("power_w", Adapter.CapEnergyMeter)
    ensures ConfigFor(meta, unique, Energy).valueTpl == ValueTemplate("energy_kwh", Adapter.CapEnergyMeter)
    ensures forall s | s in Adapter.TickStates(rule, m, rs, now) ::
      && (s.cap == Adapter.CapFrequency || s.cap == Adapter.CapVoltage ==> "value" in Adapter.EncodeState(s))
      && (s.cap == Adapter.CapEnergyMeter ==>
            "power_w" in Adapter.EncodeState(s) || "energy_kwh" in Adapter.EncodeState(s))
  {
    var f, v := Adapter.FrequencyStates(rule, rs, now), Adapter.VoltageStates(rule, rs, now);
    var e := Adapter.EnergyStates(rule, m, rs.power, rs.energy, now);
    assert Adapter.TickStates(rule, m, rs, now) == f + v + e;
    forall s: Adapter.SensorState | s in f + v + e
      ensures s.cap == Adapter.CapFrequency || s.cap == Adapter.CapVoltage ==> "value" in Adapter.EncodeState(s)
      ensures s.cap == Adapter.CapEnergyMeter ==>
        "power_w" in Adapter.EncodeState(s) || "energy_kwh" in Adapter.EncodeState(s)
    {
      Adapter.EncodeStateFields(s);
      assert s in f || s in v || s in e;
    }
  }

  // ---------------------------------------------------------------------
  // pubCfg and the publications.

  /** pubCfg: a config that fails to marshal is skipped; any other is
      published retained with QoS 1 (a failed publish is only logged). */
  function Publication(d: Discovery): seq<Message> {
    match Encoded(d.config)
    case Success(o) => [Message(d.topic, o, 1, true)]
    case Failure(_) => []
  }

  function Publications(ds: seq<Discovery>): seq<Message> {
    if ds == [] then [] else Publications(ds[..|ds| - 1]) + Publication(ds[|ds| - 1])
  }

  lemma {:induction false} PublicationsAppend(a: seq<Discovery>, b: seq<Discovery>)
    ensures Publications(a + b) == Publications(a) + Publications(b)
    decreases |b|
  {
    if b == [] {
      assert a + b == a;
    } else {
      var c := b[..|b| - 1];
      assert (a + b)[..|a + b| - 1] == a + c;
      assert (a + b)[|a + b| - 1] == b[|b| - 1];
      PublicationsAppend(a, c);
    }
  }

  /** The configs the hub builds never fail to marshal, so it publishes one
      retained QoS-1 message per config, carrying the config's encoding. */
  lemma {:induction false} PublicationsOfPlain(ds: seq<Discovery>)
    requires forall i | 0 <= i < |ds| :: ds[i].config.extra.None?
    ensures |Publications(ds)| == |ds|
    ensures forall i | 0 <= i < |ds| ::
      Publications(ds)[i] == Message(ds[i].topic, Fields(ds[i].config), 1, true)
  {
    if ds != [] {
      var n := |ds| - 1;
      var init := ds[..n];
      PublicationsOfPlain(init);
      EncodedPlain(ds[n].config);
      var ps := Publications(ds);
      assert ps == Publications(init) + [Message(ds[n].topic, Fields(ds[n].config), 1, true)];
      forall i | 0 <= i < |ds|
        ensures ps[i] == Message(ds[i].topic, Fields(ds[i].config), 1, true)
      {
        if i < n {
          assert ds[i] == init[i];
        }
      }
    }
  }

  function DiscoveryMessages(meta: Meta): seq<Message> {
    Publications(DiscoveryConfigs(meta))
  }

  /** Every config of one announcement is published, in order. */
  lemma DiscoveryMessagesAll(meta: Meta)
    ensures |DiscoveryMessages(meta)| == |DiscoveryConfigs(meta)|
    ensures forall i | 0 <= i < |DiscoveryConfigs(meta)| ::
      var d := DiscoveryConfigs(meta)[i];
      DiscoveryMessages(meta)[i] == Message(d.topic, Fields(d.config), 1, true)
  {
    var ds := DiscoveryConfigs(meta);
    ConfigsWellFormed(meta, meta.caps);
    forall i | 0 <= i < |ds|
      ensures ds[i].config.extra.None?
    {
      assert ds[i] in ds;
    }
    PublicationsOfPlain(ds);
  }

  /** The hub reads the adapter's announcement back unchanged. */
  lemma AdapterMetaDecodes(cfg: Adapter.ModbusClient.EnvCfg)
    ensures DecodeMeta(JObj(Adapter.MetaMessage(cfg).payload)) == Some(Adapter.AdapterMeta(cfg))
  {
    MetaRoundTrip(Adapter.AdapterMeta(cfg));
  }

  /** For the adapter's announcement the hub builds four configs: frequency,
      voltage, then power and energy. */
  lemma AdapterDiscovery(cfg: Adapter.ModbusClient.EnvCfg)
    ensures var meta := Adapter.AdapterMeta(cfg); var u := Sanitize(cfg.deviceId);
      DiscoveryConfigs(meta) == [DiscoveryFor(meta, u, Frequency), DiscoveryFor(meta, u, Voltage),
                                 DiscoveryFor(meta, u, Power), DiscoveryFor(meta, u, Energy)]
  {
    var meta := Adapter.AdapterMeta(cfg);
    var u := Sanitize(cfg.deviceId);
    var caps := meta.caps;
    var fr, vo, en := DiscoveryFor(meta, u, Frequency), DiscoveryFor(meta, u, Voltage), DiscoveryFor(meta, u, Power);
    var ek := DiscoveryFor(meta, u, Energy);
    assert CapConfigs(meta, u, caps[0]) == [fr] && CapConfigs(meta, u, caps[1]) == [vo];
    assert CapConfigs(meta, u, caps[2]) == [en, ek];
    assert caps[..1][..0] == [] && caps[..1][0] == caps[0];
    assert Configs(meta, u, caps[..1]) == [fr];
    assert caps[..2][..1] == caps[..1] && caps[..2][1] == caps[1];
    assert Configs(meta, u, caps[..2]) == [fr, vo];
    assert caps[..3] == caps && caps[..2] == caps[..|caps| - 1];
    assert Configs(meta, u, caps) == [fr, vo] + [en, ek];
  }

  // ---------------------------------------------------------------------
  // The hub's publishing, on a broker connection.

  method PubCfg(mc: Publisher, topic: string, cfg: SensorConfig)
    modifies mc
    ensures mc.published == old(mc.published) + Publication(Discovery(topic, cfg))
  {
    var b := Marshal(cfg);
    if b.Failure? {
      return;
    }
    var err := mc.Publish(Message(topic, b.value, 1, true));
  }

  /** The body of the loop over the capabilities: the switch on one cap. */
  method PublishCap(mc: Publisher, meta: Meta, unique: string, cap: string)
    modifies mc
    ensures mc.published == old(mc.published) + Publications(CapConfigs(meta, unique, cap))
  {
    ghost var ds := CapConfigs(meta, unique, cap);
    if cap == "energy.meter" {
      PubCfg(mc, TopicSensorConfig("power_w", unique), ConfigFor(meta, unique, Power));
      PubCfg(mc, TopicSensorConfig("energy_kwh", unique), ConfigFor(meta, unique, Energy));
      assert ds == [DiscoveryFor(meta, unique, Power), DiscoveryFor(meta, unique, Energy)];
      assert ds[..1] == [ds[0]] && ds[..1][..0] == [];
      assert Publications(ds[..1]) == Publication(ds[0]);
      assert Publications(ds) == Publication(ds[0]) + Publication(ds[1]);
    } else if cap == "sensor.frequency" {
      PubCfg(mc, TopicSensorConfig("frequency", unique), ConfigFor(meta, unique, Frequency));
      assert ds == [DiscoveryFor(meta, unique, Frequency)];
      assert ds[..0] == [];
    } else if cap == "sensor.voltage" {
      PubCfg(mc, TopicSensorConfig("voltage", unique), ConfigFor(meta, unique, Voltage));
      assert ds == [DiscoveryFor(meta, unique, Voltage)];
      assert ds[..0] == [];
    }
  }

  /** What the loop has published after the capabilities `caps`. */
  function Sent(meta: Meta, unique: string, caps: seq<string>): seq<Message> {
    Publications(Configs(meta, unique, caps))
  }

  lemma SentSnoc(meta: Meta, unique: string, caps: seq<string>, i: nat)
    requires i < |caps|
    ensures Sent(meta, unique, caps[..i + 1])
      == Sent(meta, unique, caps[..i]) + Publications(CapConfigs(meta, unique, caps[i]))
  {
    ConfigsSnoc(meta, unique, caps, i);
    PublicationsAppend(Configs(meta, unique, caps[..i]), CapConfigs(meta, unique, caps[i]));
  }

  /** The loop of publishDiscovery over the capabilities, in order. */
  method PublishCaps(mc: Publisher, meta: Meta, unique: string)
    modifies mc
    ensures mc.published == old(mc.published) + Sent(meta, unique, meta.caps)
  {
    ghost var p0 := mc.published;
    for i := 0 to |meta.caps|
      invariant mc.published == p0 + Sent(meta, unique, meta.caps[..i])
    {
      ghost var sent := Sent(meta, unique, meta.caps[..i]);
      PublishCap(mc, meta, unique, meta.caps[i]);
      ghost var sending := Publications(CapConfigs(meta, unique, meta.caps[i]));
      SentSnoc(meta, unique, meta.caps, i);
      AppendAssoc(p0, sent, sending);
    }
    assert meta.caps[..|meta.caps|] == meta.caps;
  }

  /** publishDiscovery: the configs of every capability, under the
      sanitized device id. */
  method PublishDiscovery(mc: Publisher, meta: Meta)
    modifies mc
    ensures mc.published == old(mc.published) + DiscoveryMessages(meta)
  {
    var unique := Sanitize(meta.deviceId);
    PublishCaps(mc, meta, unique);
  }

  /** The subscription callback: a payload that does not decode into a
      Meta publishes nothing; any other starts publishDiscovery. */
  method OnMeta(mc: Publisher, payload: Json)
    modifies mc
    ensures DecodeMeta(payload).None? ==> mc.published == old(mc.published)
    ensures DecodeMeta(payload).Some? ==>
      mc.published == old(mc.published) + DiscoveryMessages(DecodeMeta(payload).value)
  {
    var meta := DecodeMeta(payload);
    if meta.None? {
      return;
    }
    PublishDiscovery(mc, meta.value);
  }
}
