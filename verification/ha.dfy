/** Home Assistant MQTT discovery (internal/ha/discovery.go): the sensor
    config record, its JSON encoding with omitempty fields and the Extra
    merge, and the discovery topic. */
module Ha {
  import opened Wrappers
  import opened Json

  datatype Device = Device(identifiers: seq<string>, manufacturer: string, model: string, name: string)

  /** The sensor config; `device` None is a nil *Device and `extra` None a
      nil Extra map. */
  datatype SensorConfig = SensorConfig(
    name: string, uniqueId: string, stateTopic: string,
    valueTpl: string, deviceClass: string, unitOfMeas: string,
    device: Option<Device>, qos: int,
    availability: seq<map<string, string>>,
    extra: Option<map<string, Json>>)

  /** The error json.Marshal reports for a value it cannot encode. */
  const UnsupportedValue: string := "json: unsupported value"

  /** An omitempty string field: written only when it is not empty. */
  function OmitEmpty(o: map<string, Json>, key: string, s: string): (r: map<string, Json>)
    ensures s != "" ==> r == o[key := JStr(s)]
    ensures s == "" ==> r == o
  {
    if s != "" then o[key := JStr(s)] else o
  }

  /** json.Marshal of a Device: every field is omitempty. */
  function EncodeDevice(d: Device): map<string, Json> {
    var ids: map<string, Json> := if |d.identifiers| > 0 then map["identifiers" := Strings(d.identifiers)] else map[];
    OmitEmpty(OmitEmpty(OmitEmpty(ids, "manufacturer", d.manufacturer), "model", d.model), "name", d.name)
  }

  /** A device object holds exactly its non-empty fields. */
  lemma EncodeDeviceFields(d: Device)
    ensures var o := EncodeDevice(d);
      && ("identifiers" in o <==> |d.identifiers| > 0)
      && (|d.identifiers| > 0 ==> o["identifiers"] == Strings(d.identifiers))
      && ("manufacturer" in o <==> d.manufacturer != "")
      && (d.manufacturer != "" ==> o["manufacturer"] == JStr(d.manufacturer))
      && ("model" in o <==> d.model != "") && (d.model != "" ==> o["model"] == JStr(d.model))
      && ("name" in o <==> d.name != "") && (d.name != "" ==> o["name"] == JStr(d.name))
      && o.Keys <= {"identifiers", "manufacturer", "model", "name"}
      && Encodable(JObj(o))
  {
  }

  /** A map[string]string as a JSON object of strings. */
  function StringMap(m: map<string, string>): Json {
    JObj(map k | k in m :: JStr(m[k]))
  }

  function Availability(av: seq<map<string, string>>): Json {
    JArr(seq(|av|, i requires 0 <= i < |av| => StringMap(av[i])))
  }

  /** The keys json.Marshal writes for the struct (Extra is tagged "-"):
      name, unique_id and state_topic always, even when empty, and every
      other field iff it is not empty. */
  function FieldKeys(c: SensorConfig): set<string> {
    {"name", "unique_id", "state_topic"}
      + (if c.valueTpl != "" then {"value_template"} else {})
      + (if c.deviceClass != "" then {"device_class"} else {})
      + (if c.unitOfMeas != "" then {"unit_of_measurement"} else {})
      + (if c.device.Some? then {"device"} else {})
      + (if c.qos != 0 then {"qos"} else {})
      + (if |c.availability| > 0 then {"availability"} else {})
  }

  /** The value written under each key. */
  function FieldValue(c: SensorConfig, key: string): Json {
    if key == "name" then JStr(c.name)
    else if key == "unique_id" then JStr(c.uniqueId)
    else if key == "state_topic" then JStr(c.stateTopic)
    else if key == "value_template" then JStr(c.valueTpl)
    else if key == "device_class" then JStr(c.deviceClass)
    else if key == "unit_of_measurement" then JStr(c.unitOfMeas)
    else if key == "device" && c.device.Some? then JObj(EncodeDevice(c.device.value))
    else if key == "qos" then JNum(c.qos as real)
    else Availability(c.availability)
  }

  /** json.Marshal of the struct alone. */
  function Fields(c: SensorConfig): map<string, Json> {
    map k | k in FieldKeys(c) :: FieldValue(c, k)
  }

  /** A key of the encoding is one of FieldKeys, with its FieldValue. */
  lemma FieldsAt(c: SensorConfig, k: string)
    ensures (k in Fields(c)) == (k in FieldKeys(c))
    ensures k in FieldKeys(c) ==> Fields(c)[k] == FieldValue(c, k)
  {
  }

  /** name, unique_id and state_topic are always written, even empty. */
  lemma FieldsAlways(c: SensorConfig)
    ensures var o := Fields(c);
      && o["name"] == JStr(c.name) && o["unique_id"] == JStr(c.uniqueId) && o["state_topic"] == JStr(c.stateTopic)
  {
    FieldsAt(c, "name");
    FieldsAt(c, "unique_id");
    FieldsAt(c, "state_topic");
  }

  /** value_template is written iff it is not empty. */
  lemma FieldsTemplate(c: SensorConfig)
    ensures var o := Fields(c);
      && ("value_template" in o <==> c.valueTpl != "")
      && (c.valueTpl != "" ==> o["value_template"] == JStr(c.valueTpl))
  {
    FieldsAt(c, "value_template");
  }

  /** device_class and unit_of_measurement are written iff not empty. */
  lemma FieldsClassUnit(c: SensorConfig)
    ensures var o := Fields(c);
      && ("device_class" in o <==> c.deviceClass != "")
      && (c.deviceClass != "" ==> o["device_class"] == JStr(c.deviceClass))
      && ("unit_of_measurement" in o <==> c.unitOfMeas != "")
      && (c.unitOfMeas != "" ==> o["unit_of_measurement"] == JStr(c.unitOfMeas))
  {
    FieldsAt(c, "device_class");
    FieldsAt(c, "unit_of_measurement");
  }

  /** device is written iff it is not nil. */
  lemma FieldsDevice(c: SensorConfig)
    ensures var o := Fields(c);
      && ("device" in o <==> c.device.Some?)
      && (c.device.Some? ==> o["device"] == JObj(EncodeDevice(c.device.value)))
  {
    FieldsAt(c, "device");
  }

  /** qos is written iff it is not 0, availability iff it is not empty. */
  lemma FieldsQosAvailability(c: SensorConfig)
    ensures var o := Fields(c);
      && ("qos" in o <==> c.qos != 0) && (c.qos != 0 ==> o["qos"] == JNum(c.qos as real))
      && ("availability" in o <==> |c.availability| > 0)
      && (|c.availability| > 0 ==> o["availability"] == Availability(c.availability))
  {
    FieldsAt(c, "qos");
    FieldsAt(c, "availability");
  }

  /** The struct encoding is always accepted by json.Marshal. */
  lemma FieldsEncodable(c: SensorConfig)
    ensures Encodable(JObj(Fields(c)))
  {
    var o := Fields(c);
    forall k | k in o
      ensures Encodable(o[k])
    {
      if k == "device" && c.device.Some? {
        EncodeDeviceFields(c.device.value);
      } else if k == "availability" {
        var av := Availability(c.availability);
        forall i | 0 <= i < |av.items|
          ensures Encodable(av.items[i])
        {
          assert av.items[i] == StringMap(c.availability[i]);
        }
      }
    }
  }

  /** What Marshal produces: the struct encoding when Extra is nil;
      otherwise that encoding decoded back into a map, with every Extra
      entry written over it, and encoded again, which fails iff an Extra
      value cannot be encoded. */
  function Encoded(c: SensorConfig): Result<map<string, Json>, string> {
    if c.extra.None? then Success(Fields(c))
    else
      var merged := Fields(c) + c.extra.value;
      if Encodable(JObj(merged)) then Success(merged) else Failure(UnsupportedValue)
  }

  /** Without Extra, Marshal never fails and adds nothing. */
  lemma EncodedPlain(c: SensorConfig)
    requires c.extra.None?
    ensures Encoded(c) == Success(Fields(c))
    ensures Encodable(JObj(Encoded(c).value))
  {
    FieldsEncodable(c);
  }

  /** With Extra: the keys are the struct's keys and Extra's keys, Extra
      wins on a collision, other struct fields keep their value, and the
      result is an error iff some Extra value cannot be encoded. */
  lemma EncodedMerge(c: SensorConfig)
    requires c.extra.Some?
    ensures Encoded(c).Failure? <==> exists k | k in c.extra.value :: !Encodable(c.extra.value[k])
    ensures Encoded(c).Success? ==>
      var o, x := Encoded(c).value, c.extra.value;
      && o.Keys == Fields(c).Keys + x.Keys
      && (forall k | k in x :: o[k] == x[k])
      && (forall k | k in Fields(c) && k !in x :: o[k] == Fields(c)[k])
  {
    var f, x := Fields(c), c.extra.value;
    FieldsEncodable(c);
    var merged := f + x;
    if forall k | k in x :: Encodable(x[k]) {
      forall k | k in merged
        ensures Encodable(merged[k])
      {
        if k !in x {
          assert merged[k] == f[k];
        }
      }
    } else {
      var k :| k in x && !Encodable(x[k]);
      assert merged[k] == x[k];
    }
  }

  /** The loop of Marshal: every Extra entry is written over the decoded
      base, one key at a time, in whatever order the keys come. */
  method Merge(base: map<string, Json>, extra: map<string, Json>) returns (m: map<string, Json>)
    ensures m == base + extra
  {
    m := base;
    var todo := extra.Keys;
    while todo != {}
      invariant todo <= extra.Keys
      invariant m.Keys == base.Keys + (extra.Keys - todo)
      invariant forall k | k in m :: m[k] == if k in extra && k !in todo then extra[k] else base[k]
      decreases |todo|
    {
      var k :| k in todo;
      m := m[k := extra[k]];
      todo := todo - {k};
    }
  }

  /** Marshal as written: encode the struct; with Extra set, merge it into
      the decoded base and encode again. */
  method Marshal(c: SensorConfig) returns (r: Result<map<string, Json>, string>)
    ensures r == Encoded(c)
  {
    var base := Fields(c);
    if c.extra.None? {
      return Success(base);
    }
    var merged := Merge(base, c.extra.value);
    if Encodable(JObj(merged)) {
      r := Success(merged);
    } else {
      r := Failure(UnsupportedValue);
    }
  }

  /** The discovery topic; the unique id comes before the metric even
      though the metric is the first argument. */
  function TopicSensorConfig(cap: string, unique: string): string {
    "homeassistant/sensor/" + unique + "/" + cap + "/config"
  }

  const TopicPrefix: string := "homeassistant/sensor/"

  /** The topic reads prefix, unique id, "/", metric, "/config". */
  lemma TopicSensorConfigParts(cap: string, unique: string)
    ensures var t := TopicSensorConfig(cap, unique);
      && |t| == |TopicPrefix| + |unique| + |cap| + 8
      && t[..|TopicPrefix|] == TopicPrefix
      && t[|TopicPrefix|..|TopicPrefix| + |unique|] == unique
      && t[|TopicPrefix| + |unique|] == '/'
      && t[|TopicPrefix| + |unique| + 1..|t| - 7] == cap
      && t[|t| - 7..] == "/config"
  {
    var t := TopicSensorConfig(cap, unique);
    var n := |TopicPrefix|;
    assert t == TopicPrefix + unique + "/" + cap + "/config";
    assert t[n..n + |unique|] == unique;
    assert t[n + |unique| + 1..|t| - 7] == cap;
  }

  /** For unique ids without '/', distinct (metric, unique id) pairs get
      distinct topics, so no config overwrites another's retained message. */
  lemma TopicSensorConfigInjective(cap1: string, unique1: string, cap2: string, unique2: string)
    requires '/' !in unique1 && '/' !in unique2
    requires TopicSensorConfig(cap1, unique1) == TopicSensorConfig(cap2, unique2)
    ensures cap1 == cap2 && unique1 == unique2
  {
    var t := TopicSensorConfig(cap1, unique1);
    var n := |TopicPrefix|;
    TopicSensorConfigParts(cap1, unique1);
    TopicSensorConfigParts(cap2, unique2);
  }
}
