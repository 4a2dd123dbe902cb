/** The meta announcement an adapter publishes on smh/<device>/meta and
    smh-core reads back. Both programs declare the same Meta struct
    (cmd/adapter-modbus/main.go and cmd/smh-core/main.go); it is defined
    once here, with the adapter's encoding and smh-core's decoding. */
module Announcement {
  import opened Wrappers
  import opened Json

  datatype Meta = Meta(deviceId: string, model: string, area: string, caps: seq<string>)

  /** json.Marshal of a Meta: device_id and caps always, model and area
      only when non-empty (omitempty). */
  function EncodeMeta(m: Meta): (o: map<string, Json>)
    ensures Encodable(JObj(o))
  {
    map["device_id" := JStr(m.deviceId), "caps" := Strings(m.caps)]
      + (if m.model != "" then map["model" := JStr(m.model)] else map[])
      + (if m.area != "" then map["area" := JStr(m.area)] else map[])
  }

  /** json.Unmarshal of one field into a Go string: an absent key or a
      null leaves the zero value, any other non-string is a type error. */
  function StringField(o: map<string, Json>, key: string): (r: Option<string>)
    ensures key !in o ==> r == Some("")
    ensures key in o && o[key].JStr? ==> r == Some(o[key].s)
    ensures r.None? <==> key in o && !o[key].JStr? && !o[key].JNull?
  {
    if key !in o then Some("")
    else match o[key]
      case JStr(s) => Some(s)
      case JNull => Some("")
      case _ => None
  }

  /** The elements of a JSON array decoded into a []string: null elements
      stay "", any other non-string is a type error. */
  function StringItems(items: seq<Json>): (r: Option<seq<string>>)
    ensures r.Some? ==> |r.value| == |items|
    ensures r.Some? <==> forall i | 0 <= i < |items| :: items[i].JStr? || items[i].JNull?
    ensures r.Some? ==> forall i | 0 <= i < |items| :: items[i].JStr? ==> r.value[i] == items[i].s
  {
    if forall i | 0 <= i < |items| :: items[i].JStr? || items[i].JNull? then
      Some(seq(|items|, i requires 0 <= i < |items| => if items[i].JStr? then items[i].s else ""))
    else None
  }

  /** A Go []string encoded and decoded again is unchanged. */
  lemma StringItemsRoundTrip(ss: seq<string>)
    ensures StringItems(Strings(ss).items) == Some(ss)
  {
    var items := Strings(ss).items;
    assert forall i | 0 <= i < |items| :: items[i].JStr?;
    var back := StringItems(items).value;
    assert forall i | 0 <= i < |ss| :: back[i] == ss[i];
    assert back == ss;
  }

  /** A field json.Unmarshal can store in a Go string: absent, null or a
      string. */
  predicate StringFits(o: map<string, Json>, key: string) {
    key in o ==> o[key].JStr? || o[key].JNull?
  }

  /** A field it can store in a []string: absent, null, or an array whose
      elements are strings or nulls. */
  predicate StringsFit(o: map<string, Json>, key: string) {
    key in o ==> o[key].JNull? || (o[key].JArr? && forall x | x in o[key].items :: x.JStr? || x.JNull?)
  }

  /** json.Unmarshal of one field into a Go []string. */
  function StringsField(o: map<string, Json>, key: string): Option<seq<string>> {
    if key !in o then Some([])
    else match o[key]
      case JNull => Some([])
      case JArr(items) => StringItems(items)
      case _ => None
  }

  /** json.Unmarshal into a zero Meta, as smh-core's subscription callback
      does: a top-level null leaves the zero Meta, a value that is not an
      object or a field of the wrong type is an error (None), unknown keys
      are ignored. */
  function DecodeMeta(j: Json): (r: Option<Meta>)
    ensures j.JNull? ==> r == Some(Meta("", "", "", []))
    ensures !j.JNull? && !j.JObj? ==> r.None?
    ensures j.JObj? ==> (r.Some? <==>
      && StringFits(j.fields, "device_id") && StringFits(j.fields, "model")
      && StringFits(j.fields, "area") && StringsFit(j.fields, "caps"))
    ensures j.JObj? && r.Some? && "device_id" in j.fields && j.fields["device_id"].JStr?
      ==> r.value.deviceId == j.fields["device_id"].s
  {
    match j
    case JNull => Some(Meta("", "", "", []))
    case JObj(o) =>
      var d, m, a, c := StringField(o, "device_id"), StringField(o, "model"),
        StringField(o, "area"), StringsField(o, "caps");
      if d.Some? && m.Some? && a.Some? && c.Some? then Some(Meta(d.value, m.value, a.value, c.value))
      else None
    case _ => None
  }

  /** What the adapter announces, smh-core reads back unchanged. */
  lemma MetaRoundTrip(m: Meta)
    ensures DecodeMeta(JObj(EncodeMeta(m))) == Some(m)
  {
    var o := EncodeMeta(m);
    assert o["caps"] == Strings(m.caps);
    StringItemsRoundTrip(m.caps);
    if m.model == "" {
      assert "model" !in o;
    } else {
      assert o["model"] == JStr(m.model);
    }
    if m.area == "" {
      assert "area" !in o;
    } else {
      assert o["area"] == JStr(m.area);
    }
  }

  /** Payloads that are not a Meta object are rejected; a missing field
      decodes to its zero value. */
  lemma DecodeMetaErrors(o: map<string, Json>)
    ensures DecodeMeta(JArr([])) == None && DecodeMeta(JStr("meta")) == None
    ensures "caps" in o && o["caps"].JNum? ==> DecodeMeta(JObj(o)) == None
    ensures "device_id" in o && o["device_id"].JBool? ==> DecodeMeta(JObj(o)) == None
    ensures DecodeMeta(JObj(map["device_id" := JStr("x")])) == Some(Meta("x", "", "", []))
  {
    var single := map["device_id" := JStr("x")];
    assert StringField(single, "device_id") == Some("x");
    assert StringField(single, "model") == Some("");
    assert StringField(single, "area") == Some("");
    assert StringsField(single, "caps") == Some([]);
  }
}
