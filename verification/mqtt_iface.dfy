/** The MQTT side shared by both programs: a message (internal/interface/mqtt/mqtt.go)
    and the broker connection as a publication log. */
module MqttIface {
  import opened Wrappers
  import opened Json

  /** One publication; the payload is the JSON object that is serialised. */
  datatype Message = Message(topic: string, payload: map<string, Json>, qos: nat, retain: bool)

  /** A broker connection. Every publish is recorded in `published`, in
      order, whatever the broker answers; the broker takes the messages for
      which `accepts` holds, and the others come back as an error. */
  class Publisher {
    const accepts: Message -> bool
    var published: seq<Message>

    constructor (accepts: Message -> bool)
      ensures this.accepts == accepts && published == []
    {
      this.accepts := accepts;
      published := [];
    }

    method Publish(m: Message) returns (err: Option<string>)
      modifies this
      ensures published == old(published) + [m]
      ensures err.None? <==> accepts(m)
    {
      published := published + [m];
      if accepts(m) {
        err := None;
      } else {
        err := Some("publish failed");
      }
    }
  }
}
