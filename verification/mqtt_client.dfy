/** The MQTT client's settings (internal/client/mqtt/mqtt_client.go). */
module MqttClient {
  import opened Wrappers
  import opened Env
  import opened GoText

  datatype Config = Config(brokerUrl: string, clientId: string, username: string, password: string, tls: bool)

  /** The errors LoadConfigFromEnv returns. */
  datatype ConfigError = MissingUrl | MissingClientId | InvalidTls(value: string)

  /** LoadConfigFromEnv: the broker URL and client id are required, in that
      order; the credentials are copied as they are; MQTT_TLS is optional
      but must be one of ParseBool's spellings when set. On an error the
      fields filled so far come back with it. */
  method LoadConfigFromEnv(env: Environment) returns (cfg: Config, err: Option<ConfigError>)
    ensures Getenv(env, "MQTT_URL") == "" ==>
      err == Some(MissingUrl) && cfg == Config("", "", "", "", false)
    ensures Getenv(env, "MQTT_URL") != "" && Getenv(env, "MQTT_CLIENT_ID") == "" ==>
      err == Some(MissingClientId) && cfg == Config(Getenv(env, "MQTT_URL"), "", "", "", false)
    ensures Getenv(env, "MQTT_URL") != "" && Getenv(env, "MQTT_CLIENT_ID") != "" ==>
      && cfg.brokerUrl == Getenv(env, "MQTT_URL")
      && cfg.clientId == Getenv(env, "MQTT_CLIENT_ID")
      && cfg.username == Getenv(env, "MQTT_USERNAME")
      && cfg.password == Getenv(env, "MQTT_PASSWORD")
    ensures Getenv(env, "MQTT_URL") != "" && Getenv(env, "MQTT_CLIENT_ID") != "" ==>
      var v := Getenv(env, "MQTT_TLS");
      && (v == "" ==> err.None? && !cfg.tls)
      && (v != "" && ParseBool(v).Failure? ==> err == Some(InvalidTls(v)) && !cfg.tls)
      && (v != "" && ParseBool(v).Success? ==> err.None? && cfg.tls == ParseBool(v).value)
  {
    cfg := Config("", "", "", "", false);

    cfg := cfg.(brokerUrl := Getenv(env, "MQTT_URL"));
    if cfg.brokerUrl == "" {
      return cfg, Some(MissingUrl);
    }
    cfg := cfg.(clientId := Getenv(env, "MQTT_CLIENT_ID"));
    if cfg.clientId == "" {
      return cfg, Some(MissingClientId);
    }
    cfg := cfg.(username := Getenv(env, "MQTT_USERNAME"));
    cfg := cfg.(password := Getenv(env, "MQTT_PASSWORD"));

    var v := Getenv(env, "MQTT_TLS");
    if v != "" {
      var b := ParseBool(v);
      if b.Failure? {
        return cfg, Some(InvalidTls(v));
      }
      cfg := cfg.(tls := b.value);
    }
    err := None;
  }
}
