# smh_go in Dafny

A model of the two programs of smh_go, with proofs about them.

- **The Modbus adapter** (`cmd/adapter-modbus`) polls an energy meter over Modbus. Each tick it turns the frequency, voltage, power and energy registers into normalised state events and publishes them on `smh/<device>/state`. At start-up it announces the device's capabilities once on `smh/<device>/meta`.
- **The hub** (`cmd/smh-core`) reads those announcements. For every capability it knows, it publishes retained Home Assistant discovery configs on `homeassistant/sensor/<unique>/<metric>/config`.

Modules, one per Go file of the core, plus shared ones:

| module | file | models |
|---|---|---|
| `ModbusClient` | modbus_client.dfy | `handler.ReadFloat` (bank choice, short response, big-endian int16 decode, scale) and `LoadEnvCfg` |
| `Adapter` | adapter.dfy | `loadEnv`, `round`'s call sites, `publishEvent`, the meta announcement, one ticker tick as a specification (`TickStates`, `TickRequests`), and the `MainHandler` class whose methods perform it |
| `Runner` | runner.dfy | `PublishOnce`, with its payload map built key by key, proved to publish exactly what a tick of `Handle` does |
| `Rounding` | rounding.dfy | `round`, its power-of-ten loop, and the round-half-away-from-zero rule it is meant to implement |
| `SmhCore` | smh_core.dfy | `publishDiscovery`, `pubCfg` and the subscription callback |
| `CoreSanitize` | core_sanitize.dfy | `sanitize` |
| `Ha` | ha.dfy | `SensorConfig.Marshal` (omitempty fields, the `Extra` merge) and `TopicSensorConfig` |
| `MqttClient` | mqtt_client.dfy | `LoadConfigFromEnv` |
| `ModbusIface`, `MqttIface` | modbus_iface.dfy, mqtt_iface.dfy | the Modbus client and the broker connection, as classes |
| `Announcement`, `Json`, `Env`, `GoText`, `Wrappers`, `Seqs` | | the `Meta` announcement both programs share; JSON values; the environment; `strconv` and `strings` helpers; `Option`/`Result`; a sequence fact |

How the model is built:

- **Registers.** A Modbus client is a class `ModbusIface.Client`. Its `device` function gives the device's answer to the request numbered n for a register, so the registers may change between reads and between ticks. Every read is recorded in `requests`. One tick works from the four readings `TickReadsAt` picks out of `device` by request number.
- **Broker.** The broker connection is a class `MqttIface.Publisher`. Every publish is recorded in `published`, and `accepts` decides which publishes fail.
- **Handler methods.** Each method of the adapter's handler and of the hub states its new `requests` and `published` as a function of the old ones. These specification functions are `TickStates`, `Polls` and `DiscoveryMessages`. The lemmas about these functions carry the properties: event order and timestamps, which reads happen, optional fields, configs per capability, topics, the template/cap agreement between the two programs, and the meta round trip.
- **Payloads.** Payloads are JSON objects, written as `map<string, Json>`, and not bytes. `Encodable` says whether `json.Marshal` accepts a value.
- **Environment.** The environment is a `map<string, string>`.

The helper `round(v, prec)` (cmd/adapter-modbus/main.go:311-318) is evidently meant to round to `prec` decimals: that is its name, it adds 0.5 before truncating, and the adapter passes it the display precision of each metric (2 for Hz, 1 for V and W, 6 for kWh). The code rounds correctly only for values that are not negative, and a power register is a signed int16 (see Findings). The tick, the handler and the runner are modelled as written: their methods call `Rounding.Round`, and their specification functions take a `Rounding.Rule` whose value there is `AsWritten`. The same tick with `HalfAway`, rounding half away from zero, is the corrected one. `Adapter.TickNonNegativeAgrees` proves the two ticks equal while no reading is negative, and `Adapter.TickNegativePower` shows them differ for a meter that exports power.

## Model

| member | source | states |
|---|---|---|
| ModbusClient.Request | internal/client/modbus/modbus_client.go:110-114 | one read of quantity 1 at the parameter's address, from the holding bank iff `Holding` |
| ModbusClient.Word | internal/client/modbus/modbus_client.go:122 | the first reply byte is the high byte of the register word and the second the low byte |
| ModbusClient.WordIsShiftOr | internal/client/modbus/modbus_client.go:122 | the big-endian word equals the shift-and-or of the two bytes that the source computes |
| ModbusClient.Int16 | internal/client/modbus/modbus_client.go:123 | `int16(raw)` is the value in [-32768, 32767] congruent to the word modulo 2^16 |
| ModbusClient.Int16RoundTrip | internal/client/modbus/modbus_client.go:123 | `int16` and `uint16` conversion are inverse bijections |
| ModbusClient.Int16Injective | internal/client/modbus/modbus_client.go:123 | distinct words give distinct signed values |
| ModbusClient.DecodeInjective | internal/client/modbus/modbus_client.go:122-123 | distinct byte pairs decode to distinct raw values |
| ModbusClient.ReadFloat | internal/client/modbus/modbus_client.go:107-124 | transport error passed on with value 0; fewer than 2 bytes is "short response" with 0; otherwise the signed big-endian word of the first two bytes divided by the scale |
| ModbusClient.ReadFloatIgnoresTrailingBytes | internal/client/modbus/modbus_client.go:119-123 | bytes after the first two do not change the result |
| ModbusClient.Int16Boundaries | internal/client/modbus/modbus_client.go:122-123 | 0x7FFF decodes to 32767, 0x8000 to -32768, 0xFFFF to -1 |
| ModbusClient.LoadEnvCfg | internal/client/modbus/modbus_client.go:128-160 | lower-cased mode; any mode but rtu/tcp is an error; tcp needs MODBUS_TCP_ADDR and leaves the serial fields zero; rtu needs MODBUS_PORT; numbers take Atoi's value even on error; DeviceID/Model default to "unknown", Area to "lab"; on an error the fields filled so far |
| ModbusClient.ModeCaseInsensitive | internal/client/modbus/modbus_client.go:131-134 | "TCP" in any letter case is accepted as tcp; an unset mode is rejected |
| ModbusIface.Client.ReadFloat | internal/interface/modbus/modbus.go:11 | one read is appended to the request log and answered by the device |
| Env.GetDefault | internal/client/modbus/modbus_client.go:162-167 | the default iff the variable is unset or empty, otherwise its value |
| Env.GetDefaultUpdate | cmd/adapter-modbus/main.go:223-228 | setting a variable non-empty overrides the default; unsetting or emptying it restores it |
| GoText.ToLower | internal/client/modbus/modbus_client.go:131 | same length; each character lower-cased |
| GoText.ToUpper | cmd/adapter-modbus/main.go:245 | same length; each character upper-cased |
| GoText.Atoi | cmd/adapter-modbus/main.go:229-234 | result within int64; syntax error gives 0; a range error gives MinInt64 exactly when the text starts with '-', and MaxInt64 otherwise; empty or sign-only text and any stray non-digit are errors |
| GoText.ScanDecimalOverflow | cmd/adapter-modbus/main.go:229-234 | the digits of any number past 2^64 - 1 stop the digit loop with a range error |
| GoText.AtoiOverflow | cmd/adapter-modbus/main.go:229-234 | every number past MaxInt64 gives MaxInt64 with a range error, unsigned or with '+'; with '-' it gives MinInt64 with a range error, except 2^63, which is MinInt64 without error |
| GoText.AtoiItoa | cmd/adapter-modbus/main.go:229-234 | every int64 written in decimal is read back exactly, without error |
| GoText.ParseBool | internal/client/mqtt/mqtt_client.go:44 | exactly the six true and six false spellings are accepted; anything else is a syntax error |
| MqttClient.LoadConfigFromEnv | internal/client/mqtt/mqtt_client.go:29-52 | missing URL, then missing client id, are errors in that order; credentials copied verbatim; unset MQTT_TLS leaves TLS off; an unparseable one is an error; otherwise TLS is the parsed value |
| MqttIface.Publisher.Publish | internal/client/mqtt/mqtt_client.go:89-93 | the message is appended to the publication log; an error iff the broker refuses it |
| Json.Strings | cmd/adapter-modbus/main.go:19 | a []string encodes as an array of the same strings, always encodable |
| Announcement.EncodeMeta | cmd/adapter-modbus/main.go:15-20 | the Meta encoding is always accepted by json.Marshal |
| Announcement.StringField | cmd/smh-core/main.go:17-22 | an absent key or null gives "", a string gives itself, any other type is an error |
| Announcement.StringItems | cmd/smh-core/main.go:21 | an array decodes iff every item is a string or null, item by item |
| Announcement.StringItemsRoundTrip | cmd/smh-core/main.go:21 | a []string the adapter encodes decodes back to the same sequence |
| Announcement.DecodeMeta | cmd/smh-core/main.go:34-38 | null gives the zero Meta; a non-object is an error; an object decodes iff device_id, model and area are absent, null or strings and caps is absent, null or an array of strings and nulls; a string device_id is kept |
| Announcement.MetaRoundTrip | cmd/smh-core/main.go:34-38 | the hub decodes any announced Meta back unchanged |
| Announcement.DecodeMetaErrors | cmd/smh-core/main.go:35-38 | non-objects and wrongly typed fields are rejected; missing fields take zero values |
| Rounding.PowerOfTen | cmd/adapter-modbus/main.go:312-315 | the loop leaves 10^prec (1 for a negative prec) |
| Rounding.Round | cmd/adapter-modbus/main.go:311-318 | `round` as written: trunc(v*10^prec + 0.5) / 10^prec |
| Rounding.RoundTruncNonNegative | cmd/adapter-modbus/main.go:316 | for v >= 0, `round` is floor(v*p + 0.5)/p, not negative, within half a unit of v |
| Rounding.RoundTruncIdempotent | cmd/adapter-modbus/main.go:311-318 | for v >= 0, rounding twice equals rounding once |
| Rounding.RoundTruncNegative | cmd/adapter-modbus/main.go:316 | -1 rounds to 0; -800 at one decimal gives -799.9; rounding -1.6 twice differs from once |
| Rounding.RoundAway | cmd/adapter-modbus/main.go:311-318 | the corrected helper, with the same loop, computes round half away from zero |
| Rounding.RoundHalfAwayAgrees | cmd/adapter-modbus/main.go:316 | the corrected rule equals `round` for every v >= 0 |
| Rounding.RoundHalfAwayOdd | cmd/adapter-modbus/main.go:316 | the corrected rule is symmetric: -v rounds to minus the rounding of v |
| Rounding.RoundHalfAwayError | cmd/adapter-modbus/main.go:316 | the corrected result is within half a unit in the last place of v |
| Rounding.RoundHalfAwayIdempotent | cmd/adapter-modbus/main.go:311-318 | the corrected rule is idempotent for every v |
| Adapter.SetNum | cmd/adapter-modbus/main.go:50-52 | a nil `*float64` field is omitted, a set one is written as its number |
| Adapter.EncodeState | cmd/adapter-modbus/main.go:46-53 | a SensorState always encodes |
| Adapter.EncodeStateFields | cmd/adapter-modbus/main.go:46-53 | ts and cap always; unit iff not empty; value, power_w, energy_kwh iff they are not nil; no other key |
| Adapter.EncodeStateInjective | cmd/adapter-modbus/main.go:46-53 | different states have different payloads |
| Adapter.TickShape | cmd/adapter-modbus/main.go:90-177 | a tick emits at most three events, all stamped with the one `now`, in the order frequency, voltage, energy.meter |
| Adapter.TickRequests | cmd/adapter-modbus/main.go:96-165 | a tick reads frequency, then voltage, then power and energy only where their address is not 0 |
| Adapter.TickFrequency | cmd/adapter-modbus/main.go:95-113 | one frequency event, in Hz at two decimals, iff the read succeeds |
| Adapter.TickVoltage | cmd/adapter-modbus/main.go:115-133 | one voltage event, in V at one decimal, iff the read succeeds |
| Adapter.TickEnergy | cmd/adapter-modbus/main.go:135-177 | at most one energy.meter event, iff a mapped optional read succeeds; power_w iff the power read did, energy_kwh iff the energy read did; never unit or value |
| Adapter.TickNonNegativeAgrees | cmd/adapter-modbus/main.go:105-160 | while no reading is negative, the tick with `round` as written equals the tick rounding half away from zero |
| Adapter.TickNegativePower | cmd/adapter-modbus/main.go:145-147 | a power reading of -800 W is published as -799.9 by `round` and as -800 by the corrected rule |
| Adapter.TickWithoutOptionalRegisters | cmd/adapter-modbus/main.go:139-165 | with both optional addresses 0 only two registers are read and no energy.meter event is emitted |
| Adapter.StateMessages | cmd/adapter-modbus/main.go:187-192 | one state message per event, in order |
| Adapter.AdapterMeta | cmd/adapter-modbus/main.go:68-73 | caps are exactly frequency, voltage, energy.meter |
| Adapter.PollRequestsLength | cmd/adapter-modbus/main.go:88-179 | every tick issues the same number of reads, so n ticks issue n times as many |
| Adapter.WrapInt64 | cmd/adapter-modbus/main.go:85 | an int64 result lies in the int64 range, is congruent to the exact value modulo 2^64, and is exact when that is in range |
| Adapter.TickerPeriodSign | cmd/adapter-modbus/main.go:85 | up to 9223372036 seconds either way, the ticker period is not positive exactly when INTERVAL_SEC is not; 9223372037 wraps to a negative period |
| Adapter.PollsAreStateMessages | cmd/adapter-modbus/main.go:88-179 | every message of the ticks goes to the state topic, QoS 1, not retained; the meta is never re-sent |
| Adapter.AtoiOr | cmd/adapter-modbus/main.go:229-234 | the parsed value, or the default when Atoi fails |
| Adapter.LoadEnv | cmd/adapter-modbus/main.go:222-302 | the settings: env or default per field, case-normalised mode and parity, the default register map unless MODBUS_MAP_JSON parses |
| Adapter.SettingsUnset | cmd/adapter-modbus/main.go:236-289 | with nothing set, every documented default, including the CW100 register map |
| Adapter.SettingsNumber | cmd/adapter-modbus/main.go:243-250 | a numeric setting falls back to its default when unset or unparseable |
| Adapter.SettingsMapOverride | cmd/adapter-modbus/main.go:291-299 | MODBUS_MAP_JSON replaces the whole map iff set and parseable |
| Adapter.MainHandler.PublishEvent | cmd/adapter-modbus/main.go:182-193 | an unencodable payload fails with "failed to marshal payload" and publishes nothing; any other is published once to smh/<device><path>, QoS 1, not retained |
| Adapter.MainHandler.AnnounceMeta | cmd/adapter-modbus/main.go:67-76 | exactly the meta message is published |
| Adapter.MainHandler.PublishState | cmd/adapter-modbus/main.go:108-112 | the event's state message is published; a publish error is only logged |
| Adapter.MainHandler.PollRequired | cmd/adapter-modbus/main.go:95-133 | one read, answered as the device answers that request; the event, rounded by `round` as written, published iff it succeeds |
| Adapter.MainHandler.ReadOptional | cmd/adapter-modbus/main.go:139-165 | read only when mapped; the value rounded by `round` as written iff the read succeeds |
| Adapter.MainHandler.PollOptional | cmd/adapter-modbus/main.go:135-177 | the mapped optional reads in order, and the merged energy.meter event iff one succeeded |
| Adapter.MainHandler.PollOnce | cmd/adapter-modbus/main.go:90-177 | one tick issues TickRequests and publishes the messages of TickStates, as written, over the answers to its own requests |
| Adapter.MainHandler.PollEach | cmd/adapter-modbus/main.go:88-179 | over a sequence of ticks, the reads and publications of each tick in turn, each tick reading the answers to the requests after the earlier ticks' |
| Adapter.MainHandler.Handle | cmd/adapter-modbus/main.go:63-180 | the settings are loaded and the meta announced once; if the ticker period is not positive time.NewTicker panics and nothing is read; otherwise every tick is polled |
| Adapter.MainHandler.Run | cmd/adapter-modbus/main.go:67-180 | after loading: the meta once, then the panic on a period that is not positive, or every tick polled |
| Runner.RequiredPayload | cmd/adapter-modbus/runner.go:18-24 | the runner's frequency or voltage map equals the ticker loop's SensorState encoding |
| Runner.EnergyPayload | cmd/adapter-modbus/runner.go:27-40 | the runner's energy map equals the merged energy.meter encoding |
| Runner.PublishRequired | cmd/adapter-modbus/runner.go:17-25 | one read; one state message, rounded by `round` as written, iff it succeeds |
| Runner.PublishEnergy | cmd/adapter-modbus/runner.go:27-43 | power_w and energy_kwh added as their mapped reads succeed; published iff one did |
| Runner.PublishOnce | cmd/adapter-modbus/runner.go:15-44 | the same reads and the same state messages as one tick of the ticker loop |
| Runner.ExampleCycle | cmd/adapter-modbus/runner_test.go:40-71 | raw 5000/100, 2300/10, 800/1, 12345/100 give exactly 50 Hz, 230 V and energy.meter with 800 W and 123.45 kWh |
| Ha.OmitEmpty | internal/ha/discovery.go:19-21 | an empty string field is omitted, any other is written |
| Ha.EncodeDeviceFields | internal/ha/discovery.go:8-13 | each device field is present iff not empty; no other key; always encodable |
| Ha.FieldsAt | internal/ha/discovery.go:15-26 | the struct encoding has exactly the keys of the written fields, with their values |
| Ha.FieldsAlways | internal/ha/discovery.go:16-18 | name, unique_id and state_topic are always written, even empty |
| Ha.FieldsTemplate | internal/ha/discovery.go:19 | value_template iff not empty |
| Ha.FieldsClassUnit | internal/ha/discovery.go:20-21 | device_class and unit_of_measurement iff not empty |
| Ha.FieldsDevice | internal/ha/discovery.go:22 | device iff not nil, as its own encoding |
| Ha.FieldsQosAvailability | internal/ha/discovery.go:23-24 | qos iff not 0; availability iff not empty |
| Ha.FieldsEncodable | internal/ha/discovery.go:28-34 | the struct alone always marshals |
| Ha.EncodedPlain | internal/ha/discovery.go:35-45 | without Extra, Marshal succeeds with exactly the struct encoding |
| Ha.EncodedMerge | internal/ha/discovery.go:35-43 | with Extra: keys are base ∪ Extra, Extra wins collisions, other base fields unchanged, error iff an Extra value cannot be encoded |
| Ha.Merge | internal/ha/discovery.go:40-42 | the loop writes every Extra entry over the base map |
| Ha.Marshal | internal/ha/discovery.go:28-46 | Marshal's steps produce the encoding above |
| Ha.TopicSensorConfigParts | internal/ha/discovery.go:48-50 | the topic is the prefix, the unique id, "/", the metric, "/config", in that order |
| Ha.TopicSensorConfigInjective | internal/ha/discovery.go:48-50 | for unique ids without '/', distinct (metric, unique id) pairs get distinct topics |
| CoreSanitize.DropRun | cmd/smh-core/main.go:119-120 | never longer; what is left starts with a word character |
| CoreSanitize.DropRunSuffix | cmd/smh-core/main.go:119-120 | only a prefix of non-word characters is dropped |
| CoreSanitize.Replace | cmd/smh-core/main.go:119-120 | never longer; only characters of [a-zA-Z0-9_] |
| CoreSanitize.ReplaceWords | cmd/smh-core/main.go:119-120 | word characters are kept in order |
| CoreSanitize.ReplaceRun | cmd/smh-core/main.go:119-120 | a maximal run of other characters becomes exactly one "_" |
| CoreSanitize.Sanitize | cmd/smh-core/main.go:118-121 | the output uses only [a-z0-9_] and is never longer than the input |
| CoreSanitize.SanitizeIdempotent | cmd/smh-core/main.go:118-121 | sanitizing twice is sanitizing once |
| CoreSanitize.ReplaceExample | cmd/smh-core/main.go:119-120 | "cw100.Inverter#1" becomes "cw100_Inverter_1" before lower-casing |
| CoreSanitize.SanitizeExample | cmd/smh-core/main.go:118-121 | "cw100.Inverter#1" becomes "cw100_inverter_1" |
| SmhCore.CapConfigs | cmd/smh-core/main.go:58-102 | energy.meter gives two configs, the frequency and voltage sensors one each, anything else none; each on the adapter's state topic with a unique id that extends the given one |
| SmhCore.ConfigsCount | cmd/smh-core/main.go:57-103 | 2 configs per energy.meter cap, 1 per frequency or voltage cap, none otherwise; no dedup |
| SmhCore.DiscoveryForWellFormed | cmd/smh-core/main.go:50-101 | each metric's config: topic under the sanitized id, unique id suffix, raw-id name, adapter's state topic, shared device, device class only for power and energy |
| SmhCore.ConfigsWellFormed | cmd/smh-core/main.go:57-103 | every config of an announcement has that shape |
| SmhCore.TemplatesMatchAdapter | cmd/smh-core/main.go:64-97 | each value template tests the cap string the adapter writes and reads a field every such adapter event carries |
| SmhCore.PublicationsAppend | cmd/smh-core/main.go:107-116 | the publications of consecutive configs concatenate |
| SmhCore.PublicationsOfPlain | cmd/smh-core/main.go:107-116 | configs without Extra each give one retained QoS-1 message with their encoding |
| SmhCore.DiscoveryMessagesAll | cmd/smh-core/main.go:48-116 | every config of an announcement is published, in order, retained, QoS 1 |
| SmhCore.AdapterMetaDecodes | cmd/smh-core/main.go:33-39 | the hub decodes the adapter's announcement unchanged |
| SmhCore.AdapterDiscovery | cmd/smh-core/main.go:57-103 | the adapter's announcement yields frequency, voltage, power and energy configs, in that order |
| SmhCore.PubCfg | cmd/smh-core/main.go:107-116 | a config that fails to marshal is skipped; any other is published retained with QoS 1 |
| SmhCore.PublishCap | cmd/smh-core/main.go:58-102 | the switch on one capability publishes that capability's configs |
| SmhCore.PublishCaps | cmd/smh-core/main.go:57-103 | the loop publishes the configs of every capability in order |
| SmhCore.PublishDiscovery | cmd/smh-core/main.go:48-105 | publishDiscovery publishes the announcement's discovery messages under the sanitized id |
| SmhCore.OnMeta | cmd/smh-core/main.go:33-40 | an undecodable payload publishes nothing; any other starts publishDiscovery |

## Left out

- Transports: the goburrow RTU/TCP handlers, `NewHandler`, paho client construction, `NewClient`, `New`, Subscribe and Disconnect. They are replaced by the two interface classes. `handler.Close`, which always returns nil, is not modelled.
- Dependency wiring (`wire.go` in both commands) and `main`: they only construct the handlers.
- Time: the ticker, `time.Now` and the `select {}` wait. `MainHandler.Handle` is modelled over a finite sequence of tick clock readings. The panic of `time.NewTicker` is modelled as the run stopping; the deferred Close and Disconnect it triggers are not modelled. The runner's `nowUnix` is a parameter.
- Concurrency: paho's callback goroutines are not modelled. `SmhCore.OnMeta` is one callback invocation.
- Floating point: register values, scales and rounding are exact reals. `int()` overflow of huge values and NaN/Inf are not modelled.
- ModbusClient.ReadFloat: requires a non-zero scale, because Go's division by zero yields an infinity or NaN, which the reals cannot express.
- JSON bytes: payloads are objects. Key order, whitespace, number formatting and syntax errors are not modelled. `json.Unmarshal` of MODBUS_MAP_JSON is a `parseMap` parameter, and the meta payload arrives already parsed as a `Json` value. Unmarshal's case-insensitive key matching is not modelled.
- GoText.ToLower, GoText.ToUpper: ASCII letters only. This is exact for `sanitize`, whose regexp keeps only ASCII; for `MODBUS_MODE` and `MODBUS_PARITY` a non-ASCII letter would be mapped by Go but is kept here.
- Adapter.MainHandler.PublishEvent: the error text is "failed to marshal payload" without the wrapped json.Marshal error that `%w` appends.
- Logging: `log.Printf` has no modelled effect. Publish errors are returned where the source returns them and otherwise dropped, as the source does after logging.
- Broker behaviour beyond accepting or refusing a publish: QoS delivery and retention at the broker are not modelled.
- The hub's own `getenv` of MQTT_URL and CLIENT_ID and its connection set-up: a `Publisher` stands for the connection.
- MqttClient.LoadConfigFromEnv: errors are constructors. The error texts are not modelled, in particular the `%q` quoting in the MQTT_TLS message.

## Findings

| source | as written | input that shows it | evidently intended | confidence | as-written member | corrected member |
|---|---|---|---|---|---|---|
| cmd/adapter-modbus/main.go:316 | `float64(int(v*p+0.5)) / p` truncates toward zero after adding +0.5, so negative values round toward +∞ by up to one unit | `round(-1, 0)` is 0; `round(-800, 1)` is -799.9 W; `round(-1.6, 0)` is -1 but rounding that again gives 0 | round half away from zero (add ±0.5 with the sign of v), which is idempotent and within half a unit for every value | not executed | Rounding.RoundTruncNegative | Rounding.RoundHalfAwayIdempotent |
