/**
 * `get_readings` and `run` of inkbird2mqtt.py: one BLE read, then either an
 * early return or one MQTT publish of the decoded reading.
 *
 * The BLE transport is an input: the bytes `readCharacteristic(0x28)`
 * returned, or None when connecting or reading raised. The clock is the
 * formatted timestamp, `str(float)` the function `render`. The MQTT
 * library is a client object talking to a Broker object whose `log`
 * records every publish it receives.
 */
module Pipeline {

  import opened Wrappers
  import opened ValueDecoder
  import opened ReadingParser
  import opened Payload

  /** The imported configuration, fixed for the whole run. */
  datatype Config = Config(
    mac: string,
    mqttHost: string,
    mqttPort: int,
    mqttUser: string,
    mqttPass: string,
    mqttClient: string,
    mqttTopic: string)

  /** What `get_readings` returns: the characteristic's bytes, or False. */
  datatype Readings = NoReadings | Bytes(data: seq<byte>)

  /** Any exception of the transport becomes False; otherwise its bytes are passed on unchanged. */
  function GetReadings(ble: Option<seq<byte>>): (r: Readings)
    ensures r.NoReadings? <==> ble.None?
    ensures r.Bytes? ==> r.data == ble.value
  {
    match ble
    case None => NoReadings
    case Some(data) => Bytes(data)
  }

  /** `not readings`: False and the empty byte string are both falsy. */
  predicate Falsy(r: Readings) {
    r.NoReadings? || |r.data| == 0
  }

  /** The MQTT quality of service of the publish: at least once. */
  const AtLeastOnce: int := 1

  datatype Message = Message(topic: string, payload: string, qos: int)

  /** The broker at the configured host and port; `online` says whether a connect succeeds. */
  class Broker {
    var online: bool
    var log: seq<Message>

    constructor (online: bool)
      ensures this.online == online && log == []
    {
      this.online := online;
      log := [];
    }
  }

  /** `mqtt.Client`: the calls `run` makes on it, in its order. */
  class MqttClient {
    const clientId: string
    var username: string
    var password: string
    var host: string
    var port: int
    var broker: Broker?

    constructor (clientId: string)
      ensures this.clientId == clientId && broker == null
      ensures username == "" && password == ""
    {
      this.clientId := clientId;
      username, password := "", "";
      host, port := "", 0;
      broker := null;
    }

    /** `username_pw_set`: stores the credentials for the connect. */
    method UsernamePwSet(user: string, pass: string)
      modifies this
      ensures username == user && password == pass
      ensures broker == old(broker) && host == old(host) && port == old(port)
    {
      username, password := user, pass;
    }

    /** `connect`: succeeds when the broker is online; the source lets a failure raise. */
    method Connect(b: Broker, host: string, port: int) returns (ok: bool)
      modifies this
      ensures ok == b.online
      ensures ok ==> broker == b && this.host == host && this.port == port
      ensures !ok ==> broker == old(broker)
      ensures username == old(username) && password == old(password)
    {
      ok := b.online;
      if ok {
        broker, this.host, this.port := b, host, port;
      }
    }

    /** `publish`: the broker receives one message with this topic, payload and QoS. */
    method Publish(topic: string, payload: string, qos: int)
      requires broker != null
      modifies broker
      ensures broker.log == old(broker.log) + [Message(topic, payload, qos)]
      ensures broker.online == old(broker.online)
    {
      broker.log := broker.log + [Message(topic, payload, qos)];
    }
  }

  /** How one run ends. The two crashes are exceptions the source does not catch. */
  datatype Outcome =
    | NoData
    | ParseCrash(error: ParseError)
    | ConnectCrash
    | Published(msg: Message)

  /**
   * What `run` does, as a value: no data when the read is falsy, a crash on
   * a payload shorter than five bytes or a broker that refuses the
   * connection, otherwise one message on `mqtt_topic + mac` with QoS 1.
   */
  function RunSpec(cfg: Config, ble: Option<seq<byte>>, now: string, render: int -> string, online: bool): (o: Outcome)
    ensures o.NoData? <==> ble.None? || ble.value == []
    ensures o.ParseCrash? <==> ble.Some? && 0 < |ble.value| < 5
    ensures o.Published? <==> ble.Some? && |ble.value| >= 5 && online
    ensures o.Published? ==> o.msg.topic == cfg.mqttTopic + cfg.mac && o.msg.qos == AtLeastOnce
    ensures o.Published? ==> o.msg.payload == MsgData(now, Parse(ble.value).value, render)
  {
    var readings := GetReadings(ble);
    if Falsy(readings) then NoData
    else
      match Parse(readings.data)
      case Err(e) => ParseCrash(e)
      case Ok(rd) =>
        if !online then ConnectCrash
        else Published(Message(cfg.mqttTopic + cfg.mac, MsgData(now, rd, render), AtLeastOnce))
  }

  /**
   * `run`: read, return early on a falsy read, extract the reading, build
   * the payload, then connect and publish once. The broker's log grows by
   * exactly the published message, and by nothing on every other path.
   */
  method Run(cfg: Config, ble: Option<seq<byte>>, now: string, render: int -> string, broker: Broker)
    returns (outcome: Outcome)
    modifies broker
    ensures outcome == RunSpec(cfg, ble, now, render, old(broker.online))
    ensures broker.log == old(broker.log) + (if outcome.Published? then [outcome.msg] else [])
    ensures broker.online == old(broker.online)
  {
    var readings := GetReadings(ble);
    if Falsy(readings) {
      return NoData;
    }
    var parsed := Parse(readings.data);
    if parsed.Err? {
      return ParseCrash(parsed.error);
    }
    var rd := parsed.value;
    var msgData := MsgData(now, rd, render);
    var mqttc := new MqttClient(cfg.mqttClient);
    mqttc.UsernamePwSet(cfg.mqttUser, cfg.mqttPass);
    var connected := mqttc.Connect(broker, cfg.mqttHost, cfg.mqttPort);
    if !connected {
      return ConnectCrash;
    }
    mqttc.Publish(cfg.mqttTopic + cfg.mac, msgData, AtLeastOnce);
    outcome := Published(Message(cfg.mqttTopic + cfg.mac, msgData, AtLeastOnce));
  }

  /**
   * A device that sends the five bytes of a reading, followed by anything,
   * gets exactly that reading published, under the configured topic.
   */
  lemma PublishesSentReading(cfg: Config, rd: Reading, tail: seq<byte>, now: string, render: int -> string)
    requires Encodable(rd)
    ensures RunSpec(cfg, Some(Serialize(rd) + tail), now, render, true)
      == Published(Message(cfg.mqttTopic + cfg.mac, MsgData(now, rd, render), AtLeastOnce))
  {
    ParseSerialize(rd, tail);
  }

  /**
   * The published payload reads back as the run's timestamp, the rendered
   * temperature and humidity of bytes 0-3 and the tag of byte 4.
   */
  lemma PublishedPayloadReadsBack(cfg: Config, raw: seq<byte>, now: string, render: int -> string)
    requires |raw| >= 5 && Timestamp(now)
    requires FloatText(render(FloatValue(raw[0..2]))) && FloatText(render(FloatValue(raw[2..4])))
    ensures RunSpec(cfg, Some(raw), now, render, true).Published?
    ensures ParseMsgData(RunSpec(cfg, Some(raw), now, render, true).msg.payload)
      == Some(MsgFields(now, render(FloatValue(raw[0..2])), render(FloatValue(raw[2..4])), SensorName(SensorOf(raw[4]))))
  {
    ParseMsgDataRoundTrip(now, Parse(raw).value, render);
  }
}
