/**
 * The reading extraction in `run` of inkbird2mqtt.py: bytes 0-1 of the
 * characteristic are the temperature, bytes 2-3 the humidity (both through
 * the value decoder), byte 4 says which probe measured. Later bytes (the
 * battery level among them) are never read.
 */
module ReadingParser {

  import opened Wrappers
  import opened ValueDecoder

  /** The sensor tag, written out as "internal", "external" or "unknown". */
  datatype Sensor = Internal | External | Unknown

  /** The tag for byte 4: 0 is the internal probe, 1 the external one, anything else unknown. */
  function SensorOf(code: byte): (s: Sensor)
    ensures s == Internal <==> code == 0
    ensures s == External <==> code == 1
    ensures s == Unknown <==> code >= 2
  {
    if code == 0 then Internal else if code == 1 then External else Unknown
  }

  function SensorName(s: Sensor): (name: string)
    ensures '"' !in name
  {
    match s
    case Internal => "internal"
    case External => "external"
    case Unknown => "unknown"
  }

  /** Temperature and humidity in hundredths, and the probe that measured. */
  datatype Reading = Reading(temperature: int, humidity: int, sensor: Sensor)

  /** The only way the extraction fails: indexing past the end of a short payload. */
  datatype ParseError = IndexError

  /**
   * The extraction of lines 51-53. With fewer than five bytes one of the
   * index operations raises an IndexError, which the source does not catch.
   */
  function Parse(raw: seq<byte>): (r: Result<Reading, ParseError>)
    ensures r.Ok? <==> |raw| >= 5
    ensures r.Ok? ==> InRange(r.value.temperature) && InRange(r.value.humidity)
  {
    if |raw| < 5 then Err(IndexError)
    else Ok(Reading(FloatValue(raw[0..2]), FloatValue(raw[2..4]), SensorOf(raw[4])))
  }

  predicate Encodable(rd: Reading) {
    InRange(rd.temperature) && InRange(rd.humidity)
  }

  /** A sensor code byte for each tag; 2 stands for every code above 1. */
  function SensorCode(s: Sensor): (code: byte)
    ensures SensorOf(code) == s
  {
    match s
    case Internal => 0
    case External => 1
    case Unknown => 2
  }

  /** The five-byte characteristic a device would send for a reading. */
  function Serialize(rd: Reading): (raw: seq<byte>)
    requires Encodable(rd)
    ensures |raw| == 5
  {
    Encode(rd.temperature) + Encode(rd.humidity) + [SensorCode(rd.sensor)]
  }

  /** Serializing a reading and appending anything gives back that reading. */
  lemma ParseSerialize(rd: Reading, rest: seq<byte>)
    requires Encodable(rd)
    ensures Parse(Serialize(rd) + rest) == Ok(rd)
  {
    var raw := Serialize(rd) + rest;
    assert raw[0..2] == Encode(rd.temperature);
    assert raw[2..4] == Encode(rd.humidity);
    DecodeEncode(rd.temperature);
    DecodeEncode(rd.humidity);
  }

  /**
   * A parsed reading serializes back to the first four bytes it came from,
   * to a sensor code with the same tag, and to the very same five bytes
   * when the sensor code is 0 or 1.
   */
  lemma SerializeParse(raw: seq<byte>)
    requires |raw| >= 5
    ensures Parse(raw).Ok? && Encodable(Parse(raw).value)
    ensures Serialize(Parse(raw).value)[..4] == raw[..4]
    ensures SensorOf(Serialize(Parse(raw).value)[4]) == SensorOf(raw[4])
    ensures raw[4] <= 1 ==> Serialize(Parse(raw).value) == raw[..5]
  {
    var rd := Parse(raw).value;
    assert rd.temperature == FloatValue([raw[0], raw[1]]) by {
      assert raw[0..2] == [raw[0], raw[1]];
    }
    assert rd.humidity == FloatValue([raw[2], raw[3]]) by {
      assert raw[2..4] == [raw[2], raw[3]];
    }
    EncodeDecode(raw[0], raw[1]);
    EncodeDecode(raw[2], raw[3]);
    var s := Serialize(rd);
    assert s == [raw[0], raw[1], raw[2], raw[3], SensorCode(rd.sensor)];
    assert raw[..4] == [raw[0], raw[1], raw[2], raw[3]];
    assert raw[..5] == raw[..4] + [raw[4]];
  }

  /** Bytes from index 5 on never affect the reading. */
  lemma ParseIgnoresTail(a: seq<byte>, b: seq<byte>)
    requires |a| >= 5 && |b| >= 5 && a[..5] == b[..5]
    ensures Parse(a) == Parse(b)
  {
    assert a[0..2] == a[..5][0..2] == b[0..2];
    assert a[2..4] == a[..5][2..4] == b[2..4];
    assert a[4] == a[..5][4];
  }

  /**
   * Each field depends on its own bytes only: the temperature on bytes 0-1,
   * the humidity on bytes 2-3, the sensor tag on byte 4.
   */
  lemma FieldsAreLocal(a: seq<byte>, b: seq<byte>)
    requires |a| >= 5 && |b| >= 5
    ensures a[0..2] == b[0..2] ==> Parse(a).value.temperature == Parse(b).value.temperature
    ensures a[2..4] == b[2..4] ==> Parse(a).value.humidity == Parse(b).value.humidity
    ensures a[4] == b[4] ==> Parse(a).value.sensor == Parse(b).value.sensor
  {
  }

  /** Two sample characteristics: positive values read by the internal probe, the most negative ones by the external. */
  lemma Scenarios()
    ensures Parse([0x10, 0x00, 0x20, 0x00, 0x00, 0x50]) == Ok(Reading(16, 32, Internal))
    ensures Parse([0x00, 0xFF, 0x00, 0xFF, 0x01, 0x00]) == Ok(Reading(-256, -256, External))
  {
    var a: seq<byte> := [0x10, 0x00, 0x20, 0x00, 0x00, 0x50];
    assert a[0..2] == [0x10, 0x00] && a[2..4] == [0x20, 0x00];
    var b: seq<byte> := [0x00, 0xFF, 0x00, 0xFF, 0x01, 0x00];
    assert b[0..2] == [0x00, 0xFF] && b[2..4] == [0x00, 0xFF];
  }
}
