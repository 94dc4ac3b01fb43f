/**
 * The MQTT payload of inkbird2mqtt.py: a JSON object built by string
 * concatenation with the keys time, temperature, humidity and sensor, in
 * that order. Python's `str(float)` of a measurement is left abstract: the
 * model takes it as a function `render` from hundredths to text.
 */
module Payload {

  import opened Wrappers
  import opened ReadingParser

  /**
   * `msg_data` of lines 66-76: the timestamp and the sensor name quoted, the
   * two measurements as rendered numbers, nothing escaped.
   */
  function MsgData(time: string, rd: Reading, render: int -> string): string {
    "{\"time\":\"" + time
    + "\",\"temperature\":" + render(rd.temperature)
    + ",\"humidity\":" + render(rd.humidity)
    + ",\"sensor\":\"" + SensorName(rd.sensor)
    + "\"}"
  }

  // A JSON object writer, with the string escaping JSON requires: the
  // reference the concatenation is held to.

  datatype Json = JString(text: string) | JNumber(digits: string)

  function HexDigit(d: int): char
    requires 0 <= d < 16
  {
    if d < 10 then ('0' as int + d) as char else ('a' as int + d - 10) as char
  }

  /** One character inside a JSON string: quote and backslash escaped, control characters as `\u00XX`. */
  function EscapeChar(c: char): string {
    if c == '"' then "\\\""
    else if c == '\\' then "\\\\"
    else if c < ' ' then "\\u00" + [HexDigit(c as int / 16), HexDigit(c as int % 16)]
    else [c]
  }

  function Escape(s: string): string
    decreases |s|
  {
    if |s| == 0 then "" else EscapeChar(s[0]) + Escape(s[1..])
  }

  /** Text that JSON lets stand inside a string unchanged. */
  predicate PlainText(s: string) {
    forall c :: c in s ==> c != '"' && c != '\\' && c >= ' '
  }

  /** Escaping leaves plain text as it is. */
  lemma {:induction false} EscapePlainText(s: string)
    requires PlainText(s)
    ensures Escape(s) == s
  {
    if |s| > 0 {
      assert s[0] in s;
      assert PlainText(s[1..]) by {
        forall c | c in s[1..] ensures c in s { }
      }
      EscapePlainText(s[1..]);
      assert [s[0]] + s[1..] == s;
    }
  }

  /** Escaping changes any text that holds a quote, a backslash or a control character. */
  lemma {:induction false} EscapeChangesOthers(s: string)
    requires !PlainText(s)
    ensures Escape(s) != s
    ensures |Escape(s)| > |s|
    decreases |s|
  {
    EscapeLength(s);
    var c :| c in s && !(c != '"' && c != '\\' && c >= ' ');
    var k :| 0 <= k < |s| && s[k] == c;
    EscapeLengthStrict(s, k);
  }

  lemma {:induction false} EscapeLength(s: string)
    ensures |Escape(s)| >= |s|
    decreases |s|
  {
    if |s| > 0 {
      EscapeLength(s[1..]);
    }
  }

  lemma {:induction false} EscapeLengthStrict(s: string, k: nat)
    requires k < |s| && !(s[k] != '"' && s[k] != '\\' && s[k] >= ' ')
    ensures |Escape(s)| > |s|
    decreases |s|
  {
    if k == 0 {
      EscapeLength(s[1..]);
    } else {
      EscapeLengthStrict(s[1..], k - 1);
    }
  }

  function JsonValue(v: Json): string {
    match v
    case JString(text) => "\"" + Escape(text) + "\""
    case JNumber(digits) => digits
  }

  function JsonMember(field: (string, Json)): string {
    "\"" + field.0 + "\":" + JsonValue(field.1)
  }

  /** The members of an object, `"key":value`, separated by commas. */
  function JsonMembers(fields: seq<(string, Json)>): string
    decreases |fields|
  {
    if |fields| == 0 then ""
    else if |fields| == 1 then JsonMember(fields[0])
    else JsonMember(fields[0]) + "," + JsonMembers(fields[1..])
  }

  function JsonObject(fields: seq<(string, Json)>): string {
    "{" + JsonMembers(fields) + "}"
  }

  /** The four fields of the payload, in the order the source writes them. */
  function Fields(time: string, rd: Reading, render: int -> string): (fields: seq<(string, Json)>)
    ensures |fields| == 4
    ensures fields[0].0 == "time" && fields[1].0 == "temperature"
    ensures fields[2].0 == "humidity" && fields[3].0 == "sensor"
  {
    [("time", JString(time)),
     ("temperature", JNumber(render(rd.temperature))),
     ("humidity", JNumber(render(rd.humidity))),
     ("sensor", JString(SensorName(rd.sensor)))]
  }

  lemma FourMembers(f: seq<(string, Json)>)
    requires |f| == 4
    ensures JsonMembers(f)
      == JsonMember(f[0]) + "," + (JsonMember(f[1]) + "," + (JsonMember(f[2]) + "," + JsonMember(f[3])))
  {
    assert f[1..][1..] == f[2..] && f[2..][1..] == f[3..];
    assert JsonMembers(f[3..]) == JsonMember(f[3]);
    assert JsonMembers(f[2..]) == JsonMember(f[2]) + "," + JsonMember(f[3]);
    assert JsonMembers(f[1..]) == JsonMember(f[1]) + "," + JsonMembers(f[2..]);
  }

  lemma TimestampIsPlain(s: string)
    requires Timestamp(s)
    ensures PlainText(s)
  {
    forall c | c in s
      ensures c != '"' && c != '\\' && c >= ' '
    {
      var i :| 0 <= i < |s| && s[i] == c;
    }
  }

  lemma SensorNameIsPlain(s: Sensor)
    ensures PlainText(SensorName(s))
  {
  }

  /**
   * For a timestamp of the strftime shape, the concatenation is exactly the
   * JSON object with those four members: escaping the timestamp and the
   * sensor name changes nothing.
   */
  lemma MsgDataIsJsonObject(time: string, rd: Reading, render: int -> string)
    requires Timestamp(time)
    ensures MsgData(time, rd, render) == JsonObject(Fields(time, rd, render))
  {
    var f := Fields(time, rd, render);
    var t, h, name := render(rd.temperature), render(rd.humidity), SensorName(rd.sensor);
    TimestampIsPlain(time);
    SensorNameIsPlain(rd.sensor);
    EscapePlainText(time);
    EscapePlainText(name);
    FourMembers(f);
    var inner := JsonMembers(f);
    assert JsonMember(f[0]) == "\"" + "time" + "\":" + ("\"" + time + "\"");
    assert JsonMember(f[3]) == "\"" + "sensor" + "\":" + ("\"" + name + "\"");
    Regroup(time, t, h, name);
  }

  /** Rewrites the object writer's nesting of pieces into the source's flat concatenation. */
  lemma Regroup(time: string, t: string, h: string, name: string)
    ensures "{" + (("\"" + "time" + "\":" + ("\"" + time + "\"")) + ","
      + (("\"" + "temperature" + "\":" + t) + ","
      + (("\"" + "humidity" + "\":" + h) + ","
      + ("\"" + "sensor" + "\":" + ("\"" + name + "\""))))) + "}"
      == "{\"time\":\"" + time + "\",\"temperature\":" + t + ",\"humidity\":" + h + ",\"sensor\":\"" + name + "\"}"
  {
    var m0 := "\"" + "time" + "\":" + ("\"" + time + "\"");
    var m1 := "\"" + "temperature" + "\":" + t;
    var m2 := "\"" + "humidity" + "\":" + h;
    var m3 := "\"" + "sensor" + "\":" + ("\"" + name + "\"");
    // The closing brace moves inwards, one member at a time.
    var y3 := ",\"sensor\":\"" + (name + "\"}");
    SensorTail(name);
    var y2 := ",\"humidity\":" + (h + y3);
    Shift(",", m2, m3, "}");
    NumberTail("humidity", ",\"humidity\":", h, y3);
    var y1 := ",\"temperature\":" + (t + y2);
    Shift(",", m1, m2 + "," + m3, "}");
    NumberTail("temperature", ",\"temperature\":", t, y2);
    Shift("{", m0, m1 + "," + (m2 + "," + m3), "}");
    TimeHead(time, t, y2);
    Flatten("{\"time\":\"", time, "\",\"temperature\":", t, ",\"humidity\":", h, ",\"sensor\":\"", name, "\"}");
  }

  lemma SensorTail(name: string)
    ensures "," + ("\"" + "sensor" + "\":" + ("\"" + name + "\"")) + "}" == ",\"sensor\":\"" + (name + "\"}")
  {
    assert "," + ("\"" + "sensor" + "\":" + ("\"" + name + "\"")) == ",\"sensor\":\"" + name + "\"";
  }

  /** A member `"key":value` after its comma, followed by the rest of the object. */
  lemma NumberTail(key: string, lead: string, v: string, rest: string)
    requires lead == ",\"" + key + "\":"
    ensures "," + ("\"" + key + "\":" + v) + rest == lead + (v + rest)
  {
    assert "," + ("\"" + key + "\":" + v) == ",\"" + key + "\":" + v;
  }

  lemma TimeHead(time: string, t: string, y2: string)
    ensures "{" + ("\"" + "time" + "\":" + ("\"" + time + "\"")) + (",\"temperature\":" + (t + y2))
      == "{\"time\":\"" + (time + ("\",\"temperature\":" + (t + y2)))
  {
    var r := t + y2;
    assert "{" + ("\"" + "time" + "\":" + ("\"" + time + "\"")) == "{\"time\":\"" + time + "\"";
    assert "\"" + (",\"temperature\":" + r) == "\",\"temperature\":" + r;
  }

  /** Moving the text after a member list inside its last comma. */
  lemma Shift(open: string, m: string, rest: string, close: string)
    ensures open + (m + "," + rest) + close == open + m + ("," + rest + close)
  {
  }

  /** A right-nested concatenation of nine pieces equals the left-nested one. */
  lemma Flatten(a1: string, a2: string, a3: string, a4: string, a5: string, a6: string, a7: string, a8: string, a9: string)
    ensures a1 + (a2 + (a3 + (a4 + (a5 + (a6 + (a7 + (a8 + a9)))))))
      == a1 + a2 + a3 + a4 + a5 + a6 + a7 + a8 + a9
  {
    var r8 := a8 + a9;
    var r7 := a7 + r8;
    var r6 := a6 + r7;
    var r5 := a5 + r6;
    var r4 := a4 + r5;
    var r3 := a3 + r4;
    var r2 := a2 + r3;
    assert a1 + r2 == a1 + a2 + r3;
    assert a1 + a2 + r3 == a1 + a2 + a3 + r4;
    assert a1 + a2 + a3 + r4 == a1 + a2 + a3 + a4 + r5;
    assert a1 + a2 + a3 + a4 + r5 == a1 + a2 + a3 + a4 + a5 + r6;
    assert a1 + a2 + a3 + a4 + a5 + r6 == a1 + a2 + a3 + a4 + a5 + a6 + r7;
    assert a1 + a2 + a3 + a4 + a5 + a6 + r7 == a1 + a2 + a3 + a4 + a5 + a6 + a7 + r8;
  }

  // Reading the payload back.

  /** Text that `str` of a finite float can produce: digits, sign, point, exponent. */
  predicate FloatText(s: string) {
    forall c :: c in s ==> c in "0123456789+-.e"
  }

  /** The shape of `strftime("%Y-%m-%d %H:%M:%S")`. */
  predicate Timestamp(s: string) {
    |s| == 19 &&
    forall i :: 0 <= i < 19 ==>
      if i == 4 || i == 7 then s[i] == '-'
      else if i == 10 then s[i] == ' '
      else if i == 13 || i == 16 then s[i] == ':'
      else '0' <= s[i] <= '9'
  }

  /** The payload's text fields, as they appear between its delimiters. */
  datatype MsgFields = MsgFields(time: string, temperature: string, humidity: string, sensor: string)

  /** `s` without the prefix `p`, if `s` starts with `p`. */
  function StripPrefix(p: string, s: string): (r: Option<string>)
    ensures r.Some? <==> |p| <= |s| && s[..|p|] == p
    ensures r.Some? ==> s == p + r.value
  {
    if |p| <= |s| && s[..|p|] == p then Some(s[|p|..]) else None
  }

  /** The text before the first `c` in `s` and the text after it. */
  function SplitAt(s: string, c: char): (r: Option<(string, string)>)
    ensures r.None? <==> c !in s
    ensures r.Some? ==> c !in r.value.0 && s == r.value.0 + [c] + r.value.1
  {
    if |s| == 0 then None
    else if s[0] == c then Some(([], s[1..]))
    else
      match SplitAt(s[1..], c)
      case None => None
      case Some((before, after)) => Some(([s[0]] + before, after))
  }

  lemma StripJoin(p: string, s: string)
    ensures StripPrefix(p, p + s) == Some(s)
  {
    assert (p + s)[..|p|] == p;
    assert (p + s)[|p|..] == s;
  }

  /** Splitting at the first `c` undoes putting `c` between a `c`-free text and anything. */
  lemma {:induction false} SplitJoin(before: string, c: char, after: string)
    requires c !in before
    ensures SplitAt(before + [c] + after, c) == Some((before, after))
  {
    var s := before + [c] + after;
    if |before| == 0 {
      assert s == [c] + after;
    } else {
      assert s[0] == before[0] && s[1..] == before[1..] + [c] + after;
      SplitJoin(before[1..], c, after);
      assert [before[0]] + before[1..] == before;
    }
  }

  /** The tail of the payload from the sensor key on: `"sensor":"<name>"}`. */
  function ParseSensor(rest: string): Option<string> {
    match StripPrefix("\"sensor\":\"", rest)
    case None => None
    case Some(r1) =>
      match SplitAt(r1, '"')
      case None => None
      case Some((sensor, r2)) => if r2 == "}" then Some(sensor) else None
  }

  /** The tail from the humidity key on: `"humidity":<number>,` then the sensor. */
  function ParseHumidity(rest: string): Option<(string, string)> {
    match StripPrefix("\"humidity\":", rest)
    case None => None
    case Some(r1) =>
      match SplitAt(r1, ',')
      case None => None
      case Some((humidity, r2)) =>
        match ParseSensor(r2)
        case None => None
        case Some(sensor) => Some((humidity, sensor))
  }

  /** The tail after the timestamp: `,"temperature":<number>,` then the humidity. */
  function ParseTemperature(rest: string): Option<(string, string, string)> {
    match StripPrefix(",\"temperature\":", rest)
    case None => None
    case Some(r1) =>
      match SplitAt(r1, ',')
      case None => None
      case Some((temperature, r2)) =>
        match ParseHumidity(r2)
        case None => None
        case Some((humidity, sensor)) => Some((temperature, humidity, sensor))
  }

  /** Takes the payload apart along its literal delimiters. */
  function ParseMsgData(msg: string): Option<MsgFields> {
    match StripPrefix("{\"time\":\"", msg)
    case None => None
    case Some(r1) =>
      match SplitAt(r1, '"')
      case None => None
      case Some((time, r2)) =>
        match ParseTemperature(r2)
        case None => None
        case Some((temperature, humidity, sensor)) => Some(MsgFields(time, temperature, humidity, sensor))
  }

  lemma TimestampHasNoQuote(s: string)
    requires Timestamp(s)
    ensures '"' !in s
  {
  }

  lemma ParseSensorRoundTrip(name: string)
    requires '"' !in name
    ensures ParseSensor("\"sensor\":\"" + name + "\"}") == Some(name)
  {
    assert "\"sensor\":\"" + name + "\"}" == "\"sensor\":\"" + (name + ['"'] + "}");
    StripJoin("\"sensor\":\"", name + ['"'] + "}");
    SplitJoin(name, '"', "}");
  }

  lemma ParseHumidityRoundTrip(h: string, name: string)
    requires ',' !in h && '"' !in name
    ensures ParseHumidity("\"humidity\":" + h + ",\"sensor\":\"" + name + "\"}") == Some((h, name))
  {
    var tail := "\"sensor\":\"" + name + "\"}";
    assert "\"humidity\":" + h + ",\"sensor\":\"" + name + "\"}" == "\"humidity\":" + (h + [','] + tail);
    StripJoin("\"humidity\":", h + [','] + tail);
    SplitJoin(h, ',', tail);
    ParseSensorRoundTrip(name);
  }

  lemma ParseTemperatureRoundTrip(t: string, h: string, name: string)
    requires ',' !in t && ',' !in h && '"' !in name
    ensures ParseTemperature(",\"temperature\":" + t + ",\"humidity\":" + h + ",\"sensor\":\"" + name + "\"}")
      == Some((t, h, name))
  {
    var tail := "\"humidity\":" + h + ",\"sensor\":\"" + name + "\"}";
    assert ",\"temperature\":" + t + ",\"humidity\":" + h + ",\"sensor\":\"" + name + "\"}"
      == ",\"temperature\":" + (t + [','] + tail);
    StripJoin(",\"temperature\":", t + [','] + tail);
    SplitJoin(t, ',', tail);
    ParseHumidityRoundTrip(h, name);
  }

  /** The payload is its opening `{"time":"`, the timestamp, a closing quote and the rest. */
  lemma OpenTime(time: string, t: string, h: string, name: string)
    ensures "{\"time\":\"" + time + "\",\"temperature\":" + t + ",\"humidity\":" + h + ",\"sensor\":\"" + name + "\"}"
      == "{\"time\":\"" + (time + ['"'] + (",\"temperature\":" + t + ",\"humidity\":" + h + ",\"sensor\":\"" + name + "\"}"))
  {
    var r := ",\"humidity\":" + (h + (",\"sensor\":\"" + (name + "\"}")));
    Flatten("{\"time\":\"", time, "\",\"temperature\":", t, ",\"humidity\":", h, ",\"sensor\":\"", name, "\"}");
    Flatten7(",\"temperature\":", t, ",\"humidity\":", h, ",\"sensor\":\"", name, "\"}");
    var tail := ",\"temperature\":" + (t + r);
    assert "\",\"temperature\":" + (t + r) == ['"'] + tail;
    assert time + ['"'] + tail == time + (['"'] + tail);
  }

  /** A right-nested concatenation of seven pieces equals the left-nested one. */
  lemma Flatten7(a1: string, a2: string, a3: string, a4: string, a5: string, a6: string, a7: string)
    ensures a1 + (a2 + (a3 + (a4 + (a5 + (a6 + a7))))) == a1 + a2 + a3 + a4 + a5 + a6 + a7
  {
    var r6 := a6 + a7;
    var r5 := a5 + r6;
    var r4 := a4 + r5;
    var r3 := a3 + r4;
    var r2 := a2 + r3;
    assert a1 + r2 == a1 + a2 + r3;
    assert a1 + a2 + r3 == a1 + a2 + a3 + r4;
    assert a1 + a2 + a3 + r4 == a1 + a2 + a3 + a4 + r5;
    assert a1 + a2 + a3 + a4 + r5 == a1 + a2 + a3 + a4 + a5 + r6;
  }

  /**
   * The payload gives back the timestamp, the two rendered measurements and
   * the sensor name, as long as the rendered numbers hold no comma, which
   * `str` of a float never writes.
   */
  lemma ParseMsgDataRoundTrip(time: string, rd: Reading, render: int -> string)
    requires Timestamp(time)
    requires FloatText(render(rd.temperature)) && FloatText(render(rd.humidity))
    ensures ParseMsgData(MsgData(time, rd, render))
      == Some(MsgFields(time, render(rd.temperature), render(rd.humidity), SensorName(rd.sensor)))
  {
    var t, h, name := render(rd.temperature), render(rd.humidity), SensorName(rd.sensor);
    TimestampHasNoQuote(time);
    var tail := ",\"temperature\":" + t + ",\"humidity\":" + h + ",\"sensor\":\"" + name + "\"}";
    OpenTime(time, t, h, name);
    StripJoin("{\"time\":\"", time + ['"'] + tail);
    SplitJoin(time, '"', tail);
    ParseTemperatureRoundTrip(t, h, name);
  }
}
