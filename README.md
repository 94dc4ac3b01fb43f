# inkbird2mqtt in Dafny

A model of `inkbird2mqtt.py`, a one-shot script. It reads the data
characteristic of an Inkbird BLE temperature/humidity sensor and decodes it.
Then it publishes one JSON message on an MQTT topic.

The model has five modules:

- `BitOps` (bit_ops.dfy): Python's `<<`, `|` and `^` on non-negative
  integers. `|` and `^` are defined bit by bit; `a << k` is `a * 2^k`. It
  proves the two facts the decoder uses:
  `(a << k) | b` is a sum when `b` fits below bit `k`, and XOR with an
  all-ones mask complements a value.
- `ValueDecoder` (value_decoder.dfy): `float_value`. Measurements are whole
  numbers of hundredths. A pair of bytes becomes `hi*256 + lo`, minus 65536
  only when the high byte is exactly 0xFF. The module has the inverse
  encoder, both round trips and injectivity. It also compares the decoder
  with 16-bit two's complement.
- `ReadingParser` (reading_parser.dfy): the reading extraction in `run`.
  Temperature comes from bytes 0-1, humidity from bytes 2-3 and the sensor
  tag from byte 4. A payload shorter than five bytes is an `IndexError`.
  The module has a serializer back to bytes, with round trips both ways,
  and the facts that bytes from index 5 on are ignored and that each field
  depends only on its own bytes.
- `Payload` (payload.dfy): the string concatenation that builds `msg_data`.
  It is proved equal to a JSON object writer applied to the four keys in the
  source's order. The writer escapes quotes, backslashes and control
  characters in strings. The proof needs the timestamp to have the strftime
  shape. It then shows that escaping leaves the timestamp and the sensor
  name unchanged. A field extractor takes the payload apart
  again and gives back the timestamp, both rendered numbers and the sensor
  name.
- `Pipeline` (pipeline.dfy): `get_readings` and `run`. The method `Run`
  follows the source step by step. The MQTT client is a class and the
  broker an object whose `log` records each publish. `Run` is proved
  against the function `RunSpec`:
  - a failed or empty read publishes nothing;
  - a short payload or a refused connection ends the run with nothing
    published;
  - otherwise exactly one message is published, on `mqtt_topic + mac` with
    QoS 1.

Inputs that are not code are parameters:

- The BLE read is `Option<seq<byte>>`. `None` means `btle.Peripheral` or
  `readCharacteristic` raised.
- The clock is the formatted timestamp string.
- `str(float)` of a measurement is a function `render: int -> string`.
- The configuration is a `Config` value.

The code differs from a plain signed reading of the bytes in several ways.
The model follows the code:

- Sign: the code treats a value as negative only when the high byte is
  0xFF. It does not use full two's complement. High bytes 0x80-0xFE decode
  as large positive values. For example, -10.00 °C (word 0xFC18) is read
  as 645.36. `ValueDecoder.AgreesWithTwosComplementIff` states exactly
  where the two readings agree, and `ValueDecoder.MinusTenDegrees` shows
  that example.
- Short payloads: nothing catches the `IndexError`, so the run ends
  abnormally. This is `Outcome.ParseCrash`.
- Broker failures: nothing catches a failed connect either, and the return
  value of `publish` is ignored. A refused connection is
  `Outcome.ConnectCrash`.
- Payload: it is built by plain concatenation, with no escaping. Its keys
  always come in the order time, temperature, humidity, sensor. The missing
  escaping does no harm: the timestamp and the three sensor names hold no
  character that JSON would escape.

## Model

| member | source | states |
|---|---|---|
| BitOps.OrDisjoint | inkbird2mqtt.py:26 | `(a << k) \| b` equals `a * 2^k + b` whenever `b < 2^k`, so combining the two bytes loses nothing |
| BitOps.XorAllOnes | inkbird2mqtt.py:28 | `x ^ (2^k - 1)` equals `2^k - 1 - x` for every k-bit `x` |
| BitOps.OrZero | inkbird2mqtt.py:26 | `a \| 0 == a` |
| BitOps.ShiftLeft | inkbird2mqtt.py:26 | Python's `a << k` on a non-negative `a`, as `a * 2^k` |
| BitOps.Or | inkbird2mqtt.py:26 | Python's `a \| b` on non-negative integers, bit by bit |
| BitOps.Xor | inkbird2mqtt.py:28 | Python's `a ^ b` on non-negative integers, bit by bit |
| ValueDecoder.Word | inkbird2mqtt.py:26 | `(nums[1] << 8) \| nums[0]`, the unsigned word of the two bytes |
| ValueDecoder.WordValue | inkbird2mqtt.py:26 | `(nums[1] << 8) \| nums[0]` is `hi*256 + lo` |
| ValueDecoder.NegationIsWrapAround | inkbird2mqtt.py:27-28 | with high byte 0xFF, `-((num ^ 0xffff) + 1)` equals `num - 65536` |
| ValueDecoder.FloatValue | inkbird2mqtt.py:24-29 | total on any two bytes; the result is `hi*256+lo`, less 65536 exactly when `hi == 0xFF`; it lies in [-256, 65279]; it is negative iff the high byte is 0xFF |
| ValueDecoder.NonNegativeBranch | inkbird2mqtt.py:26-29 | a high byte other than 0xFF gives exactly `hi*256 + lo`, in 0..65279 |
| ValueDecoder.NegativeBranch | inkbird2mqtt.py:26-29 | a high byte of 0xFF gives `hi*256 + lo - 65536`, in -256..-1 |
| ValueDecoder.Encode | inkbird2mqtt.py:24-29 | the inverse encoder gives two bytes, with high byte 0xFF exactly for negative values |
| ValueDecoder.DecodeEncode | inkbird2mqtt.py:24-29 | every value in [-256, 65279] decodes back from its encoding |
| ValueDecoder.EncodeDecode | inkbird2mqtt.py:24-29 | every byte pair is recovered by encoding its decoded value |
| ValueDecoder.DecodeInjective | inkbird2mqtt.py:24-29 | distinct byte pairs decode to distinct values |
| ValueDecoder.DecodeReadsTwoBytes | inkbird2mqtt.py:24-28 | only `nums[0]` and `nums[1]` affect the value |
| ValueDecoder.TwosComplement | inkbird2mqtt.py:26-28 | the textbook signed reading of the same word, in [-32768, 32767], kept for comparison |
| ValueDecoder.AgreesWithTwosComplementIff | inkbird2mqtt.py:26-28 | the decoder equals two's complement iff the high byte is below 0x80 or is 0xFF |
| ValueDecoder.MinusTenDegrees | inkbird2mqtt.py:26-29 | the word 0xFC18 (-10.00 in two's complement) decodes to 645.36 |
| ValueDecoder.PositiveExamples | inkbird2mqtt.py:24-29 | 0x7FFF decodes to 327.67 and 0x0010 to 0.16 |
| ValueDecoder.NegativeExamples | inkbird2mqtt.py:24-29 | 0xFF00 decodes to -2.56 and 0xFFFF to -0.01 |
| ReadingParser.SensorOf | inkbird2mqtt.py:53 | byte 0 is internal, byte 1 external, every byte from 2 up unknown; each case iff |
| ReadingParser.SensorName | inkbird2mqtt.py:53 | the tag strings hold no double quote |
| ReadingParser.Parse | inkbird2mqtt.py:50-54 | the extraction succeeds iff the payload has at least five bytes; both measurements are then in the decoder's range |
| ReadingParser.SensorCode | inkbird2mqtt.py:53 | a sensor byte for each tag that maps back to that tag |
| ReadingParser.Serialize | inkbird2mqtt.py:50-54 | a reading becomes five bytes |
| ReadingParser.ParseSerialize | inkbird2mqtt.py:50-54 | a serialized reading followed by any bytes parses back to the same reading |
| ReadingParser.SerializeParse | inkbird2mqtt.py:50-54 | a parsed payload serializes back to its first four bytes, to a sensor byte with the same tag, and to all five bytes when byte 4 is 0 or 1 |
| ReadingParser.ParseIgnoresTail | inkbird2mqtt.py:50-54 | payloads that agree on their first five bytes give the same reading |
| ReadingParser.FieldsAreLocal | inkbird2mqtt.py:51-53 | temperature depends only on bytes 0-1, humidity only on bytes 2-3, the tag only on byte 4 |
| ReadingParser.Scenarios | inkbird2mqtt.py:50-54 | `10 00 20 00 00 50` gives (0.16, 0.32, internal); `00 FF 00 FF 01 00` gives (-2.56, -2.56, external) |
| Payload.MsgData | inkbird2mqtt.py:66-76 | the payload text: `{"time":"`, the timestamp, `","temperature":`, the rendered temperature, `,"humidity":`, the rendered humidity, `,"sensor":"`, the tag and `"}`, with nothing escaped |
| Payload.EscapePlainText | inkbird2mqtt.py:66-76 | JSON string escaping leaves text without quotes, backslashes or control characters unchanged |
| Payload.EscapeChangesOthers | inkbird2mqtt.py:66-76 | text with a quote, a backslash or a control character is lengthened by escaping, so plain concatenation would differ from it |
| Payload.TimestampIsPlain | inkbird2mqtt.py:57 | a `%Y-%m-%d %H:%M:%S` timestamp holds nothing JSON escapes |
| Payload.SensorNameIsPlain | inkbird2mqtt.py:53 | "internal", "external" and "unknown" hold nothing JSON escapes |
| Payload.Fields | inkbird2mqtt.py:66-76 | the payload's four keys are time, temperature, humidity and sensor, in that order |
| Payload.MsgDataIsJsonObject | inkbird2mqtt.py:66-76 | for a strftime-shaped timestamp, the concatenation equals an escaping JSON object writer applied to those four members: time and sensor as strings, the measurements as numbers |
| Payload.TimestampHasNoQuote | inkbird2mqtt.py:57 | a `%Y-%m-%d %H:%M:%S` timestamp contains no double quote |
| Payload.ParseSensorRoundTrip | inkbird2mqtt.py:73-75 | the tail `"sensor":"<name>"}` gives back the name |
| Payload.ParseHumidityRoundTrip | inkbird2mqtt.py:71-75 | the tail from `"humidity":` gives back the rendered humidity and the name |
| Payload.ParseTemperatureRoundTrip | inkbird2mqtt.py:69-75 | the tail from `,"temperature":` gives back both rendered numbers and the name |
| Payload.ParseMsgDataRoundTrip | inkbird2mqtt.py:66-76 | taking the payload apart gives back the timestamp, the two rendered measurements and the sensor name |
| Pipeline.GetReadings | inkbird2mqtt.py:31-38 | a transport exception becomes False; otherwise the characteristic's bytes are returned unchanged |
| Pipeline.Falsy | inkbird2mqtt.py:44 | `not readings`: true for False and for the empty byte string |
| Pipeline.RunSpec | inkbird2mqtt.py:41-87 | no data iff the read failed or was empty; crash iff 1-4 bytes; publish iff at least five bytes and the broker accepts the connection; the message goes on `mqtt_topic + mac` with QoS 1 and carries the payload of the parsed reading |
| Pipeline.Run | inkbird2mqtt.py:41-87 | the step-by-step run returns `RunSpec`'s outcome; the broker's log gains exactly the published message, and nothing on every other path |
| Pipeline.MqttClient.constructor | inkbird2mqtt.py:84 | a new client has the configured client id and is not connected |
| Pipeline.MqttClient.UsernamePwSet | inkbird2mqtt.py:85 | stores the credentials and leaves the bound broker, host and port as they were |
| Pipeline.MqttClient.Connect | inkbird2mqtt.py:86 | succeeds iff the broker is online; on success the client is bound to it |
| Pipeline.MqttClient.Publish | inkbird2mqtt.py:87 | the broker's log gains exactly one message with this topic, payload and QoS |
| Pipeline.PublishesSentReading | inkbird2mqtt.py:41-87 | a device that sends a reading's five bytes, followed by anything, gets exactly that reading's payload published on `mqtt_topic + mac` with QoS 1 |
| Pipeline.PublishedPayloadReadsBack | inkbird2mqtt.py:50-87 | for a payload of at least five bytes, the published payload reads back as the timestamp, the rendered values of bytes 0-1 and 2-3, and the tag of byte 4 |

## Left out

- BLE transport (`btle.Peripheral`, `readCharacteristic(0x28)`, lines 33-34) is a foreign library. It is reduced to its result: bytes, or `None` for any exception.
- The MQTT library (lines 84-87) is a foreign network library. The model keeps its observable effect: a connect that succeeds or fails, and one publish recorded in the broker's log. Asynchronous delivery, network retries and the return value of `publish` are not modelled.
- Float arithmetic: the division by 100 on line 29 is not modelled. Values stay integer hundredths.
- `str(float)` on lines 70 and 72 is the parameter `render`. `Payload.ParseMsgDataRoundTrip` assumes only that its output is made of digits, sign, point and exponent (`FloatText`).
- JSON numbers: the writer takes the rendered text of each measurement as a number token as it is. That `str(float)` always writes a valid JSON number is not proved, so well-formedness of the whole payload as JSON is not claimed.
- `datetime.now().strftime(...)` (line 57) is a clock. The timestamp is a parameter, and only its shape (`Timestamp`) is used.
- The configuration import (lines 13-21) is represented by the immutable `Config` value.
- Logging setup, log lines and `print` (lines 8-11, 37, 45, 48, 60-64, 77-83) produce output only, with no behaviour to model.
- The commented-out battery byte (line 54) is never read. `ReadingParser.ParseIgnoresTail` shows that later bytes have no effect.
- The module-level call `run()` on line 89 is the single invocation that `Pipeline.Run` models.
