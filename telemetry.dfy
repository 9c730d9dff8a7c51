/**
 * The pure part of the telemetry gateway (mqtt.js): the JavaScript values a
 * parsed payload can hold, `validateSensorPayload`, and the topic scheme
 * `home/sensors/<mac>/up` (telemetry in) and `home/sensors/<mac>/down`
 * (commands out).
 */
module Telemetry {
  import opened Wrappers
  import opened Models

  /** A JavaScript number: finite, or NaN. */
  datatype JsNumber = Finite(value: real) | NaN

  /** A JavaScript value as `JSON.parse` (or any caller) may hand it over. */
  datatype JsValue =
    | Undefined
    | Null
    | Bool(b: bool)
    | Number(n: JsNumber)
    | Str(s: string)
    | Array(items: seq<JsValue>)
    | Object(fields: map<string, JsValue>)

  /** The outcome of `JSON.parse(message.toString())`; a parse error is caught by the handler. */
  datatype Message = Unparseable | Parsed(data: JsValue)

  predicate Truthy(v: JsValue) {
    match v
    case Undefined => false
    case Null => false
    case Bool(b) => b
    case Number(n) => n.Finite? && n.value != 0.0
    case Str(s) => s != ""
    case Array(_) => true
    case Object(_) => true
  }

  /** `v.key` for a non-index key: only an object's own fields are found. */
  function Field(v: JsValue, key: string): JsValue {
    if v.Object? && key in v.fields then v.fields[key] else Undefined
  }

  /** `typeof v === "number"`. */
  predicate IsNumber(v: JsValue) { v.Number? }

  /** `isNaN(v)`, applied only to numbers. */
  predicate IsNaN(v: JsValue) requires IsNumber(v) { v.n.NaN? }

  const Keys: seq<string> := ["temperature1", "humidity1", "temperature2", "humidity2"]

  /** `validateSensorPayload(data)`, as a truth value. */
  predicate ValidateSensorPayload(data: JsValue) {
    Truthy(data) &&
    IsNumber(Field(data, "temperature1")) &&
    IsNumber(Field(data, "humidity1")) &&
    IsNumber(Field(data, "temperature2")) &&
    IsNumber(Field(data, "humidity2")) &&
    !IsNaN(Field(data, "temperature1")) &&
    !IsNaN(Field(data, "humidity1")) &&
    !IsNaN(Field(data, "temperature2")) &&
    !IsNaN(Field(data, "humidity2"))
  }

  /** A snapshot: indoor temperature and humidity (1), outdoor temperature and humidity (2). */
  datatype Readings = Readings(temperature1: real, humidity1: real, temperature2: real, humidity2: real)

  predicate IsFinite(v: JsValue) { v.Number? && v.n.Finite? }

  /** The readings of a payload, present exactly when the payload validates. */
  function ReadingsOf(data: JsValue): (r: Option<Readings>)
    ensures r.Some? <==> ValidateSensorPayload(data)
    ensures r.Some? ==>
              && Field(data, "temperature1") == Number(Finite(r.value.temperature1))
              && Field(data, "humidity1") == Number(Finite(r.value.humidity1))
              && Field(data, "temperature2") == Number(Finite(r.value.temperature2))
              && Field(data, "humidity2") == Number(Finite(r.value.humidity2))
  {
    if data.Object? && (forall k | k in Keys :: IsFinite(Field(data, k))) then
      Some(Readings(Field(data, "temperature1").n.value, Field(data, "humidity1").n.value,
                    Field(data, "temperature2").n.value, Field(data, "humidity2").n.value))
    else
      None
  }

  /** The payload a device publishes for a snapshot. */
  function Payload(r: Readings): JsValue {
    Object(map[
      "temperature1" := Number(Finite(r.temperature1)),
      "humidity1" := Number(Finite(r.humidity1)),
      "temperature2" := Number(Finite(r.temperature2)),
      "humidity2" := Number(Finite(r.humidity2))])
  }

  lemma PayloadRoundTrip(r: Readings)
    ensures ValidateSensorPayload(Payload(r))
    ensures ReadingsOf(Payload(r)) == Some(r)
  {
  }

  /** Each of the four fields is required, `humidity2` too although it is never used. */
  lemma EveryFieldRequired(fields: map<string, JsValue>, key: string)
    requires key in Keys
    ensures !ValidateSensorPayload(Object(fields - {key}))
  {
  }

  /** A NaN or a non-number in any of the four fields rejects the payload. */
  lemma EveryFieldNumeric(fields: map<string, JsValue>, key: string, v: JsValue)
    requires key in Keys && !IsFinite(v)
    ensures !ValidateSensorPayload(Object(fields[key := v]))
  {
  }

  // ---------------------------------------------------------------------
  // Topics

  /** `s.split(sep)`: the pieces between separators; never empty. */
  function Split(s: string, sep: char): (parts: seq<string>)
    ensures |parts| >= 1
    ensures forall i :: 0 <= i < |parts| ==> sep !in parts[i]
    ensures |parts| == 1 + multiset(s)[sep]
  {
    if |s| == 0 then [""]
    else
      var rest := Split(s[1..], sep);
      assert s == [s[0]] + s[1..];
      if s[0] == sep then [""] + rest
      else [[s[0]] + rest[0]] + rest[1..]
  }

  /** `parts.join(sep)`. */
  function Join(parts: seq<string>, sep: char): string
    requires |parts| >= 1
  {
    if |parts| == 1 then parts[0] else parts[0] + [sep] + Join(parts[1..], sep)
  }

  lemma {:induction false} SplitPrefix(a: string, b: string, sep: char)
    requires sep !in a
    ensures Split(a + [sep] + b, sep) == [a] + Split(b, sep)
    decreases |a|
  {
    var s := a + [sep] + b;
    if |a| == 0 {
      assert s[1..] == b;
    } else {
      assert s[1..] == a[1..] + [sep] + b;
      SplitPrefix(a[1..], b, sep);
      assert [a[0]] + a[1..] == a;
    }
  }

  /** Splitting undoes joining pieces that contain no separator. */
  lemma {:induction false} SplitJoin(parts: seq<string>, sep: char)
    requires |parts| >= 1
    requires forall i :: 0 <= i < |parts| ==> sep !in parts[i]
    ensures Split(Join(parts, sep), sep) == parts
  {
    if |parts| == 1 {
      SplitNoSeparator(parts[0], sep);
    } else {
      SplitJoin(parts[1..], sep);
      SplitPrefix(parts[0], Join(parts[1..], sep), sep);
    }
  }

  lemma {:induction false} SplitNoSeparator(s: string, sep: char)
    requires sep !in s
    ensures Split(s, sep) == [s]
  {
    if |s| > 0 {
      SplitNoSeparator(s[1..], sep);
      assert [s[0]] + s[1..] == s;
    }
  }

  /** Joining undoes splitting. */
  lemma {:induction false} JoinSplit(s: string, sep: char)
    ensures Join(Split(s, sep), sep) == s
  {
    if |s| > 0 {
      JoinSplit(s[1..], sep);
      var rest := Split(s[1..], sep);
      if s[0] != sep {
        if |rest| == 1 {
        } else {
          assert rest == [rest[0]] + rest[1..];
          assert ([[s[0]] + rest[0]] + rest[1..])[1..] == rest[1..];
        }
      } else {
        assert ([""] + rest)[1..] == rest;
      }
    }
  }

  /** `topic.split("/")[2]`; undefined when the topic has fewer than three segments. */
  function DeviceIdOf(topic: string): (id: Option<DeviceId>)
    ensures id.Some? ==> '/' !in id.value
    ensures id.None? <==> multiset(topic)['/'] < 2
  {
    var parts := Split(topic, '/');
    if |parts| > 2 then Some(parts[2]) else None
  }

  function UpTopic(mac: DeviceId): string { "home/sensors/" + mac + "/up" }
  function DownTopic(mac: DeviceId): string { "home/sensors/" + mac + "/down" }

  /** A MAC address matched by the single-level wildcard of `home/sensors/+/up` comes back out. */
  lemma DeviceIdOfUpTopic(mac: DeviceId)
    requires '/' !in mac
    ensures DeviceIdOf(UpTopic(mac)) == Some(mac)
  {
    var parts := ["home", "sensors", mac, "up"];
    assert Join(parts[3..], '/') == "up";
    assert Join(parts[2..], '/') == mac + "/up";
    assert Join(parts[1..], '/') == "sensors/" + mac + "/up";
    assert Join(parts, '/') == UpTopic(mac);
    SplitJoin(parts, '/');
  }

  lemma DeviceIdOfDownTopic(mac: DeviceId)
    requires '/' !in mac
    ensures DeviceIdOf(DownTopic(mac)) == Some(mac)
  {
    var parts := ["home", "sensors", mac, "down"];
    assert Join(parts[3..], '/') == "down";
    assert Join(parts[2..], '/') == mac + "/down";
    assert Join(parts[1..], '/') == "sensors/" + mac + "/down";
    assert Join(parts, '/') == DownTopic(mac);
    SplitJoin(parts, '/');
  }
}
