/** The runtime-to-JSON serialiser of the backend (json_utils.cpp): one PD
    runtime becomes an object with its definition's identity, statistics and
    the last receipt, whose decoded fields come from the engine's decoder. */
module JsonUtils {
  import opened TrdpTypes
  import opened JsonValue
  import Engine

  /** The direction token of the JSON views. */
  function DirectionToString(d: Direction): (s: string)
    ensures DirectionFromString(s) == Some(d)
  {
    match d
    case Source => "source"
    case Sink => "sink"
    case SourceSink => "source_sink"
  }

  /** The reading of a direction token, the inverse of `DirectionToString`. */
  function DirectionFromString(s: string): Option<Direction> {
    if s == "source" then Some(Source)
    else if s == "sink" then Some(Sink)
    else if s == "source_sink" then Some(SourceSink)
    else None
  }

  /** Only the three tokens are read back, each as the direction it names;
      so distinct directions have distinct tokens. */
  lemma DirectionTokensOnly(s: string)
    ensures DirectionFromString(s).Some? ==> DirectionToString(DirectionFromString(s).value) == s
  {
  }

  /** Milliseconds since the clock's epoch, truncated, of a time point given
      in nanoseconds. */
  function ToMillis(ns: nat): (ms: nat)
    ensures ms * 1_000_000 <= ns < (ms + 1) * 1_000_000
  {
    ns / 1_000_000
  }

  // ---------------------------------------------------------------------------
  // Hex rendering of payloads

  /** The lowercase hex digit of a nibble. */
  function HexDigit(v: nat): (c: char)
    requires v < 16
    ensures HexValue(c) == Some(v)
    ensures '0' <= c <= '9' || 'a' <= c <= 'f'
  {
    if v < 10 then ('0' as int + v) as char else ('a' as int + (v - 10)) as char
  }

  /** The nibble a lowercase hex digit stands for. */
  function HexValue(c: char): Option<nat> {
    if '0' <= c <= '9' then Some(c as int - '0' as int)
    else if 'a' <= c <= 'f' then Some(c as int - 'a' as int + 10)
    else None
  }

  /** Every digit `HexValue` accepts is the rendering of its nibble. */
  lemma HexValueDigit(c: char)
    requires HexValue(c).Some?
    ensures HexValue(c).value < 16 && HexDigit(HexValue(c).value) == c
  {
  }

  /** Two zero-padded digits per byte, high nibble first. */
  function ByteHex(b: uint8): string {
    [HexDigit(b / 16), HexDigit(b % 16)]
  }

  /** The hex text of a payload, byte by byte in order. */
  function Hex(payload: seq<uint8>): (s: string)
    ensures |s| == 2 * |payload|
  {
    if |payload| == 0 then "" else Hex(payload[..|payload| - 1]) + ByteHex(payload[|payload| - 1])
  }

  /** Reading hex text back into bytes; None for an odd length or a character
      that is not a lowercase hex digit. */
  function HexDecode(s: string): Option<seq<uint8>>
    decreases |s|
  {
    if |s| == 0 then Some([])
    else if |s| == 1 then None
    else
      var hi := HexValue(s[|s| - 2]);
      var lo := HexValue(s[|s| - 1]);
      var rest := HexDecode(s[..|s| - 2]);
      if hi.None? || lo.None? || rest.None? then None
      else
        assert hi.value < 16 && lo.value < 16 by { HexValueDigit(s[|s| - 2]); HexValueDigit(s[|s| - 1]); }
        Some(rest.value + [hi.value * 16 + lo.value])
  }

  /** Decoding the hex text of a payload recovers the payload. */
  lemma {:induction false} HexRoundTrip(payload: seq<uint8>)
    ensures HexDecode(Hex(payload)) == Some(payload)
    decreases |payload|
  {
    if |payload| > 0 {
      var s := Hex(payload);
      var front := payload[..|payload| - 1];
      HexRoundTrip(front);
      assert s[..|s| - 2] == Hex(front);
      assert payload == front + [payload[|payload| - 1]];
    }
  }

  /** A byte built from two nibbles splits back into them. */
  lemma Nibbles(hi: nat, lo: nat)
    requires hi < 16 && lo < 16
    ensures (hi * 16 + lo) / 16 == hi && (hi * 16 + lo) % 16 == lo
  {
  }

  /** Only the hex text of a payload decodes, and it decodes to that payload:
      the rendering is one-to-one. */
  lemma {:induction false} HexDecodeOnlyHex(s: string, payload: seq<uint8>)
    requires HexDecode(s) == Some(payload)
    ensures Hex(payload) == s
    decreases |s|
  {
    if |s| > 0 {
      var init := s[..|s| - 2];
      var c1, c2 := s[|s| - 2], s[|s| - 1];
      var rest := HexDecode(init).value;
      HexDecodeOnlyHex(init, rest);
      HexValueDigit(c1);
      HexValueDigit(c2);
      var hi, lo := HexValue(c1).value, HexValue(c2).value;
      Nibbles(hi, lo);
      var b: uint8 := hi * 16 + lo;
      assert payload == rest + [b];
      assert payload[..|payload| - 1] == rest;
      assert ByteHex(b) == [c1, c2];
      assert s == init + [c1, c2];
    }
  }

  /** Byte `i` of the payload is rendered at positions 2i and 2i+1, high
      nibble first. */
  lemma {:induction false} HexDigitsAt(payload: seq<uint8>, i: nat)
    requires i < |payload|
    ensures Hex(payload)[2 * i] == HexDigit(payload[i] / 16)
    ensures Hex(payload)[2 * i + 1] == HexDigit(payload[i] % 16)
    decreases |payload|
  {
    if i < |payload| - 1 {
      HexDigitsAt(payload[..|payload| - 1], i);
    }
  }

  /** `payloadToHex`: the payload's bytes as two lowercase digits each. */
  method PayloadToHex(payload: seq<uint8>) returns (s: string)
    ensures s == Hex(payload)
    ensures |s| == 2 * |payload| && HexDecode(s) == Some(payload)
  {
    s := "";
    var i := 0;
    while i < |payload|
      invariant 0 <= i <= |payload|
      invariant s == Hex(payload[..i])
    {
      assert payload[..i + 1][..i] == payload[..i];
      s := s + ByteHex(payload[i]);
      i := i + 1;
    }
    assert payload[..i] == payload;
    HexRoundTrip(payload);
  }

  // ---------------------------------------------------------------------------
  // Decoded fields

  /** The seven data types the serialiser names. */
  predicate IsNamedType(t: uint32) {
    t == TypeBool8 || t == TypeUInt8 || t == TypeInt8 || t == TypeUInt16 ||
    t == TypeInt16 || t == TypeUInt32 || t == TypeInt32
  }

  /** `typeToString`: the name of a TRDP data type, "UNKNOWN" for the rest. */
  function TypeToString(t: uint32): (s: string)
    ensures s == "UNKNOWN" <==> !IsNamedType(t)
    ensures IsNamedType(t) ==> TypeFromString(s) == Some(t)
  {
    if t == TypeBool8 then "BOOL"
    else if t == TypeUInt8 then "UINT8"
    else if t == TypeInt8 then "INT8"
    else if t == TypeUInt16 then "UINT16"
    else if t == TypeInt16 then "INT16"
    else if t == TypeUInt32 then "UINT32"
    else if t == TypeInt32 then "INT32"
    else "UNKNOWN"
  }

  /** The type code a name stands for, the inverse of `TypeToString`. */
  function TypeFromString(s: string): Option<uint32> {
    if s == "BOOL" then Some(TypeBool8)
    else if s == "UINT8" then Some(TypeUInt8)
    else if s == "INT8" then Some(TypeInt8)
    else if s == "UINT16" then Some(TypeUInt16)
    else if s == "INT16" then Some(TypeInt16)
    else if s == "UINT32" then Some(TypeUInt32)
    else if s == "INT32" then Some(TypeInt32)
    else None
  }

  /** `valueToJson`: a BOOL8 value is the boolean "non-zero", every other
      value the integer itself. */
  function ValueToJson(t: uint32, v: int64): (j: Json)
    ensures t == TypeBool8 ==> j.JBool? && AsBool(j) == Some(v != 0)
    ensures t != TypeBool8 ==> j.JInt? && j.i == v
  {
    if t == TypeBool8 then JBool(v != 0) else JInt(v)
  }

  /** The shape of a decoded field's "value" member: null with no values, a
      scalar with one, an array in value order with several. */
  ghost predicate ValueShape(v: Json, f: Engine.DecodedField) {
    && (|f.values| == 0 ==> v == JNull)
    && (|f.values| == 1 ==> v == ValueToJson(f.fieldType, f.values[0]))
    && (|f.values| > 1 ==>
          v.JArray? && |v.items| == |f.values| &&
          forall i :: 0 <= i < |f.values| ==> v.items[i] == ValueToJson(f.fieldType, f.values[i]))
  }

  /** The object a decoded field is rendered as. */
  ghost predicate FieldJsonOf(j: Json, f: Engine.DecodedField) {
    && j.JObject?
    && j.fields.Keys == {"name", "type", "value"}
    && j.fields["name"] == JString(f.name)
    && j.fields["type"] == JString(TypeToString(f.fieldType))
    && ValueShape(j.fields["value"], f)
  }

  /** The array loop of the serialiser: each value converted, in order. */
  method ValuesToJson(t: uint32, values: seq<int64>) returns (items: seq<Json>)
    ensures |items| == |values|
    ensures forall i :: 0 <= i < |values| ==> items[i] == ValueToJson(t, values[i])
  {
    items := [];
    var i := 0;
    while i < |values|
      invariant 0 <= i <= |values|
      invariant |items| == i
      invariant forall k :: 0 <= k < i ==> items[k] == ValueToJson(t, values[k])
    {
      items := items + [ValueToJson(t, values[i])];
      i := i + 1;
    }
  }

  /** One entry of "decoded_fields". */
  method DecodedFieldToJson(f: Engine.DecodedField) returns (j: Json)
    ensures FieldJsonOf(j, f)
  {
    var value: Json;
    if |f.values| == 0 {
      value := JNull;
    } else if |f.values| == 1 {
      value := ValueToJson(f.fieldType, f.values[0]);
    } else {
      var items := ValuesToJson(f.fieldType, f.values);
      value := JArray(items);
    }
    j := JObject(map["name" := JString(f.name), "type" := JString(TypeToString(f.fieldType)), "value" := value]);
  }

  // ---------------------------------------------------------------------------
  // pdRuntimeToJson

  /** The six members naming a runtime's definition. */
  const IdentityKeys: set<string> := {"interface", "com_id", "name", "dataset_id", "direction", "cycle_us"}

  /** The "stats" object: the counters and the two periods. */
  ghost predicate StatsOf(j: Json, pd: Engine.PdRuntime) {
    j == JObject(map[
      "rx_count" := JInt(pd.rxCount),
      "tx_count" := JInt(pd.txCount),
      "avg_period_us" := JReal(pd.avgPeriodUs),
      "last_period_us" := JReal(pd.lastPeriodUs),
      "timeout_count" := JInt(pd.timeoutCount)])
  }

  /** The "last_rx" object: the receipt time in milliseconds when the receipt
      is valid and 0 otherwise, the flag, the payload in hex and one object
      per decoded field, in decoder order. */
  ghost predicate LastRxOf(j: Json, pd: Engine.PdRuntime, decoded: seq<Engine.DecodedField>) {
    && j.JObject?
    && j.fields.Keys == {"timestamp", "valid", "raw_hex", "decoded_fields"}
    && j.fields["timestamp"] == JInt(if pd.lastRxValid then ToMillis(pd.lastRxTimeNs) else 0)
    && j.fields["valid"] == JBool(pd.lastRxValid)
    && j.fields["raw_hex"].JString?
    && HexDecode(j.fields["raw_hex"].s) == Some(pd.lastRxPayload)
    && j.fields["decoded_fields"].JArray?
    && |j.fields["decoded_fields"].items| == |decoded|
    && forall i :: 0 <= i < |decoded| ==> FieldJsonOf(j.fields["decoded_fields"].items[i], decoded[i])
  }

  /** The identity members: the definition's values, or all null when the
      runtime has no definition. */
  ghost predicate IdentityOf(m: map<string, Json>, pd: Engine.PdRuntime, defs: seq<PdTelegramDef>)
    requires pd.def.Some? ==> pd.def.value < |defs|
  {
    && m.Keys == IdentityKeys
    && (pd.def.None? ==> forall k :: k in IdentityKeys ==> m[k] == JNull)
    && (pd.def.Some? ==>
          var d := defs[pd.def.value];
          && m["interface"] == JString(d.interfaceName)
          && m["com_id"] == JInt(d.comId)
          && m["name"] == JString(d.name)
          && m["dataset_id"] == JInt(d.datasetId)
          && m["direction"] == JString(DirectionToString(d.direction))
          && m["cycle_us"] == JInt(d.cycleUs))
  }

  /** The identity part of `pdRuntimeToJson`. */
  method IdentityToJson(pd: Engine.PdRuntime, defs: seq<PdTelegramDef>) returns (m: map<string, Json>)
    requires pd.def.Some? ==> pd.def.value < |defs|
    ensures IdentityOf(m, pd, defs)
  {
    if pd.def.Some? {
      var d := defs[pd.def.value];
      m := map[
        "interface" := JString(d.interfaceName),
        "com_id" := JInt(d.comId),
        "name" := JString(d.name),
        "dataset_id" := JInt(d.datasetId),
        "direction" := JString(DirectionToString(d.direction)),
        "cycle_us" := JInt(d.cycleUs)];
    } else {
      m := map[
        "interface" := JNull,
        "com_id" := JNull,
        "name" := JNull,
        "dataset_id" := JNull,
        "direction" := JNull,
        "cycle_us" := JNull];
    }
  }

  /** The "last_rx" part of `pdRuntimeToJson`. */
  method LastRxToJson(pd: Engine.PdRuntime, decoded: seq<Engine.DecodedField>) returns (lastRx: Json)
    ensures LastRxOf(lastRx, pd, decoded)
  {
    var rawHex := PayloadToHex(pd.lastRxPayload);
    var fields: seq<Json> := [];
    var i := 0;
    while i < |decoded|
      invariant 0 <= i <= |decoded|
      invariant |fields| == i
      invariant forall k :: 0 <= k < i ==> FieldJsonOf(fields[k], decoded[k])
    {
      var fieldJson := DecodedFieldToJson(decoded[i]);
      fields := fields + [fieldJson];
      i := i + 1;
    }
    lastRx := JObject(map[
      "timestamp" := JInt(if pd.lastRxValid then ToMillis(pd.lastRxTimeNs) else 0),
      "valid" := JBool(pd.lastRxValid),
      "raw_hex" := JString(rawHex),
      "decoded_fields" := JArray(fields)]);
  }

  /** `pdRuntimeToJson`: the runtime's view, with its definition taken from
      `defs` and its decoded fields from `decoded`. */
  method PdRuntimeToJson(pd: Engine.PdRuntime, defs: seq<PdTelegramDef>, decoded: seq<Engine.DecodedField>) returns (json: Json)
    requires pd.def.Some? ==> pd.def.value < |defs|
    ensures json.JObject? && json.fields.Keys == IdentityKeys + {"stats", "last_rx"}
    ensures IdentityOf(json.fields - {"stats", "last_rx"}, pd, defs)
    ensures StatsOf(json.fields["stats"], pd)
    ensures LastRxOf(json.fields["last_rx"], pd, decoded)
  {
    var identity := IdentityToJson(pd, defs);
    var stats := JObject(map[
      "rx_count" := JInt(pd.rxCount),
      "tx_count" := JInt(pd.txCount),
      "avg_period_us" := JReal(pd.avgPeriodUs),
      "last_period_us" := JReal(pd.lastPeriodUs),
      "timeout_count" := JInt(pd.timeoutCount)]);
    var lastRx := LastRxToJson(pd, decoded);
    json := JObject(identity["stats" := stats]["last_rx" := lastRx]);
    assert json.fields - {"stats", "last_rx"} == identity;
  }
}
