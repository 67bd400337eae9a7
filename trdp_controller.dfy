/** The HTTP handlers of the backend (TrdpController.cc). A request body is
    the parsed JSON object, or None when the body is not JSON; a handler's
    outcome is the response it passes to the callback, or the exception that
    escapes it. The engine pointer the handlers share is a parameter. */
module Controller {
  import opened TrdpTypes
  import opened JsonValue
  import Engine
  import JsonUtils

  datatype Reply =
    | Response(status: nat, body: Json)
    | Failed(message: string)

  const EngineMissing := "TRDP engine is not initialized"
  const MissingLoadFields := "Missing required fields: path, host_name"
  const MissingEnable := "Missing required field: enable"
  const MissingFields := "Missing required field: fields (array)"

  // Messages of the exceptions jsoncpp raises on a failed conversion
  const NotAString := "Type is not convertible to string"
  const NotABool := "Value is not convertible to bool."

  /** The controller's own direction token, the same as the serialiser's. */
  function DirectionToString(d: Direction): (s: string)
    ensures s == JsonUtils.DirectionToString(d)
    ensures JsonUtils.DirectionFromString(s) == Some(d)
  {
    match d
    case Source => "source"
    case Sink => "sink"
    case SourceSink => "source_sink"
  }

  /** Microseconds since the clock's epoch, truncated. */
  function ToMicros(ns: nat): (us: nat)
    ensures us * 1000 <= ns < (us + 1) * 1000
  {
    ns / 1000
  }

  // ---------------------------------------------------------------------------
  // GET /api/pd/telegrams

  const DefKeys: set<string> := {"name", "com_id", "dataset_id", "direction", "cycle_us", "interface"}

  const RuntimeKeys: set<string> := {
    "tx_enabled", "next_tx_due_us", "tx_payload_size", "last_rx_payload_size", "last_rx_time_us",
    "last_rx_valid", "rx_count", "tx_count", "timeout_count", "last_period_us", "avg_period_us"}

  /** The definition members of an entry, present only with a definition. */
  ghost predicate DefPartOf(m: map<string, Json>, pd: Engine.PdRuntime, defs: seq<PdTelegramDef>)
    requires pd.def.Some? ==> pd.def.value < |defs|
  {
    && m.Keys == (if pd.def.Some? then DefKeys else {})
    && (pd.def.Some? ==>
          var d := defs[pd.def.value];
          && m["name"] == JString(d.name)
          && m["com_id"] == JInt(d.comId)
          && m["dataset_id"] == JInt(d.datasetId)
          && m["direction"] == JString(DirectionToString(d.direction))
          && m["cycle_us"] == JInt(d.cycleUs)
          && m["interface"] == JString(d.interfaceName))
  }

  /** The runtime members of an entry: flags, times in microseconds, payload
      sizes equal to the payload lengths, counters and periods. */
  ghost predicate RuntimePartOf(m: map<string, Json>, pd: Engine.PdRuntime) {
    && m.Keys == RuntimeKeys
    && m["tx_enabled"] == JBool(pd.txEnabled)
    && m["next_tx_due_us"] == JInt(ToMicros(pd.nextTxDueNs))
    && m["tx_payload_size"] == JInt(|pd.txPayload|)
    && m["last_rx_payload_size"] == JInt(|pd.lastRxPayload|)
    && m["last_rx_time_us"] == JInt(ToMicros(pd.lastRxTimeNs))
    && m["last_rx_valid"] == JBool(pd.lastRxValid)
    && m["rx_count"] == JInt(pd.rxCount)
    && m["tx_count"] == JInt(pd.txCount)
    && m["timeout_count"] == JInt(pd.timeoutCount)
    && m["last_period_us"] == JReal(pd.lastPeriodUs)
    && m["avg_period_us"] == JReal(pd.avgPeriodUs)
  }

  /** One entry of the telegram list. */
  ghost predicate EntryOf(e: Json, pd: Engine.PdRuntime, defs: seq<PdTelegramDef>)
    requires pd.def.Some? ==> pd.def.value < |defs|
  {
    && e.JObject?
    && DefPartOf(e.fields - RuntimeKeys, pd, defs)
    && RuntimePartOf(e.fields - DefKeys, pd)
  }

  /** No member is both a definition member and a runtime member. */
  lemma KeysDisjoint()
    ensures DefKeys * RuntimeKeys == {}
  {
  }

  /** The definition part of an entry. */
  method DefMembers(pd: Engine.PdRuntime, defs: seq<PdTelegramDef>) returns (m: map<string, Json>)
    requires pd.def.Some? ==> pd.def.value < |defs|
    ensures DefPartOf(m, pd, defs)
  {
    m := map[];
    if pd.def.Some? {
      var d := defs[pd.def.value];
      m := map[
        "name" := JString(d.name),
        "com_id" := JInt(d.comId),
        "dataset_id" := JInt(d.datasetId),
        "direction" := JString(DirectionToString(d.direction)),
        "cycle_us" := JInt(d.cycleUs),
        "interface" := JString(d.interfaceName)];
    }
  }

  /** The runtime part of an entry. */
  method RuntimeMembers(pd: Engine.PdRuntime) returns (m: map<string, Json>)
    ensures RuntimePartOf(m, pd)
  {
    m := map[
      "tx_enabled" := JBool(pd.txEnabled),
      "next_tx_due_us" := JInt(ToMicros(pd.nextTxDueNs)),
      "tx_payload_size" := JInt(|pd.txPayload|),
      "last_rx_payload_size" := JInt(|pd.lastRxPayload|),
      "last_rx_time_us" := JInt(ToMicros(pd.lastRxTimeNs)),
      "last_rx_valid" := JBool(pd.lastRxValid),
      "rx_count" := JInt(pd.rxCount),
      "tx_count" := JInt(pd.txCount),
      "timeout_count" := JInt(pd.timeoutCount),
      "last_period_us" := JReal(pd.lastPeriodUs),
      "avg_period_us" := JReal(pd.avgPeriodUs)];
  }

  /** The entry for one runtime of the snapshot. */
  method TelegramEntry(pd: Engine.PdRuntime, defs: seq<PdTelegramDef>) returns (entry: Json)
    requires pd.def.Some? ==> pd.def.value < |defs|
    ensures EntryOf(entry, pd, defs)
    ensures entry.fields.Keys == (if pd.def.Some? then DefKeys else {}) + RuntimeKeys
  {
    var defPart := DefMembers(pd, defs);
    var runtimePart := RuntimeMembers(pd);
    KeysDisjoint();
    SplitUnion(defPart, runtimePart, DefKeys, RuntimeKeys);
    entry := JObject(defPart + runtimePart);
  }

  /** A union of two maps with disjoint keys splits back into its parts. */
  lemma SplitUnion(a: map<string, Json>, b: map<string, Json>, ka: set<string>, kb: set<string>)
    requires a.Keys <= ka && b.Keys == kb && ka * kb == {}
    ensures (a + b) - kb == a && (a + b) - ka == b
    ensures (a + b).Keys == a.Keys + b.Keys
  {
    forall x | x in a.Keys
      ensures x !in kb
    {
      assert x !in ka * kb;
    }
    forall x | x in b.Keys
      ensures x !in ka
    {
      assert x !in ka * kb;
    }
    assert forall x :: x in (a + b) - kb <==> x in a;
    assert forall x :: x in (a + b) - ka <==> x in b;
  }

  /** `getPdTelegrams`: 500 without an engine, otherwise one entry per
      runtime of the snapshot, in order. */
  method GetPdTelegrams(engine: Engine.TrdpEngine?) returns (reply: Reply)
    requires engine != null ==> engine.Valid()
    ensures engine == null ==> reply == Response(500, ErrorBody(EngineMissing))
    ensures engine != null ==>
              && reply.Response? && reply.status == 200 && reply.body.JArray?
              && |reply.body.items| == |engine.pdRuntimes|
              && forall i :: 0 <= i < |engine.pdRuntimes| ==> EntryOf(reply.body.items[i], engine.pdRuntimes[i], engine.pdDefs)
  {
    if engine == null {
      return Response(500, ErrorBody(EngineMissing));
    }
    var telegrams: seq<Json> := [];
    var snapshot := engine.GetPdSnapshot();
    var i := 0;
    while i < |snapshot|
      invariant 0 <= i <= |snapshot|
      invariant |telegrams| == i
      invariant forall k :: 0 <= k < i ==> EntryOf(telegrams[k], snapshot[k], engine.pdDefs)
    {
      var entry := TelegramEntry(snapshot[i], engine.pdDefs);
      telegrams := telegrams + [entry];
      i := i + 1;
    }
    return Response(200, JArray(telegrams));
  }

  // ---------------------------------------------------------------------------
  // Request bodies

  /** A body that is JSON but neither an object nor null: the first `isMember`
      on it raises. */
  predicate BodyRaises(body: Option<Json>) {
    body.Some? && LookupRaises(body.value)
  }

  // ---------------------------------------------------------------------------
  // POST /api/configs/load

  /** The request names both a path and a host name. */
  predicate HasLoadFields(body: Option<Json>) {
    body.Some? && IsMember(body.value, "path") && IsMember(body.value, "host_name")
  }

  /** The request's path and host name both convert to strings. */
  predicate LoadRequestOk(body: Option<Json>, realText: real -> string) {
    HasLoadFields(body) && AsString(Member(body.value, "path"), realText).Some? &&
    AsString(Member(body.value, "host_name"), realText).Some?
  }

  /** `loadConfig`: validation precedes the engine check; the engine then
      reloads and the response echoes the request. An exception of the engine
      or of jsoncpp escapes the handler. */
  method LoadConfig(engine: Engine.TrdpEngine?, body: Option<Json>, p: Engine.Platform, realText: real -> string) returns (reply: Reply)
    requires engine != null ==> engine.Valid()
    modifies engine
    ensures engine != null ==> engine.Valid() && engine.running == old(engine.running)
    ensures BodyRaises(body) ==> reply == Failed(LookupError)
    ensures !BodyRaises(body) && !HasLoadFields(body) ==> reply == Response(400, ErrorBody(MissingLoadFields))
    ensures HasLoadFields(body) && engine == null ==> reply == Response(500, ErrorBody(EngineMissing))
    ensures engine != null && !LoadRequestOk(body, realText) ==> engine.State() == old(engine.State())
    ensures HasLoadFields(body) && engine != null ==>
              var path := AsString(Member(body.value, "path"), realText);
              var hostName := AsString(Member(body.value, "host_name"), realText);
              if path.None? || hostName.None? then reply == Failed(NotAString)
              else
                var r := Engine.LoadConfigSpec(old(engine.State()), path.value, hostName.value, p);
                && engine.State() == r.state
                && reply == (if r.error.Some? then Failed(r.error.value)
                             else Response(200, JObject(map[
                                    "status" := JString("config loaded"),
                                    "path" := JString(path.value),
                                    "host_name" := JString(hostName.value)])))
  {
    if BodyRaises(body) {
      return Failed(LookupError);
    }
    if !HasLoadFields(body) {
      return Response(400, ErrorBody(MissingLoadFields));
    }
    if engine == null {
      return Response(500, ErrorBody(EngineMissing));
    }
    var path := AsString(Member(body.value, "path"), realText);
    if path.None? {
      return Failed(NotAString);
    }
    var hostName := AsString(Member(body.value, "host_name"), realText);
    if hostName.None? {
      return Failed(NotAString);
    }
    var error := engine.LoadConfig(path.value, hostName.value, p);
    if error.Some? {
      return Failed(error.value);
    }
    return Response(200, JObject(map[
      "status" := JString("config loaded"),
      "path" := JString(path.value),
      "host_name" := JString(hostName.value)]));
  }

  // ---------------------------------------------------------------------------
  // POST /api/pd/{com_id}/enable

  predicate HasEnable(body: Option<Json>) {
    body.Some? && IsMember(body.value, "enable")
  }

  /** `enablePd`: validation precedes the engine check; the engine switches
      the telegram and the response echoes the comId and the flag. */
  method EnablePd(engine: Engine.TrdpEngine?, body: Option<Json>, comId: uint32) returns (reply: Reply)
    requires engine != null ==> engine.Valid()
    modifies engine
    ensures engine != null ==> engine.Valid() && engine.running == old(engine.running)
    ensures BodyRaises(body) ==> reply == Failed(LookupError)
    ensures !BodyRaises(body) && !HasEnable(body) ==> reply == Response(400, ErrorBody(MissingEnable))
    ensures HasEnable(body) && engine == null ==> reply == Response(500, ErrorBody(EngineMissing))
    ensures engine != null ==> engine.interfaces == old(engine.interfaces) && engine.pdDefs == old(engine.pdDefs) &&
                               engine.datasets == old(engine.datasets)
    ensures engine != null && !(HasEnable(body) && AsBool(Member(body.value, "enable")).Some?) ==>
              engine.pdRuntimes == old(engine.pdRuntimes)
    ensures HasEnable(body) && engine != null ==>
              var enable := AsBool(Member(body.value, "enable"));
              if enable.None? then reply == Failed(NotABool)
              else
                var r := Engine.PdRuntimeIndex(old(engine.pdRuntimes), engine.pdDefs, comId, "");
                && engine.pdRuntimes == (if r.Some? then old(engine.pdRuntimes)[r.value := old(engine.pdRuntimes)[r.value].(txEnabled := enable.value)]
                                         else old(engine.pdRuntimes))
                && reply == Response(200, JObject(map[
                     "status" := JString("pd enable updated"),
                     "com_id" := JInt(comId),
                     "enabled" := JBool(enable.value)]))
  {
    if BodyRaises(body) {
      return Failed(LookupError);
    }
    if !HasEnable(body) {
      return Response(400, ErrorBody(MissingEnable));
    }
    if engine == null {
      return Response(500, ErrorBody(EngineMissing));
    }
    var enable := AsBool(Member(body.value, "enable"));
    if enable.None? {
      return Failed(NotABool);
    }
    engine.EnablePd(comId, enable.value);
    return Response(200, JObject(map[
      "status" := JString("pd enable updated"),
      "com_id" := JInt(comId),
      "enabled" := JBool(enable.value)]));
  }

  // ---------------------------------------------------------------------------
  // PATCH /api/pd/{com_id}/values

  predicate HasFieldArray(body: Option<Json>) {
    body.Some? && IsMember(body.value, "fields") && IsArray(Member(body.value, "fields"))
  }

  /** An entry of "fields" that contributes a value: it has a name and a
      numeric value. */
  predicate AcceptedField(f: Json) {
    IsMember(f, "name") && IsMember(f, "value") && IsNumeric(Member(f, "value"))
  }

  /** The name under which an accepted entry is stored. */
  function FieldName(f: Json, realText: real -> string): Option<string>
    requires AcceptedField(f)
  {
    AsString(Member(f, "name"), realText)
  }

  /** An entry that ends the handler with an exception: one whose members
      cannot be looked up, or an accepted one whose name is an array or
      object, which `asString` cannot convert. */
  predicate Offending(f: Json, realText: real -> string) {
    LookupRaises(f) || (AcceptedField(f) && FieldName(f, realText).None?)
  }

  /** The values collected so far, or the exception that ended the loop. */
  datatype Collection = Collected(values: map<string, real>) | Raised(message: string)

  /** The values collected from the first `n` entries. */
  function CollectValues(fields: seq<Json>, n: nat, realText: real -> string): Collection
    requires n <= |fields|
    decreases n
  {
    if n == 0 then Collected(map[])
    else
      var prev := CollectValues(fields, n - 1, realText);
      var f := fields[n - 1];
      if prev.Raised? then prev
      else if LookupRaises(f) then Raised(LookupError)
      else if !AcceptedField(f) then prev
      else if FieldName(f, realText).None? then Raised(NotAString)
      else Collected(prev.values[FieldName(f, realText).value := AsDouble(Member(f, "value"))])
  }

  /** One more entry, when the loop has not raised: the map gains the entry's
      value under its name if the entry is accepted, and is kept otherwise. */
  lemma CollectStep(fields: seq<Json>, n: nat, realText: real -> string)
    requires 0 < n <= |fields|
    requires CollectValues(fields, n, realText).Collected?
    ensures CollectValues(fields, n - 1, realText).Collected?
    ensures var f := fields[n - 1];
            var prev := CollectValues(fields, n - 1, realText).values;
            CollectValues(fields, n, realText).values ==
              if AcceptedField(f) then prev[FieldName(f, realText).value := AsDouble(Member(f, "value"))] else prev
  {
  }

  /** A name is collected exactly when some accepted entry carries it, and it
      holds the value of the last such entry. */
  lemma {:induction false} CollectLastWins(fields: seq<Json>, n: nat, realText: real -> string, name: string)
    requires n <= |fields|
    requires CollectValues(fields, n, realText).Collected?
    ensures var m := CollectValues(fields, n, realText).values;
            name in m <==> exists i :: 0 <= i < n && AcceptedField(fields[i]) && FieldName(fields[i], realText) == Some(name)
    ensures var m := CollectValues(fields, n, realText).values;
            name in m ==>
              exists i :: 0 <= i < n && AcceptedField(fields[i]) && FieldName(fields[i], realText) == Some(name) &&
                          m[name] == AsDouble(Member(fields[i], "value")) &&
                          forall j :: i < j < n ==> !(AcceptedField(fields[j]) && FieldName(fields[j], realText) == Some(name))
    decreases n
  {
    if n > 0 {
      CollectStep(fields, n, realText);
      CollectLastWins(fields, n - 1, realText, name);
      var f := fields[n - 1];
      var m := CollectValues(fields, n, realText).values;
      var prev := CollectValues(fields, n - 1, realText).values;
      if AcceptedField(f) && FieldName(f, realText) == Some(name) {
        assert m[name] == AsDouble(Member(f, "value"));
      } else {
        assert name in m <==> name in prev;
        assert name in m ==> m[name] == prev[name];
      }
    }
  }

  /** The loop ends with an exception exactly when some entry is offending,
      and the exception is that of the first offending entry. */
  lemma {:induction false} CollectRaises(fields: seq<Json>, n: nat, realText: real -> string)
    requires n <= |fields|
    ensures CollectValues(fields, n, realText).Raised? <==> exists i :: 0 <= i < n && Offending(fields[i], realText)
    ensures CollectValues(fields, n, realText).Raised? ==>
              exists i :: 0 <= i < n && Offending(fields[i], realText) &&
                          (forall j :: 0 <= j < i ==> !Offending(fields[j], realText)) &&
                          CollectValues(fields, n, realText).message == (if LookupRaises(fields[i]) then LookupError else NotAString)
    decreases n
  {
    if n > 0 {
      CollectRaises(fields, n - 1, realText);
    }
  }

  lemma {:induction false} CollectStops(fields: seq<Json>, realText: real -> string, m: nat, n: nat)
    requires m <= n <= |fields|
    requires CollectValues(fields, m, realText).Raised?
    ensures CollectValues(fields, n, realText) == CollectValues(fields, m, realText)
    decreases n
  {
    if n > m {
      CollectStops(fields, realText, m, n - 1);
    }
  }

  /** `setPdValues`: validation precedes the engine check; the accepted
      entries are collected by name, the last value winning, and the response
      counts the distinct names. The engine's own `setPdValues` is empty, so
      the engine is not touched. */
  method SetPdValues(engine: Engine.TrdpEngine?, body: Option<Json>, comId: uint32, realText: real -> string) returns (reply: Reply)
    ensures BodyRaises(body) ==> reply == Failed(LookupError)
    ensures !BodyRaises(body) && !HasFieldArray(body) ==> reply == Response(400, ErrorBody(MissingFields))
    ensures HasFieldArray(body) && engine == null ==> reply == Response(500, ErrorBody(EngineMissing))
    ensures HasFieldArray(body) && engine != null ==>
              var fields := Member(body.value, "fields").items;
              var values := CollectValues(fields, |fields|, realText);
              reply == if values.Raised? then Failed(values.message)
                       else Response(200, JObject(map[
                              "status" := JString("pd values updated"),
                              "com_id" := JInt(comId),
                              "updated_fields" := JInt(|values.values|)]))
  {
    if BodyRaises(body) {
      return Failed(LookupError);
    }
    if !HasFieldArray(body) {
      return Response(400, ErrorBody(MissingFields));
    }
    if engine == null {
      return Response(500, ErrorBody(EngineMissing));
    }
    var fields := Member(body.value, "fields").items;
    var values: map<string, real> := map[];
    var i := 0;
    while i < |fields|
      invariant 0 <= i <= |fields|
      invariant CollectValues(fields, i, realText) == Collected(values)
    {
      var f := fields[i];
      if LookupRaises(f) {
        CollectStops(fields, realText, i + 1, |fields|);
        return Failed(LookupError);
      }
      if !IsMember(f, "name") || !IsMember(f, "value") || !IsNumeric(Member(f, "value")) {
        i := i + 1;
        continue;
      }
      var name := AsString(Member(f, "name"), realText);
      if name.None? {
        CollectStops(fields, realText, i + 1, |fields|);
        return Failed(NotAString);
      }
      values := values[name.value := AsDouble(Member(f, "value"))];
      i := i + 1;
    }
    return Response(200, JObject(map[
      "status" := JString("pd values updated"),
      "com_id" := JInt(comId),
      "updated_fields" := JInt(|values|)]));
  }
}
