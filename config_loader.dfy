/** The telegram definition builder (trdp_config_loader.cpp): turns what
    TCNopen's XML readers deliver into interface, dataset and PD telegram
    definitions. The XML file itself is an abstract `XmlDocument`: the outcome
    of each `tau_*` reader and the list of `<telegram ...>` tags that the
    regular-expression scan finds. */
module ConfigLoader {
  import opened TrdpTypes
  import Decimal

  // ---------------------------------------------------------------------------
  // What the foreign XML readers deliver

  /** One source URI of an exchange; a missing host is a null pointer. */
  datatype SourceUri = SourceUri(uriHost1: Option<string>, uriHost2: Option<string>)

  /** One destination URI of an exchange. */
  datatype DestUri = DestUri(uriHost: Option<string>)

  /** The PD parameters of an exchange (`pPdPar`). */
  datatype PdParams = PdParams(cycle: uint32, flags: bv32)

  /** One `TRDP_EXCHG_PAR_T`. */
  datatype Exchange = Exchange(
    comId: uint32,
    datasetId: uint32,
    exchangeType: uint32,
    sources: seq<SourceUri>,
    destinations: seq<DestUri>,
    pdPar: Option<PdParams>)

  /** What `tau_readXmlInterfaceConfig` yields for one interface: the flags of
      its `pdConfig` and its exchange parameters. */
  datatype InterfaceConfig = InterfaceConfig(pdFlags: bv32, exchanges: seq<Exchange>)

  /** One `TRDP_IF_CONFIG_T`; the host address is the numeric IPv4 address. */
  datatype IfConfig = IfConfig(ifName: string, networkId: uint32, hostIp: uint32)

  datatype RawElement = RawElement(name: Option<string>, elementType: uint32, size: uint32)

  datatype RawDataset = RawDataset(id: uint32, name: string, elements: seq<RawElement>)

  /** One `<telegram ...>` tag: the captured value of its first `name="..."`
      attribute and of its first `com-id="digits"` attribute, if any. */
  datatype TelegramTag = TelegramTag(name: Option<string>, comId: Option<string>)

  /** The XML file at the configured path, as the readers see it. A reader
      that fails is a None; an interface whose configuration cannot be read
      is absent from `interfaceConfigs`; `telegramTags` is None when the file
      cannot be opened as text. */
  datatype XmlDocument = XmlDocument(
    parsed: bool,
    deviceConfig: Option<seq<IfConfig>>,
    datasetConfig: Option<seq<RawDataset>>,
    interfaceConfigs: map<string, InterfaceConfig>,
    telegramTags: Option<seq<TelegramTag>>)

  const ParseDocumentError := "Failed to parse TRDP XML document"
  const DeviceConfigError := "Failed to read TRDP device configuration"
  const DatasetConfigError := "Failed to read TRDP dataset configuration"
  const InterfaceConfigError := "Failed to read TRDP interface configuration"

  /** ULONG_MAX of a 64-bit `unsigned long`, the range of `std::stoul`. */
  const ULongMax: nat := 0xFFFF_FFFF_FFFF_FFFF

  // ---------------------------------------------------------------------------
  // Direction

  /** `mapDirection`: the exchange type as configured. */
  function MapDirection(exchangeType: uint32): (d: Direction)
    ensures d == Source <==> exchangeType == ExchgSource
    ensures d == Sink <==> exchangeType == ExchgSink
    ensures d == SourceSink <==> exchangeType != ExchgSource && exchangeType != ExchgSink
  {
    if exchangeType == ExchgSource then Source
    else if exchangeType == ExchgSink then Sink
    else SourceSink
  }

  /** The host is named by a (non-null) host of some source URI. */
  predicate HostIsSource(ex: Exchange, host: string) {
    exists i :: 0 <= i < |ex.sources| && (ex.sources[i].uriHost1 == Some(host) || ex.sources[i].uriHost2 == Some(host))
  }

  /** The host is named by a (non-null) host of some destination URI. */
  predicate HostIsDestination(ex: Exchange, host: string) {
    exists i :: 0 <= i < |ex.destinations| && ex.destinations[i].uriHost == Some(host)
  }

  /** The direction a device called `host` takes in the exchange: decided by
      host matching, and by the configured type when the host matches nothing. */
  function ExpectedDirection(ex: Exchange, host: string): Direction {
    var src := HostIsSource(ex, host);
    var dst := HostIsDestination(ex, host);
    if src && dst then SourceSink
    else if src then Source
    else if dst then Sink
    else MapDirection(ex.exchangeType)
  }

  /** `determineDirection`: scans the source and destination URIs for the host. */
  method DetermineDirection(ex: Exchange, host: string) returns (d: Direction)
    ensures HostIsSource(ex, host) && HostIsDestination(ex, host) ==> d == SourceSink
    ensures HostIsSource(ex, host) && !HostIsDestination(ex, host) ==> d == Source
    ensures !HostIsSource(ex, host) && HostIsDestination(ex, host) ==> d == Sink
    ensures !HostIsSource(ex, host) && !HostIsDestination(ex, host) ==> d == MapDirection(ex.exchangeType)
  {
    var isSource := false;
    var isDestination := false;
    var idx := 0;
    while idx < |ex.sources|
      invariant 0 <= idx <= |ex.sources|
      invariant isSource <==> exists i :: 0 <= i < idx && (ex.sources[i].uriHost1 == Some(host) || ex.sources[i].uriHost2 == Some(host))
    {
      if ex.sources[idx].uriHost1.Some? && ex.sources[idx].uriHost1.value == host {
        isSource := true;
      }
      if ex.sources[idx].uriHost2.Some? && ex.sources[idx].uriHost2.value == host {
        isSource := true;
      }
      idx := idx + 1;
    }
    idx := 0;
    while idx < |ex.destinations|
      invariant 0 <= idx <= |ex.destinations|
      invariant isDestination <==> exists i :: 0 <= i < idx && ex.destinations[i].uriHost == Some(host)
    {
      if ex.destinations[idx].uriHost.Some? && ex.destinations[idx].uriHost.value == host {
        isDestination := true;
      }
      idx := idx + 1;
    }
    if isSource && isDestination {
      return SourceSink;
    }
    if isSource {
      return Source;
    }
    if isDestination {
      return Sink;
    }
    return MapDirection(ex.exchangeType);
  }

  /** Null host pointers never match: an exchange without any host falls
      back to its configured type, whatever the host name. */
  lemma NullHostsNeverMatch(ex: Exchange, host: string)
    requires forall i :: 0 <= i < |ex.sources| ==> ex.sources[i].uriHost1.None? && ex.sources[i].uriHost2.None?
    requires forall i :: 0 <= i < |ex.destinations| ==> ex.destinations[i].uriHost.None?
    ensures ExpectedDirection(ex, host) == MapDirection(ex.exchangeType)
  {
  }

  // ---------------------------------------------------------------------------
  // Telegram names

  /** A tag contributes a name: it has a name and a com-id whose digits
      `std::stoul` can convert. */
  predicate Accepted(t: TelegramTag) {
    && t.name.Some?
    && t.comId.Some?
    && |t.comId.value| > 0
    && Decimal.AllDigits(t.comId.value)
    && Decimal.Value(t.comId.value) <= ULongMax
  }

  /** The com-id of an accepted tag: the converted value cast to uint32. */
  function TagComId(t: TelegramTag): uint32
    requires Accepted(t)
  {
    Decimal.Value(t.comId.value) % 0x1_0000_0000
  }

  /** The comId-to-name map of a tag list, inserting without overwriting. */
  function NamesOf(tags: seq<TelegramTag>): map<uint32, string>
    decreases |tags|
  {
    if |tags| == 0 then map[]
    else
      var m := NamesOf(tags[..|tags| - 1]);
      var t := tags[|tags| - 1];
      if Accepted(t) && TagComId(t) !in m then m[TagComId(t) := t.name.value] else m
  }

  /** The map `parseTelegramNames` builds; empty when the file is unreadable. */
  function TelegramNames(tags: Option<seq<TelegramTag>>): map<uint32, string> {
    if tags.None? then map[] else NamesOf(tags.value)
  }

  /** A comId is in the map exactly when some accepted tag carries it, and it
      maps to the name of the first such tag. */
  lemma {:induction false} NamesOfFirstWins(tags: seq<TelegramTag>, id: uint32)
    ensures id in NamesOf(tags) <==> exists i :: 0 <= i < |tags| && Accepted(tags[i]) && TagComId(tags[i]) == id
    ensures forall i :: 0 <= i < |tags| && Accepted(tags[i]) && TagComId(tags[i]) == id &&
                        (forall j :: 0 <= j < i && Accepted(tags[j]) ==> TagComId(tags[j]) != id)
                        ==> id in NamesOf(tags) && NamesOf(tags)[id] == tags[i].name.value
    decreases |tags|
  {
    if |tags| > 0 {
      var init := tags[..|tags| - 1];
      NamesOfFirstWins(init, id);
      assert forall i :: 0 <= i < |init| ==> init[i] == tags[i];
      var t := tags[|tags| - 1];
      if id in NamesOf(init) {
        var i0 :| 0 <= i0 < |init| && Accepted(init[i0]) && TagComId(init[i0]) == id;
        assert tags[i0] == init[i0];
      }
    }
  }

  /** `parseTelegramNames` over the tags the scan found. */
  method ParseTelegramNames(tags: Option<seq<TelegramTag>>) returns (names: map<uint32, string>)
    ensures names == TelegramNames(tags)
    ensures tags.None? ==> names == map[]
  {
    names := map[];
    if tags.None? {
      return;
    }
    var ts := tags.value;
    var i := 0;
    while i < |ts|
      invariant 0 <= i <= |ts|
      invariant names == NamesOf(ts[..i])
    {
      assert ts[..i + 1][..i] == ts[..i];
      var t := ts[i];
      if Accepted(t) {
        var comId := TagComId(t);
        if comId !in names {
          names := names[comId := t.name.value];
        }
      }
      i := i + 1;
    }
    assert ts[..i] == ts;
  }

  // ---------------------------------------------------------------------------
  // Definitions built from the readers' output

  function ElementOf(e: RawElement): DatasetElement {
    DatasetElement(e.name.GetOr(""), e.elementType, e.size)
  }

  function DatasetOf(d: RawDataset): Dataset {
    Dataset(d.id, d.name, seq(|d.elements|, i requires 0 <= i < |d.elements| => ElementOf(d.elements[i])))
  }

  function DatasetsOf(raws: seq<RawDataset>): seq<Dataset> {
    seq(|raws|, i requires 0 <= i < |raws| => DatasetOf(raws[i]))
  }

  /** `vos_ipDotted` is foreign: the caller supplies the rendering. */
  function InterfaceDefOf(c: IfConfig, ipDotted: uint32 -> string): InterfaceDef {
    InterfaceDef(c.ifName, c.networkId, ipDotted(c.hostIp))
  }

  /** The telegram definition of one exchange of the interface `ifName`. */
  function TelegramOf(ex: Exchange, ifName: string, pdFlags: bv32, names: map<uint32, string>, host: string): PdTelegramDef {
    PdTelegramDef(
      name := if ex.comId in names then names[ex.comId] else "",
      comId := ex.comId,
      datasetId := ex.datasetId,
      direction := ExpectedDirection(ex, host),
      cycleUs := if ex.pdPar.Some? then ex.pdPar.value.cycle else 0,
      marshall := if ex.pdPar.Some? then ex.pdPar.value.flags & MarshallFlag != 0 else pdFlags & MarshallFlag != 0,
      interfaceName := ifName)
  }

  function TelegramsOfInterface(cfg: InterfaceConfig, ifName: string, names: map<uint32, string>, host: string): seq<PdTelegramDef> {
    seq(|cfg.exchanges|, j requires 0 <= j < |cfg.exchanges| => TelegramOf(cfg.exchanges[j], ifName, cfg.pdFlags, names, host))
  }

  /** The three lists of the loader. */
  datatype LoaderLists = LoaderLists(interfaces: seq<InterfaceDef>, pdTelegrams: seq<PdTelegramDef>, datasets: seq<Dataset>)

  /** What a load leaves behind: the lists, and the message of the exception
      that ended it, if any. */
  datatype Loaded = Loaded(lists: LoaderLists, error: Option<string>)

  /** Interfaces and telegrams after the first `n` interfaces were processed. */
  datatype InterfaceProgress = InterfaceProgress(interfaces: seq<InterfaceDef>, telegrams: seq<PdTelegramDef>, error: Option<string>)

  function ReadInterfaces(ifcs: seq<IfConfig>, configs: map<string, InterfaceConfig>, names: map<uint32, string>,
                          host: string, ipDotted: uint32 -> string, n: nat): InterfaceProgress
    requires n <= |ifcs|
    decreases n
  {
    if n == 0 then InterfaceProgress([], [], None)
    else
      var p := ReadInterfaces(ifcs, configs, names, host, ipDotted, n - 1);
      if p.error.Some? then p
      else
        var iface := InterfaceDefOf(ifcs[n - 1], ipDotted);
        if ifcs[n - 1].ifName !in configs then InterfaceProgress(p.interfaces + [iface], p.telegrams, Some(InterfaceConfigError))
        else InterfaceProgress(p.interfaces + [iface], p.telegrams + TelegramsOfInterface(configs[ifcs[n - 1].ifName], iface.name, names, host), None)
  }

  /** `TrdpConfigLoader::loadFromXml` as a function of the document. */
  function LoadXml(doc: XmlDocument, host: string, ipDotted: uint32 -> string): Loaded {
    var empty := LoaderLists([], [], []);
    if !doc.parsed then Loaded(empty, Some(ParseDocumentError))
    else if doc.deviceConfig.None? then Loaded(empty, Some(DeviceConfigError))
    else if doc.datasetConfig.None? then Loaded(empty, Some(DatasetConfigError))
    else
      var ifcs := doc.deviceConfig.value;
      var p := ReadInterfaces(ifcs, doc.interfaceConfigs, TelegramNames(doc.telegramTags), host, ipDotted, |ifcs|);
      Loaded(LoaderLists(p.interfaces, p.telegrams, DatasetsOf(doc.datasetConfig.value)), p.error)
  }

  // ---------------------------------------------------------------------------
  // Properties of a load

  /** Processing stops at the first interface without a readable configuration. */
  lemma {:induction false} ReadInterfacesSucceeds(ifcs: seq<IfConfig>, configs: map<string, InterfaceConfig>, names: map<uint32, string>,
                                                  host: string, ipDotted: uint32 -> string, n: nat)
    requires n <= |ifcs|
    ensures ReadInterfaces(ifcs, configs, names, host, ipDotted, n).error.None? <==> forall k :: 0 <= k < n ==> ifcs[k].ifName in configs
    ensures ReadInterfaces(ifcs, configs, names, host, ipDotted, n).error.Some? ==>
              ReadInterfaces(ifcs, configs, names, host, ipDotted, n).error == Some(InterfaceConfigError)
    decreases n
  {
    if n > 0 {
      ReadInterfacesSucceeds(ifcs, configs, names, host, ipDotted, n - 1);
    }
  }

  /** Once an interface fails, later interfaces change nothing. */
  lemma {:induction false} ReadInterfacesStops(ifcs: seq<IfConfig>, configs: map<string, InterfaceConfig>, names: map<uint32, string>,
                                               host: string, ipDotted: uint32 -> string, m: nat, n: nat)
    requires m <= n <= |ifcs|
    requires ReadInterfaces(ifcs, configs, names, host, ipDotted, m).error.Some?
    ensures ReadInterfaces(ifcs, configs, names, host, ipDotted, n) == ReadInterfaces(ifcs, configs, names, host, ipDotted, m)
    decreases n
  {
    if n > m {
      ReadInterfacesStops(ifcs, configs, names, host, ipDotted, m, n - 1);
    }
  }

  /** Every telegram built so far belongs to an interface built so far, and
      comes from one of that interface's exchanges with the defaults applied. */
  lemma {:induction false} ReadInterfacesOrigin(ifcs: seq<IfConfig>, configs: map<string, InterfaceConfig>, names: map<uint32, string>,
                                                host: string, ipDotted: uint32 -> string, n: nat, t: nat)
    requires n <= |ifcs|
    requires t < |ReadInterfaces(ifcs, configs, names, host, ipDotted, n).telegrams|
    ensures exists k, j :: 0 <= k < n && ifcs[k].ifName in configs && 0 <= j < |configs[ifcs[k].ifName].exchanges| &&
              ReadInterfaces(ifcs, configs, names, host, ipDotted, n).telegrams[t] ==
                TelegramOf(configs[ifcs[k].ifName].exchanges[j], ifcs[k].ifName, configs[ifcs[k].ifName].pdFlags, names, host)
    decreases n
  {
    var p := ReadInterfaces(ifcs, configs, names, host, ipDotted, n - 1);
    if p.error.None? && ifcs[n - 1].ifName in configs && t >= |p.telegrams| {
      var k := n - 1;
      var j := t - |p.telegrams|;
      var cfg := configs[ifcs[k].ifName];
      assert ReadInterfaces(ifcs, configs, names, host, ipDotted, n).telegrams[t] == TelegramsOfInterface(cfg, ifcs[k].ifName, names, host)[j];
    } else {
      ReadInterfacesOrigin(ifcs, configs, names, host, ipDotted, n - 1, t);
      var k, j :| 0 <= k < n - 1 && ifcs[k].ifName in configs && 0 <= j < |configs[ifcs[k].ifName].exchanges| &&
              p.telegrams[t] == TelegramOf(configs[ifcs[k].ifName].exchanges[j], ifcs[k].ifName, configs[ifcs[k].ifName].pdFlags, names, host);
    }
  }

  /** Interfaces keep the device configuration's order, one per entry reached. */
  lemma {:induction false} ReadInterfacesKeepsOrder(ifcs: seq<IfConfig>, configs: map<string, InterfaceConfig>, names: map<uint32, string>,
                                                    host: string, ipDotted: uint32 -> string, n: nat)
    requires n <= |ifcs|
    ensures var p := ReadInterfaces(ifcs, configs, names, host, ipDotted, n);
            |p.interfaces| <= n && (p.error.None? ==> |p.interfaces| == n) &&
            forall k :: 0 <= k < |p.interfaces| ==> p.interfaces[k] == InterfaceDefOf(ifcs[k], ipDotted)
    decreases n
  {
    if n > 0 {
      ReadInterfacesKeepsOrder(ifcs, configs, names, host, ipDotted, n - 1);
    }
  }

  /** A load succeeds exactly when every reader succeeds. */
  lemma LoadXmlSucceeds(doc: XmlDocument, host: string, ipDotted: uint32 -> string)
    ensures LoadXml(doc, host, ipDotted).error.None? <==>
              doc.parsed && doc.deviceConfig.Some? && doc.datasetConfig.Some? &&
              forall k :: 0 <= k < |doc.deviceConfig.value| ==> doc.deviceConfig.value[k].ifName in doc.interfaceConfigs
  {
    if doc.parsed && doc.deviceConfig.Some? && doc.datasetConfig.Some? {
      var ifcs := doc.deviceConfig.value;
      ReadInterfacesSucceeds(ifcs, doc.interfaceConfigs, TelegramNames(doc.telegramTags), host, ipDotted, |ifcs|);
    }
  }

  /** After a successful load: one interface per device entry, in order; each
      telegram comes from an exchange of a loaded interface, carries that
      interface's name, the name registered for its comId (else ""), a cycle of
      0 without PD parameters, and the marshalling flag of its parameters or
      else of the interface; datasets keep their order and elements. */
  lemma LoadXmlShape(doc: XmlDocument, host: string, ipDotted: uint32 -> string, t: nat)
    requires LoadXml(doc, host, ipDotted).error.None?
    ensures var l := LoadXml(doc, host, ipDotted).lists;
            && |l.interfaces| == |doc.deviceConfig.value|
            && (forall k :: 0 <= k < |l.interfaces| ==> l.interfaces[k] == InterfaceDefOf(doc.deviceConfig.value[k], ipDotted))
            && |l.datasets| == |doc.datasetConfig.value|
            && (forall d :: 0 <= d < |l.datasets| ==> l.datasets[d] == DatasetOf(doc.datasetConfig.value[d]))
    ensures var l := LoadXml(doc, host, ipDotted).lists;
            var names := TelegramNames(doc.telegramTags);
            t < |l.pdTelegrams| ==>
              exists k, ex :: 0 <= k < |l.interfaces| && l.interfaces[k].name in doc.interfaceConfigs &&
                ex in doc.interfaceConfigs[l.interfaces[k].name].exchanges &&
                var tel := l.pdTelegrams[t];
                && tel.interfaceName == l.interfaces[k].name
                && tel.comId == ex.comId
                && tel.datasetId == ex.datasetId
                && tel.direction == ExpectedDirection(ex, host)
                && tel.name == (if ex.comId in names then names[ex.comId] else "")
                && tel.cycleUs == (if ex.pdPar.Some? then ex.pdPar.value.cycle else 0)
                && tel.marshall == (if ex.pdPar.Some? then ex.pdPar.value.flags & MarshallFlag != 0
                                    else doc.interfaceConfigs[l.interfaces[k].name].pdFlags & MarshallFlag != 0)
  {
    var ifcs := doc.deviceConfig.value;
    var names := TelegramNames(doc.telegramTags);
    ReadInterfacesKeepsOrder(ifcs, doc.interfaceConfigs, names, host, ipDotted, |ifcs|);
    var l := LoadXml(doc, host, ipDotted).lists;
    if t < |l.pdTelegrams| {
      ReadInterfacesOrigin(ifcs, doc.interfaceConfigs, names, host, ipDotted, |ifcs|, t);
      var k, j :| 0 <= k < |ifcs| && ifcs[k].ifName in doc.interfaceConfigs && 0 <= j < |doc.interfaceConfigs[ifcs[k].ifName].exchanges| &&
              l.pdTelegrams[t] == TelegramOf(doc.interfaceConfigs[ifcs[k].ifName].exchanges[j], ifcs[k].ifName,
                                             doc.interfaceConfigs[ifcs[k].ifName].pdFlags, names, host);
      assert l.interfaces[k].name == ifcs[k].ifName;
      var ex := doc.interfaceConfigs[ifcs[k].ifName].exchanges[j];
      assert ex in doc.interfaceConfigs[l.interfaces[k].name].exchanges;
    }
  }

  /** The sequences concatenated in order. */
  function Flatten<T>(ss: seq<seq<T>>): seq<T>
    decreases |ss|
  {
    if |ss| == 0 then [] else Flatten(ss[..|ss| - 1]) + ss[|ss| - 1]
  }

  /** The telegrams of each of the first `n` interfaces, one sequence per
      interface. */
  function TelegramsPerInterface(ifcs: seq<IfConfig>, configs: map<string, InterfaceConfig>, names: map<uint32, string>,
                                 host: string, n: nat): seq<seq<PdTelegramDef>>
    requires n <= |ifcs|
    requires forall k :: 0 <= k < n ==> ifcs[k].ifName in configs
  {
    seq(n, k requires 0 <= k < n && ifcs[k].ifName in configs =>
             TelegramsOfInterface(configs[ifcs[k].ifName], ifcs[k].ifName, names, host))
  }

  /** Telegrams come interface by interface, each interface's in exchange
      order. */
  lemma {:induction false} ReadInterfacesInOrder(ifcs: seq<IfConfig>, configs: map<string, InterfaceConfig>, names: map<uint32, string>,
                                                 host: string, ipDotted: uint32 -> string, n: nat)
    requires n <= |ifcs|
    requires forall k :: 0 <= k < n ==> ifcs[k].ifName in configs
    ensures ReadInterfaces(ifcs, configs, names, host, ipDotted, n).telegrams == Flatten(TelegramsPerInterface(ifcs, configs, names, host, n))
    decreases n
  {
    if n > 0 {
      ReadInterfacesInOrder(ifcs, configs, names, host, ipDotted, n - 1);
      ReadInterfacesSucceeds(ifcs, configs, names, host, ipDotted, n - 1);
      assert TelegramsPerInterface(ifcs, configs, names, host, n)[..n - 1] == TelegramsPerInterface(ifcs, configs, names, host, n - 1);
    }
  }

  /** After a successful load the telegram list is the telegrams of the first
      interface, then of the second, and so on, each in exchange order. */
  lemma LoadXmlTelegramOrder(doc: XmlDocument, host: string, ipDotted: uint32 -> string)
    requires LoadXml(doc, host, ipDotted).error.None?
    ensures forall k :: 0 <= k < |doc.deviceConfig.value| ==> doc.deviceConfig.value[k].ifName in doc.interfaceConfigs
    ensures LoadXml(doc, host, ipDotted).lists.pdTelegrams ==
              Flatten(TelegramsPerInterface(doc.deviceConfig.value, doc.interfaceConfigs, TelegramNames(doc.telegramTags), host,
                                            |doc.deviceConfig.value|))
  {
    LoadXmlSucceeds(doc, host, ipDotted);
    var ifcs := doc.deviceConfig.value;
    ReadInterfacesInOrder(ifcs, doc.interfaceConfigs, TelegramNames(doc.telegramTags), host, ipDotted, |ifcs|);
  }

  // ---------------------------------------------------------------------------
  // The loader object

  /** Builds the elements of one dataset in order; a null element name becomes "". */
  method BuildDataset(raw: RawDataset) returns (d: Dataset)
    ensures d.id == raw.id && d.name == raw.name && |d.elements| == |raw.elements|
    ensures forall i :: 0 <= i < |raw.elements| ==>
              d.elements[i] == DatasetElement(raw.elements[i].name.GetOr(""), raw.elements[i].elementType, raw.elements[i].size)
  {
    var elements: seq<DatasetElement> := [];
    var i := 0;
    while i < |raw.elements|
      invariant 0 <= i <= |raw.elements|
      invariant |elements| == i
      invariant forall k :: 0 <= k < i ==> elements[k] == ElementOf(raw.elements[k])
    {
      var e := raw.elements[i];
      var name := if e.name.Some? then e.name.value else "";
      elements := elements + [DatasetElement(name, e.elementType, e.size)];
      i := i + 1;
    }
    d := Dataset(raw.id, raw.name, elements);
  }

  /** Appends the telegrams of one interface's exchanges, in exchange order. */
  method BuildTelegrams(cfg: InterfaceConfig, ifName: string, names: map<uint32, string>, host: string) returns (tels: seq<PdTelegramDef>)
    ensures |tels| == |cfg.exchanges|
    ensures forall j :: 0 <= j < |tels| ==> tels[j].interfaceName == ifName && tels[j].comId == cfg.exchanges[j].comId
    ensures tels == TelegramsOfInterface(cfg, ifName, names, host)
  {
    tels := [];
    var j := 0;
    while j < |cfg.exchanges|
      invariant 0 <= j <= |cfg.exchanges|
      invariant |tels| == j
      invariant forall k :: 0 <= k < j ==> tels[k] == TelegramOf(cfg.exchanges[k], ifName, cfg.pdFlags, names, host)
    {
      var ex := cfg.exchanges[j];
      var direction := DetermineDirection(ex, host);
      var flags := if ex.pdPar.Some? then ex.pdPar.value.flags else cfg.pdFlags;
      var telegram := PdTelegramDef(
        name := if ex.comId in names then names[ex.comId] else "",
        comId := ex.comId,
        datasetId := ex.datasetId,
        direction := direction,
        cycleUs := if ex.pdPar.Some? then ex.pdPar.value.cycle else 0,
        marshall := flags & MarshallFlag != 0,
        interfaceName := ifName);
      tels := tels + [telegram];
      j := j + 1;
    }
  }

  class TrdpConfigLoader {
    var interfaces: seq<InterfaceDef>
    var pdTelegrams: seq<PdTelegramDef>
    var datasets: seq<Dataset>

    constructor ()
      ensures interfaces == [] && pdTelegrams == [] && datasets == []
    {
      interfaces, pdTelegrams, datasets := [], [], [];
    }

    /** The three lists as one value. */
    function Lists(): LoaderLists
      reads this
    {
      LoaderLists(interfaces, pdTelegrams, datasets)
    }

    /** `loadFromXml` on the document found at the XML path. The lists are
        cleared first, so the new state is a function of the document and the
        host name alone; an error is the message of the exception thrown, and
        the lists then hold what was built before it. */
    method LoadFromXml(doc: XmlDocument, hostName: string, ipDotted: uint32 -> string) returns (error: Option<string>)
      modifies this
      ensures Loaded(Lists(), error) == LoadXml(doc, hostName, ipDotted)
    {
      interfaces, pdTelegrams, datasets := [], [], [];
      if !doc.parsed {
        return Some(ParseDocumentError);
      }
      var names := ParseTelegramNames(doc.telegramTags);
      if doc.deviceConfig.None? {
        return Some(DeviceConfigError);
      }
      if doc.datasetConfig.None? {
        return Some(DatasetConfigError);
      }

      var raws := doc.datasetConfig.value;
      var idx := 0;
      while idx < |raws|
        invariant 0 <= idx <= |raws|
        invariant |datasets| == idx
        invariant forall k :: 0 <= k < idx ==> datasets[k] == DatasetOf(raws[k])
        invariant interfaces == [] && pdTelegrams == []
      {
        var dataset := BuildDataset(raws[idx]);
        assert dataset == DatasetOf(raws[idx]);
        datasets := datasets + [dataset];
        idx := idx + 1;
      }
      assert datasets == DatasetsOf(raws);

      var ifcs := doc.deviceConfig.value;
      idx := 0;
      while idx < |ifcs|
        invariant 0 <= idx <= |ifcs|
        invariant datasets == DatasetsOf(raws)
        invariant ReadInterfaces(ifcs, doc.interfaceConfigs, names, hostName, ipDotted, idx) == InterfaceProgress(interfaces, pdTelegrams, None)
      {
        var iface := InterfaceDefOf(ifcs[idx], ipDotted);
        interfaces := interfaces + [iface];
        if ifcs[idx].ifName !in doc.interfaceConfigs {
          ReadInterfacesStops(ifcs, doc.interfaceConfigs, names, hostName, ipDotted, idx + 1, |ifcs|);
          return Some(InterfaceConfigError);
        }
        var tels := BuildTelegrams(doc.interfaceConfigs[ifcs[idx].ifName], iface.name, names, hostName);
        pdTelegrams := pdTelegrams + tels;
        idx := idx + 1;
      }
      return None;
    }
  }
}
