/** The PD runtime engine (trdp_engine.cpp). Pointers of the C++ code become
    indices: a runtime's `def` is an index into `pdDefs`, an interface's
    `pdList` holds indices into `pdRuntimes`. The TCNopen session calls
    (`tlc_init`, `tlc_openSession`, `tlp_subscribe`), the XML files and the
    steady clock are supplied as a `Platform`. */
module Engine {
  import opened TrdpTypes
  import ConfigLoader

  /** One `PdRuntime`; time points are nanoseconds on the steady clock. */
  datatype PdRuntime = PdRuntime(
    def: Option<nat>,
    txPayload: seq<uint8>,
    txEnabled: bool,
    nextTxDueNs: nat,
    lastRxPayload: seq<uint8>,
    lastRxTimeNs: nat,
    lastRxValid: bool,
    rxCount: uint64,
    txCount: uint64,
    timeoutCount: uint64,
    lastPeriodUs: real,
    avgPeriodUs: real)

  /** One `InterfaceRuntime`: the definition, the session handle, and the
      runtimes that receive on this interface. */
  datatype InterfaceRuntime = InterfaceRuntime(def: InterfaceDef, appHandle: nat, pdList: seq<nat>)

  /** One field of a decoded receive payload: its name, TRDP type code and
      values (one per array element). */
  datatype DecodedField = DecodedField(name: string, fieldType: uint32, values: seq<int64>)

  /** The engine's tables. */
  datatype EngineState = EngineState(
    interfaces: seq<InterfaceRuntime>,
    pdDefs: seq<PdTelegramDef>,
    pdRuntimes: seq<PdRuntime>,
    datasets: seq<Dataset>)

  /** The engine's foreign collaborators: the XML file at each path,
      `vos_ipDotted`, whether `tlc_init` succeeds, the handle `tlc_openSession`
      returns for an interface and the process host name (None on failure), whether `tlp_subscribe`
      succeeds for (handle, comId, timeout), and the clock reading taken when
      the runtime at a position is created. */
  datatype Platform = Platform(
    files: string -> ConfigLoader.XmlDocument,
    ipDotted: uint32 -> string,
    tlcInitOk: bool,
    openSession: (InterfaceDef, string) -> Option<nat>,
    subscribe: (nat, uint32, uint32) -> bool,
    clockNs: nat -> nat)

  const TlcInitError := "tlc_init failed"
  const OpenSessionError := "Failed to initialize TRDP session"
  const UnknownInterfaceError := "Unknown interface for PD telegram"
  const SubscribeError := "Failed to subscribe PD telegram"

  /** Indices are in range: runtimes name existing definitions, interface
      lists name existing runtimes. */
  ghost predicate StateValid(st: EngineState) {
    && (forall i :: 0 <= i < |st.pdRuntimes| && st.pdRuntimes[i].def.Some? ==> st.pdRuntimes[i].def.value < |st.pdDefs|)
    && (forall k :: 0 <= k < |st.interfaces| ==> ListValid(st.interfaces[k].pdList, |st.pdRuntimes|))
  }

  ghost predicate ListValid(list: seq<nat>, bound: nat) {
    forall j :: 0 <= j < |list| ==> list[j] < bound
  }

  /** The subscription timeout: twice the cycle in 32-bit unsigned arithmetic,
      0 for a telegram without a cycle. */
  function SubscribeTimeout(cycleUs: uint32): (t: uint32)
    ensures cycleUs == 0 ==> t == 0
    ensures 0 < cycleUs < 0x8000_0000 ==> t == 2 * cycleUs
    ensures cycleUs >= 0x8000_0000 ==> t == 2 * cycleUs - 0x1_0000_0000
    ensures t == 0 <==> cycleUs == 0 || cycleUs == 0x8000_0000
  {
    if cycleUs > 0 then (cycleUs * 2) % 0x1_0000_0000 else 0
  }

  /** The runtime created for definition `i`. */
  function FreshRuntime(i: nat, def: PdTelegramDef, nowNs: nat): PdRuntime {
    PdRuntime(
      def := Some(i),
      txPayload := [],
      txEnabled := def.direction != Sink,
      nextTxDueNs := nowNs,
      lastRxPayload := [],
      lastRxTimeNs := 0,
      lastRxValid := false,
      rxCount := 0,
      txCount := 0,
      timeoutCount := 0,
      lastPeriodUs := 0.0,
      avgPeriodUs := 0.0)
  }

  /** The first interface with the given name. */
  function InterfaceIndex(ifaces: seq<InterfaceRuntime>, name: string): (r: Option<nat>)
    ensures r.Some? ==> r.value < |ifaces| && ifaces[r.value].def.name == name &&
                        forall k :: 0 <= k < r.value ==> ifaces[k].def.name != name
    ensures r.None? ==> forall k :: 0 <= k < |ifaces| ==> ifaces[k].def.name != name
    decreases |ifaces|
  {
    if |ifaces| == 0 then None
    else if ifaces[0].def.name == name then Some(0)
    else
      var r := InterfaceIndex(ifaces[1..], name);
      if r.Some? then Some(r.value + 1) else None
  }

  /** The first runtime whose definition has `comId`, on interface `ifName`
      or on any interface when `ifName` is empty. */
  function PdRuntimeIndex(runtimes: seq<PdRuntime>, defs: seq<PdTelegramDef>, comId: uint32, ifName: string): (r: Option<nat>)
    ensures r.Some? ==> r.value < |runtimes| && Matches(runtimes[r.value], defs, comId, ifName) &&
                        forall k :: 0 <= k < r.value ==> !Matches(runtimes[k], defs, comId, ifName)
    ensures r.None? ==> forall k :: 0 <= k < |runtimes| ==> !Matches(runtimes[k], defs, comId, ifName)
    decreases |runtimes|
  {
    if |runtimes| == 0 then None
    else if Matches(runtimes[0], defs, comId, ifName) then Some(0)
    else
      var r := PdRuntimeIndex(runtimes[1..], defs, comId, ifName);
      if r.Some? then Some(r.value + 1) else None
  }

  /** The condition `findPdRuntime` tests; an out-of-range index is treated
      like a null definition. */
  predicate Matches(pd: PdRuntime, defs: seq<PdTelegramDef>, comId: uint32, ifName: string) {
    pd.def.Some? && pd.def.value < |defs| && defs[pd.def.value].comId == comId &&
    (ifName == "" || defs[pd.def.value].interfaceName == ifName)
  }

  /** Size of the `hostName` label in the TRDP process configuration. */
  const HostLabelSize := 16

  /** The host name as `strncpy` leaves it in the zero-initialised label:
      at most `HostLabelSize - 1` characters, so the label stays terminated. */
  function ProcessHostName(host: string): (name: string)
    ensures name <= host
    ensures |name| == if |host| < HostLabelSize then |host| else HostLabelSize - 1
  {
    if |host| < HostLabelSize then host else host[..HostLabelSize - 1]
  }

  /** Interfaces after opening sessions for the first `n` definitions. */
  datatype SessionProgress = SessionProgress(interfaces: seq<InterfaceRuntime>, error: Option<string>)

  function OpenSessions(defs: seq<InterfaceDef>, host: string, p: Platform, n: nat): SessionProgress
    requires n <= |defs|
    decreases n
  {
    if n == 0 then SessionProgress([], None)
    else
      var s := OpenSessions(defs, host, p, n - 1);
      if s.error.Some? then s
      else
        var handle := p.openSession(defs[n - 1], ProcessHostName(host));
        if handle.None? then SessionProgress(s.interfaces, Some(OpenSessionError))
        else SessionProgress(s.interfaces + [InterfaceRuntime(defs[n - 1], handle.value, [])], None)
  }

  /** Runtimes and interface lists after the first `n` definitions. */
  datatype RuntimeProgress = RuntimeProgress(runtimes: seq<PdRuntime>, interfaces: seq<InterfaceRuntime>, error: Option<string>)

  function BuildRuntimes(defs: seq<PdTelegramDef>, ifaces: seq<InterfaceRuntime>, p: Platform, n: nat): (b: RuntimeProgress)
    requires n <= |defs|
    ensures |b.interfaces| == |ifaces|
    decreases n
  {
    if n == 0 then RuntimeProgress([], ifaces, None)
    else
      var b := BuildRuntimes(defs, ifaces, p, n - 1);
      if b.error.Some? then b else AddRuntime(b, n - 1, defs[n - 1], p)
  }

  /** One iteration of the runtime loop for definition `i`: the runtime is
      pushed first; a receiving definition then needs an interface and a
      subscription, and joins that interface's list. */
  function AddRuntime(b: RuntimeProgress, i: nat, d: PdTelegramDef, p: Platform): (r: RuntimeProgress)
    ensures r.runtimes == b.runtimes + [FreshRuntime(i, d, p.clockNs(i))]
    ensures |r.interfaces| == |b.interfaces|
  {
    var runtimes := b.runtimes + [FreshRuntime(i, d, p.clockNs(i))];
    if d.direction == Source then RuntimeProgress(runtimes, b.interfaces, None)
    else
      var k := InterfaceIndex(b.interfaces, d.interfaceName);
      if k.None? then RuntimeProgress(runtimes, b.interfaces, Some(UnknownInterfaceError))
      else if !p.subscribe(b.interfaces[k.value].appHandle, d.comId, SubscribeTimeout(d.cycleUs)) then
        RuntimeProgress(runtimes, b.interfaces, Some(SubscribeError))
      else
        var iface := b.interfaces[k.value];
        RuntimeProgress(runtimes, b.interfaces[k.value := iface.(pdList := iface.pdList + [i])], None)
  }

  /** One iteration fails with an unknown interface exactly when a receiving
      definition names no interface, and a failed iteration leaves the
      interfaces alone. */
  lemma AddRuntimeError(b: RuntimeProgress, i: nat, d: PdTelegramDef, p: Platform)
    ensures var r := AddRuntime(b, i, d, p);
            && (r.error.Some? ==> r.interfaces == b.interfaces)
            && (r.error == Some(UnknownInterfaceError) <==>
                  d.direction != Source && InterfaceIndex(b.interfaces, d.interfaceName).None?)
  {
  }

  /** What one iteration does to interface `k`: definition and handle stay;
      the list grows by `i` only when the iteration succeeds for a receiving
      definition whose first interface by name is `k`. */
  lemma AddRuntimeAt(b: RuntimeProgress, i: nat, d: PdTelegramDef, p: Platform, k: nat)
    requires k < |b.interfaces|
    ensures var r := AddRuntime(b, i, d, p);
            && r.interfaces[k].def == b.interfaces[k].def
            && r.interfaces[k].appHandle == b.interfaces[k].appHandle
            && r.interfaces[k].pdList ==
                 b.interfaces[k].pdList +
                 (if r.error.None? && d.direction != Source && InterfaceIndex(b.interfaces, d.interfaceName) == Some(k) then [i] else [])
  {
  }

  /** The engine state and error after `loadConfig`. */
  datatype LoadResult = LoadResult(state: EngineState, error: Option<string>)

  /** `TrdpEngine::loadConfig` as a function of the previous state. A loader
      failure leaves the state as it was; a later failure leaves the new
      definitions and whatever was built before the exception. */
  function LoadConfigSpec(st: EngineState, xmlPath: string, hostName: string, p: Platform): LoadResult {
    var loaded := ConfigLoader.LoadXml(p.files(xmlPath), hostName, p.ipDotted);
    if loaded.error.Some? then LoadResult(st, loaded.error)
    else
      var defs := loaded.lists.pdTelegrams;
      var cleared := EngineState([], defs, [], loaded.lists.datasets);
      if !p.tlcInitOk then LoadResult(cleared, Some(TlcInitError))
      else
        var s := OpenSessions(loaded.lists.interfaces, hostName, p, |loaded.lists.interfaces|);
        if s.error.Some? then LoadResult(cleared.(interfaces := s.interfaces), s.error)
        else
          var b := BuildRuntimes(defs, s.interfaces, p, |defs|);
          LoadResult(EngineState(b.interfaces, defs, b.runtimes, loaded.lists.datasets), b.error)
  }

  // ---------------------------------------------------------------------------
  // Properties of loadConfig

  /** Sessions are opened in interface order; each interface starts with an
      empty list. */
  lemma {:induction false} OpenSessionsShape(defs: seq<InterfaceDef>, host: string, p: Platform, n: nat)
    requires n <= |defs|
    ensures var s := OpenSessions(defs, host, p, n);
            |s.interfaces| <= n && (s.error.None? ==> |s.interfaces| == n) &&
            forall k :: 0 <= k < |s.interfaces| ==> s.interfaces[k].def == defs[k] && s.interfaces[k].pdList == []
    decreases n
  {
    if n > 0 {
      OpenSessionsShape(defs, host, p, n - 1);
    }
  }

  /** Building runtimes keeps the interfaces' definitions and handles, and
      each runtime is the fresh runtime of its own definition. */
  lemma {:induction false} BuildRuntimesShape(defs: seq<PdTelegramDef>, ifaces: seq<InterfaceRuntime>, p: Platform, n: nat)
    requires n <= |defs|
    ensures var b := BuildRuntimes(defs, ifaces, p, n);
            && |b.runtimes| <= n
            && (b.error.None? ==> |b.runtimes| == n)
            && (forall i :: 0 <= i < |b.runtimes| ==> b.runtimes[i] == FreshRuntime(i, defs[i], p.clockNs(i)))
            && (forall k :: 0 <= k < |ifaces| ==> b.interfaces[k].def == ifaces[k].def && b.interfaces[k].appHandle == ifaces[k].appHandle)
    decreases n
  {
    BuildRuntimesCount(defs, ifaces, p, n);
    BuildRuntimesFresh(defs, ifaces, p, n);
    BuildRuntimesIdentity(defs, ifaces, p, n);
  }

  /** Runtime `i` is the fresh runtime of definition `i`. */
  lemma {:induction false} BuildRuntimesFresh(defs: seq<PdTelegramDef>, ifaces: seq<InterfaceRuntime>, p: Platform, n: nat)
    requires n <= |defs|
    ensures var b := BuildRuntimes(defs, ifaces, p, n);
            |b.runtimes| <= n && forall i :: 0 <= i < |b.runtimes| ==> b.runtimes[i] == FreshRuntime(i, defs[i], p.clockNs(i))
    decreases n
  {
    BuildRuntimesCount(defs, ifaces, p, n);
    if n > 0 {
      BuildRuntimesFresh(defs, ifaces, p, n - 1);
      BuildRuntimesCount(defs, ifaces, p, n - 1);
      var b := BuildRuntimes(defs, ifaces, p, n - 1);
      if b.error.None? {
        var r := AddRuntime(b, n - 1, defs[n - 1], p);
        assert BuildRuntimes(defs, ifaces, p, n) == r;
        assert r.runtimes == b.runtimes + [FreshRuntime(n - 1, defs[n - 1], p.clockNs(n - 1))];
      }
    }
  }

  /** Interfaces keep their definitions and handles. */
  lemma {:induction false} BuildRuntimesIdentity(defs: seq<PdTelegramDef>, ifaces: seq<InterfaceRuntime>, p: Platform, n: nat)
    requires n <= |defs|
    ensures var b := BuildRuntimes(defs, ifaces, p, n);
            forall k :: 0 <= k < |ifaces| ==> b.interfaces[k].def == ifaces[k].def && b.interfaces[k].appHandle == ifaces[k].appHandle
    decreases n
  {
    if n > 0 {
      BuildRuntimesIdentity(defs, ifaces, p, n - 1);
      var b := BuildRuntimes(defs, ifaces, p, n - 1);
      if b.error.None? {
        forall k | 0 <= k < |ifaces|
          ensures BuildRuntimes(defs, ifaces, p, n).interfaces[k].def == ifaces[k].def
          ensures BuildRuntimes(defs, ifaces, p, n).interfaces[k].appHandle == ifaces[k].appHandle
        {
          AddRuntimeAt(b, n - 1, defs[n - 1], p, k);
        }
      }
    }
  }

  /** One successful iteration of the runtime loop, seen from interface `k`. */
  lemma BuildRuntimesListStep(defs: seq<PdTelegramDef>, ifaces: seq<InterfaceRuntime>, p: Platform, n: nat, k: nat)
    requires 0 < n <= |defs|
    requires k < |ifaces|
    requires BuildRuntimes(defs, ifaces, p, n).error.None?
    ensures BuildRuntimes(defs, ifaces, p, n - 1).error.None?
    ensures BuildRuntimes(defs, ifaces, p, n).interfaces[k].pdList ==
              BuildRuntimes(defs, ifaces, p, n - 1).interfaces[k].pdList +
              (if defs[n - 1].direction != Source && InterfaceIndex(ifaces, defs[n - 1].interfaceName) == Some(k) then [n - 1] else [])
  {
    var b := BuildRuntimes(defs, ifaces, p, n - 1);
    BuildRuntimesIdentity(defs, ifaces, p, n - 1);
    AddRuntimeAt(b, n - 1, defs[n - 1], p, k);
    InterfaceIndexByNames(b.interfaces, ifaces, defs[n - 1].interfaceName);
  }

  /** A runtime is appended to an interface's list exactly when its
      definition is not a Source and that interface is the first one with the
      definition's interface name. */
  lemma {:induction false} BuildRuntimesLists(defs: seq<PdTelegramDef>, ifaces: seq<InterfaceRuntime>, p: Platform, n: nat, k: nat, i: nat)
    requires n <= |defs|
    requires k < |ifaces|
    requires forall j :: 0 <= j < |ifaces| ==> ifaces[j].pdList == []
    requires BuildRuntimes(defs, ifaces, p, n).error.None?
    ensures i in BuildRuntimes(defs, ifaces, p, n).interfaces[k].pdList <==>
              i < n && defs[i].direction != Source && InterfaceIndex(ifaces, defs[i].interfaceName) == Some(k)
    decreases n
  {
    if n > 0 {
      BuildRuntimesListStep(defs, ifaces, p, n, k);
      BuildRuntimesLists(defs, ifaces, p, n - 1, k, i);
    }
  }

  /** Each interface's list is strictly increasing: runtimes are listed in
      definition order, each once. */
  lemma {:induction false} BuildRuntimesListsOrdered(defs: seq<PdTelegramDef>, ifaces: seq<InterfaceRuntime>, p: Platform, n: nat, k: nat)
    requires n <= |defs|
    requires k < |ifaces|
    requires forall j :: 0 <= j < |ifaces| ==> ifaces[j].pdList == []
    requires BuildRuntimes(defs, ifaces, p, n).error.None?
    ensures var list := BuildRuntimes(defs, ifaces, p, n).interfaces[k].pdList;
            (forall a :: 0 <= a < |list| ==> list[a] < n) &&
            (forall a, c :: 0 <= a < c < |list| ==> list[a] < list[c])
    decreases n
  {
    if n > 0 {
      BuildRuntimesListStep(defs, ifaces, p, n, k);
      BuildRuntimesListsOrdered(defs, ifaces, p, n - 1, k);
    }
  }

  /** The first-match lookup only sees interface names. */
  lemma {:induction false} InterfaceIndexByNames(a: seq<InterfaceRuntime>, b: seq<InterfaceRuntime>, name: string)
    requires |a| == |b|
    requires forall k :: 0 <= k < |a| ==> a[k].def == b[k].def
    ensures InterfaceIndex(a, name) == InterfaceIndex(b, name)
    decreases |a|
  {
    if |a| > 0 && a[0].def.name != name {
      InterfaceIndexByNames(a[1..], b[1..], name);
    }
  }

  /** A build that succeeds gave every non-Source definition an interface. */
  lemma {:induction false} BuildRuntimesNeedsInterfaces(defs: seq<PdTelegramDef>, ifaces: seq<InterfaceRuntime>, p: Platform, n: nat, i: nat)
    requires n <= |defs|
    requires i < n
    requires BuildRuntimes(defs, ifaces, p, n).error.None?
    requires defs[i].direction != Source
    ensures InterfaceIndex(ifaces, defs[i].interfaceName).Some?
    decreases n
  {
    var b := BuildRuntimes(defs, ifaces, p, n - 1);
    BuildRuntimesIdentity(defs, ifaces, p, n - 1);
    if i < n - 1 {
      BuildRuntimesNeedsInterfaces(defs, ifaces, p, n - 1, i);
    } else {
      AddRuntimeError(b, n - 1, defs[n - 1], p);
      InterfaceIndexByNames(b.interfaces, ifaces, defs[n - 1].interfaceName);
    }
  }

  /** A build reaches an unknown interface only when a non-Source definition
      names no interface. */
  lemma {:induction false} BuildRuntimesUnknownInterface(defs: seq<PdTelegramDef>, ifaces: seq<InterfaceRuntime>, p: Platform, n: nat)
    requires n <= |defs|
    requires BuildRuntimes(defs, ifaces, p, n).error == Some(UnknownInterfaceError)
    ensures exists i :: 0 <= i < n && defs[i].direction != Source && InterfaceIndex(ifaces, defs[i].interfaceName).None?
    decreases n
  {
    var b := BuildRuntimes(defs, ifaces, p, n - 1);
    if b.error.Some? {
      BuildRuntimesUnknownInterface(defs, ifaces, p, n - 1);
    } else {
      BuildRuntimesIdentity(defs, ifaces, p, n - 1);
      AddRuntimeError(b, n - 1, defs[n - 1], p);
      InterfaceIndexByNames(b.interfaces, ifaces, defs[n - 1].interfaceName);
      assert defs[n - 1].direction != Source && InterfaceIndex(ifaces, defs[n - 1].interfaceName).None?;
    }
  }

  /** After a successful load: one interface per loaded interface definition,
      in order, and one runtime per definition in order, each
      referring to its own definition, transmitting unless it is a Sink, with
      zero counters, no valid receipt and zero periods; every non-Source
      definition names a loaded interface and is in the list of the first such
      interface and of no other; Source definitions are in no list. */
  lemma LoadConfigSucceeded(st: EngineState, xmlPath: string, hostName: string, p: Platform, i: nat, k: nat)
    requires LoadConfigSpec(st, xmlPath, hostName, p).error.None?
    ensures var ns := LoadConfigSpec(st, xmlPath, hostName, p).state;
            && ns.pdDefs == ConfigLoader.LoadXml(p.files(xmlPath), hostName, p.ipDotted).lists.pdTelegrams
            && ns.datasets == ConfigLoader.LoadXml(p.files(xmlPath), hostName, p.ipDotted).lists.datasets
            && |ns.pdRuntimes| == |ns.pdDefs|
            && |ns.interfaces| == |ConfigLoader.LoadXml(p.files(xmlPath), hostName, p.ipDotted).lists.interfaces|
    ensures var ns := LoadConfigSpec(st, xmlPath, hostName, p).state;
            var loadedIfaces := ConfigLoader.LoadXml(p.files(xmlPath), hostName, p.ipDotted).lists.interfaces;
            forall j :: 0 <= j < |ns.interfaces| ==> j < |loadedIfaces| && ns.interfaces[j].def == loadedIfaces[j]
    ensures var ns := LoadConfigSpec(st, xmlPath, hostName, p).state;
            i < |ns.pdRuntimes| ==>
              var rt := ns.pdRuntimes[i];
              && rt.def == Some(i)
              && (rt.txEnabled <==> ns.pdDefs[i].direction != Sink)
              && rt.rxCount == 0 && rt.txCount == 0 && rt.timeoutCount == 0
              && !rt.lastRxValid
              && rt.lastPeriodUs == 0.0 && rt.avgPeriodUs == 0.0
              && rt.txPayload == [] && rt.lastRxPayload == []
    ensures var ns := LoadConfigSpec(st, xmlPath, hostName, p).state;
            i < |ns.pdDefs| && ns.pdDefs[i].direction != Source ==>
              exists j :: 0 <= j < |ns.interfaces| && ns.interfaces[j].def.name == ns.pdDefs[i].interfaceName
    ensures var ns := LoadConfigSpec(st, xmlPath, hostName, p).state;
            k < |ns.interfaces| ==>
              (i in ns.interfaces[k].pdList <==>
                 i < |ns.pdDefs| && ns.pdDefs[i].direction != Source && InterfaceIndex(ns.interfaces, ns.pdDefs[i].interfaceName) == Some(k))
  {
    var loaded := ConfigLoader.LoadXml(p.files(xmlPath), hostName, p.ipDotted);
    var defs := loaded.lists.pdTelegrams;
    var s := OpenSessions(loaded.lists.interfaces, hostName, p, |loaded.lists.interfaces|);
    OpenSessionsShape(loaded.lists.interfaces, hostName, p, |loaded.lists.interfaces|);
    var b := BuildRuntimes(defs, s.interfaces, p, |defs|);
    BuildRuntimesShape(defs, s.interfaces, p, |defs|);
    BuildRuntimesIdentity(defs, s.interfaces, p, |defs|);
    InterfaceIndexByNames(b.interfaces, s.interfaces, if i < |defs| then defs[i].interfaceName else "");
    if i < |defs| && defs[i].direction != Source {
      BuildRuntimesNeedsInterfaces(defs, s.interfaces, p, |defs|, i);
      var j := InterfaceIndex(s.interfaces, defs[i].interfaceName).value;
      assert b.interfaces[j].def.name == defs[i].interfaceName;
    }
    if k < |s.interfaces| {
      BuildRuntimesLists(defs, s.interfaces, p, |defs|, k, i);
    }
  }

  /** The lists built by a load are in range. */
  lemma BuildRuntimesValid(defs: seq<PdTelegramDef>, ifaces: seq<InterfaceRuntime>, p: Platform)
    requires forall k :: 0 <= k < |ifaces| ==> ifaces[k].pdList == []
    ensures var b := BuildRuntimes(defs, ifaces, p, |defs|);
            StateValid(EngineState(b.interfaces, defs, b.runtimes, []))
  {
    var b := BuildRuntimes(defs, ifaces, p, |defs|);
    BuildRuntimesShape(defs, ifaces, p, |defs|);
    forall k | 0 <= k < |b.interfaces|
      ensures ListValid(b.interfaces[k].pdList, |b.runtimes|)
    {
      BuildRuntimesListsInRange(defs, ifaces, p, |defs|, k);
    }
  }

  /** Every listed runtime exists, whether or not the build failed. */
  lemma {:induction false} BuildRuntimesListsInRange(defs: seq<PdTelegramDef>, ifaces: seq<InterfaceRuntime>, p: Platform, n: nat, k: nat)
    requires n <= |defs|
    requires k < |ifaces|
    requires forall j :: 0 <= j < |ifaces| ==> ifaces[j].pdList == []
    ensures ListValid(BuildRuntimes(defs, ifaces, p, n).interfaces[k].pdList, |BuildRuntimes(defs, ifaces, p, n).runtimes|)
    decreases n
  {
    if n > 0 {
      BuildRuntimesListsInRange(defs, ifaces, p, n - 1, k);
      var b := BuildRuntimes(defs, ifaces, p, n - 1);
      if b.error.None? {
        var d := defs[n - 1];
        var r := AddRuntime(b, n - 1, d, p);
        assert BuildRuntimes(defs, ifaces, p, n) == r;
        BuildRuntimesCount(defs, ifaces, p, n - 1);
        AddRuntimeAt(b, n - 1, d, p, k);
        var extra := if r.error.None? && d.direction != Source && InterfaceIndex(b.interfaces, d.interfaceName) == Some(k) then [n - 1] else [];
        assert r.interfaces[k].pdList == b.interfaces[k].pdList + extra;
        ListValidAppend(b.interfaces[k].pdList, extra, |b.runtimes|, |r.runtimes|);
      }
    }
  }

  /** A build that has not failed holds one runtime per definition. */
  lemma {:induction false} BuildRuntimesCount(defs: seq<PdTelegramDef>, ifaces: seq<InterfaceRuntime>, p: Platform, n: nat)
    requires n <= |defs|
    ensures |BuildRuntimes(defs, ifaces, p, n).runtimes| <= n
    ensures BuildRuntimes(defs, ifaces, p, n).error.None? ==> |BuildRuntimes(defs, ifaces, p, n).runtimes| == n
    decreases n
  {
    if n > 0 {
      BuildRuntimesCount(defs, ifaces, p, n - 1);
    }
  }

  lemma ListValidAppend(list: seq<nat>, extra: seq<nat>, bound: nat, bound2: nat)
    requires ListValid(list, bound) && bound <= bound2 && ListValid(extra, bound2)
    ensures ListValid(list + extra, bound2)
  {
    assert forall j :: 0 <= j < |list + extra| ==> (list + extra)[j] == if j < |list| then list[j] else extra[j - |list|];
  }

  /** `loadConfig` keeps the engine's indices in range. */
  lemma LoadConfigValid(st: EngineState, xmlPath: string, hostName: string, p: Platform)
    requires StateValid(st)
    ensures StateValid(LoadConfigSpec(st, xmlPath, hostName, p).state)
  {
    var loaded := ConfigLoader.LoadXml(p.files(xmlPath), hostName, p.ipDotted);
    if loaded.error.None? && p.tlcInitOk {
      var s := OpenSessions(loaded.lists.interfaces, hostName, p, |loaded.lists.interfaces|);
      OpenSessionsShape(loaded.lists.interfaces, hostName, p, |loaded.lists.interfaces|);
      BuildRuntimesValid(loaded.lists.pdTelegrams, s.interfaces, p);
    }
  }

  // ---------------------------------------------------------------------------
  // The engine object

  class TrdpEngine {
    var interfaces: seq<InterfaceRuntime>
    var pdDefs: seq<PdTelegramDef>
    var pdRuntimes: seq<PdRuntime>
    var datasets: seq<Dataset>
    var running: bool

    /** The tables as one value. */
    function State(): EngineState
      reads this
    {
      EngineState(interfaces, pdDefs, pdRuntimes, datasets)
    }

    ghost predicate Valid()
      reads this
    {
      StateValid(State())
    }

    /** A value-initialised engine: empty tables, not running. */
    constructor ()
      ensures State() == EngineState([], [], [], []) && !running && Valid()
    {
      interfaces, pdDefs, pdRuntimes, datasets := [], [], [], [];
      running := false;
    }

    /** `loadConfig`: rebuilds the tables from the XML at `xmlPath`; an error
        is the message of the exception thrown. */
    method LoadConfig(xmlPath: string, hostName: string, p: Platform) returns (error: Option<string>)
      requires Valid()
      modifies this
      ensures Valid() && running == old(running)
      ensures LoadResult(State(), error) == LoadConfigSpec(old(State()), xmlPath, hostName, p)
    {
      LoadConfigValid(State(), xmlPath, hostName, p);
      var loader := new ConfigLoader.TrdpConfigLoader();
      var loadError := loader.LoadFromXml(p.files(xmlPath), hostName, p.ipDotted);
      if loadError.Some? {
        return loadError;
      }
      datasets := loader.datasets;
      pdDefs := loader.pdTelegrams;
      interfaces := [];
      pdRuntimes := [];
      if !p.tlcInitOk {
        return Some(TlcInitError);
      }
      error := OpenAllSessions(loader.interfaces, hostName, p);
      if error.Some? {
        return;
      }
      error := SubscribeAll(p);
    }

    /** The session loop of `loadConfig`: one session per interface, in
        order, stopping at the first session that fails to open. */
    method OpenAllSessions(ifaceDefs: seq<InterfaceDef>, hostName: string, p: Platform) returns (error: Option<string>)
      requires interfaces == []
      modifies this
      ensures SessionProgress(interfaces, error) == OpenSessions(ifaceDefs, hostName, p, |ifaceDefs|)
      ensures pdDefs == old(pdDefs) && pdRuntimes == old(pdRuntimes) && datasets == old(datasets) && running == old(running)
    {
      var idx := 0;
      while idx < |ifaceDefs|
        invariant 0 <= idx <= |ifaceDefs|
        invariant OpenSessions(ifaceDefs, hostName, p, idx) == SessionProgress(interfaces, None)
        invariant pdDefs == old(pdDefs) && pdRuntimes == old(pdRuntimes) && datasets == old(datasets) && running == old(running)
      {
        var handle := p.openSession(ifaceDefs[idx], ProcessHostName(hostName));
        if handle.None? {
          OpenSessionsStops(ifaceDefs, hostName, p, idx + 1, |ifaceDefs|);
          return Some(OpenSessionError);
        }
        interfaces := interfaces + [InterfaceRuntime(ifaceDefs[idx], handle.value, [])];
        idx := idx + 1;
      }
      return None;
    }

    /** The runtime loop of `loadConfig`: one runtime per definition, each
        receiving definition subscribed on its interface and listed there. */
    method SubscribeAll(p: Platform) returns (error: Option<string>)
      requires pdRuntimes == []
      modifies this
      ensures RuntimeProgress(pdRuntimes, interfaces, error) == BuildRuntimes(pdDefs, old(interfaces), p, |pdDefs|)
      ensures pdDefs == old(pdDefs) && datasets == old(datasets) && running == old(running)
    {
      ghost var ifaces := interfaces;
      var idx := 0;
      while idx < |pdDefs|
        invariant 0 <= idx <= |pdDefs|
        invariant BuildRuntimes(pdDefs, ifaces, p, idx) == RuntimeProgress(pdRuntimes, interfaces, None)
        invariant pdDefs == old(pdDefs) && datasets == old(datasets) && running == old(running)
      {
        error := SubscribeOne(idx, p);
        if error.Some? {
          BuildRuntimesStops(pdDefs, ifaces, p, idx + 1, |pdDefs|);
          return;
        }
        idx := idx + 1;
      }
      return None;
    }

    /** One iteration of the runtime loop for definition `idx`: push a fresh
        runtime; a receiving definition then needs its interface and a
        subscription, and joins that interface's list. */
    method SubscribeOne(idx: nat, p: Platform) returns (error: Option<string>)
      requires idx < |pdDefs|
      modifies this
      ensures pdDefs == old(pdDefs) && datasets == old(datasets) && running == old(running)
      ensures RuntimeProgress(pdRuntimes, interfaces, error) ==
                AddRuntime(RuntimeProgress(old(pdRuntimes), old(interfaces), None), idx, pdDefs[idx], p)
    {
      var d := pdDefs[idx];
      pdRuntimes := pdRuntimes + [FreshRuntime(idx, d, p.clockNs(idx))];
      if d.direction != Source {
        var k := FindInterface(d.interfaceName);
        if k.None? {
          return Some(UnknownInterfaceError);
        }
        var ok := p.subscribe(interfaces[k.value].appHandle, d.comId, SubscribeTimeout(d.cycleUs));
        if !ok {
          return Some(SubscribeError);
        }
        var iface := interfaces[k.value];
        interfaces := interfaces[k.value := iface.(pdList := iface.pdList + [idx])];
      }
      return None;
    }

    /** `start`: sets the running flag and nothing else. */
    method Start()
      modifies this
      ensures running && State() == old(State())
    {
      running := true;
    }

    /** `stop`: clears the running flag and nothing else. */
    method Stop()
      modifies this
      ensures !running && State() == old(State())
    {
      running := false;
    }

    /** `getPdSnapshot`: a copy of the runtimes. */
    method GetPdSnapshot() returns (snapshot: seq<PdRuntime>)
      ensures snapshot == pdRuntimes
    {
      snapshot := pdRuntimes;
    }

    /** `findInterface`: the index of the first interface with the name. */
    method FindInterface(name: string) returns (r: Option<nat>)
      ensures r == InterfaceIndex(interfaces, name)
      ensures r.Some? ==> r.value < |interfaces| && interfaces[r.value].def.name == name
    {
      var k := 0;
      while k < |interfaces|
        invariant 0 <= k <= |interfaces|
        invariant forall j :: 0 <= j < k ==> interfaces[j].def.name != name
      {
        if interfaces[k].def.name == name {
          FirstInterfaceIs(interfaces, name, k);
          return Some(k);
        }
        k := k + 1;
      }
      return None;
    }

    /** `findPdRuntime`: the index of the first matching runtime. */
    method FindPdRuntime(comId: uint32, ifName: string) returns (r: Option<nat>)
      ensures r == PdRuntimeIndex(pdRuntimes, pdDefs, comId, ifName)
    {
      var k := 0;
      while k < |pdRuntimes|
        invariant 0 <= k <= |pdRuntimes|
        invariant forall j :: 0 <= j < k ==> !Matches(pdRuntimes[j], pdDefs, comId, ifName)
      {
        var pd := pdRuntimes[k];
        if pd.def.Some? && pd.def.value < |pdDefs| && pdDefs[pd.def.value].comId == comId &&
           (ifName == "" || pdDefs[pd.def.value].interfaceName == ifName) {
          FirstRuntimeIs(pdRuntimes, pdDefs, comId, ifName, k);
          return Some(k);
        }
        k := k + 1;
      }
      return None;
    }

    /** `enablePd`: sets `txEnabled` of the first runtime with the comId, on
        any interface; nothing else changes, and nothing at all when no
        runtime has the comId. */
    method EnablePd(comId: uint32, enable: bool)
      requires Valid()
      modifies this
      ensures Valid() && running == old(running)
      ensures interfaces == old(interfaces) && pdDefs == old(pdDefs) && datasets == old(datasets)
      ensures var r := PdRuntimeIndex(old(pdRuntimes), pdDefs, comId, "");
              pdRuntimes == if r.Some? then old(pdRuntimes)[r.value := old(pdRuntimes)[r.value].(txEnabled := enable)]
                            else old(pdRuntimes)
    {
      var r := FindPdRuntime(comId, "");
      if r.Some? {
        var pd := pdRuntimes[r.value];
        pdRuntimes := pdRuntimes[r.value := pd.(txEnabled := enable)];
      }
    }
  }

  /** An index before which no name matches is the first match. */
  lemma {:induction false} FirstInterfaceIs(ifaces: seq<InterfaceRuntime>, name: string, k: nat)
    requires k < |ifaces| && ifaces[k].def.name == name
    requires forall j :: 0 <= j < k ==> ifaces[j].def.name != name
    ensures InterfaceIndex(ifaces, name) == Some(k)
    decreases k
  {
    if k > 0 {
      FirstInterfaceIs(ifaces[1..], name, k - 1);
    }
  }

  lemma {:induction false} FirstRuntimeIs(runtimes: seq<PdRuntime>, defs: seq<PdTelegramDef>, comId: uint32, ifName: string, k: nat)
    requires k < |runtimes| && Matches(runtimes[k], defs, comId, ifName)
    requires forall j :: 0 <= j < k ==> !Matches(runtimes[j], defs, comId, ifName)
    ensures PdRuntimeIndex(runtimes, defs, comId, ifName) == Some(k)
    decreases k
  {
    if k > 0 {
      FirstRuntimeIs(runtimes[1..], defs, comId, ifName, k - 1);
    }
  }

  lemma {:induction false} OpenSessionsStops(defs: seq<InterfaceDef>, host: string, p: Platform, m: nat, n: nat)
    requires m <= n <= |defs|
    requires OpenSessions(defs, host, p, m).error.Some?
    ensures OpenSessions(defs, host, p, n) == OpenSessions(defs, host, p, m)
    decreases n
  {
    if n > m {
      OpenSessionsStops(defs, host, p, m, n - 1);
    }
  }

  lemma {:induction false} BuildRuntimesStops(defs: seq<PdTelegramDef>, ifaces: seq<InterfaceRuntime>, p: Platform, m: nat, n: nat)
    requires m <= n <= |defs|
    requires BuildRuntimes(defs, ifaces, p, m).error.Some?
    ensures BuildRuntimes(defs, ifaces, p, n) == BuildRuntimes(defs, ifaces, p, m)
    decreases n
  {
    if n > m {
      BuildRuntimesStops(defs, ifaces, p, m, n - 1);
    }
  }
}
