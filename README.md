# webTRDP backend core, modelled in Dafny

webTRDP is a web front end for TRDP, the Train Real-time Data Protocol of
IEC 61375-2-3. This project models the C++ part of the repository:

- **The configuration loader** (`TrdpConfigLoader`). It reads a TRDP XML
  device configuration. It turns the configuration into three lists: interface
  definitions, process-data (PD) telegram definitions and datasets. A
  telegram's direction depends on whether the local host name appears among
  its source or destination URIs.
- **The engine** (`TrdpEngine`). It reloads the configuration, clears its
  state and initialises the TRDP stack. It opens one session per interface and
  creates one runtime per telegram. It subscribes every telegram that is not a
  pure source, with a timeout of twice its cycle in 32-bit arithmetic. It also
  finds interfaces and runtimes, and switches a telegram's transmission on or
  off.
- **The JSON serialisers** (`json_utils`). They render directions, data types,
  values, payloads in hex and a whole PD runtime as JSON.
- **The REST controller** (`TrdpController`). It has four handlers:
  `GET /api/pd/telegrams`, `POST /api/configs/load`,
  `POST /api/pd/{com_id}/enable` and `PATCH /api/pd/{com_id}/values`. The
  three handlers that read a body order their checks the same way: request
  validation (400), then the engine check (500), then the work.
  `GET /api/pd/telegrams` has no request to validate; its only check is the
  engine check (500). A jsoncpp exception escapes the handler.
- **Settings resolution** (`config_paths`). It covers the XML path, host name,
  listen address and port, daemon switch and configuration directory. The
  environment overrides the compile-time defaults.
- **The backend's `main`**, which runs the start-up checks in order, and the
  **configuration dump tool**, which handles command-line arguments.
- **The stub engine** of `core.cpp`, which only tracks whether it is running.

The repository also describes a browser client. The code contains only a
placeholder for it (`frontend/src/App.tsx`), so this model follows the C++
code and leaves the client out.

## How things are represented

- **Environment and file system.** The process environment is a
  `map<string, string>`. The XML file is an `XmlDocument` value, which is what
  the TAU XML parser would have read. The file system and the TRDP stack are
  function-valued inputs of `Engine.Platform`.
- **Exceptions.** A C++ exception is an error value: `Option<string>` holding
  the exception's message, or `Reply.Failed(message)` in the controller.
  The jsoncpp errors have their own messages:
  - `asString` on an array or object;
  - `asBool` on a string, array or object;
  - `isMember` on a value that is neither an object nor null.
- **Time.** Time points are natural numbers of nanoseconds.
- **Floating point.** Doubles are `real`. jsoncpp's text for a double is the
  input `realText`.
- **Integer widths.** They are Dafny subset types.
- **Wrap-around.** The subscription timeout's wrap-around is written out.
- **`std::stoi`.** It is modelled as `strtol` parsing: leading white space, an
  optional sign, the longest digit run, and failure when there are no digits
  or the value is out of `int` range.
- **`inet_pton(AF_INET, …)`.** It accepts exactly four dot-separated decimal
  parts. Each part must be between 0 and 255 and have no leading zero.

## Model

| member | source | states |
|---|---|---|
| ConfigLoader.MapDirection | trdp-core/src/trdp_config_loader.cpp:20-32 | The exchange type selects Source or Sink, and every other value selects SourceSink. Each branch is an if-and-only-if. |
| ConfigLoader.ExpectedDirection | trdp-core/src/trdp_config_loader.cpp:69-99 | Definition of `determineDirection`: a host among the sources and the destinations gives SourceSink, only the sources Source, only the destinations Sink, neither the exchange type's direction. Characterised by `DetermineDirection` (the loop version) and `NullHostsNeverMatch`. |
| ConfigLoader.DetermineDirection | trdp-core/src/trdp_config_loader.cpp:69-99 | Host in both sources and destinations gives SourceSink. Host only in sources gives Source; only in destinations gives Sink. Otherwise the configured exchange type decides. |
| ConfigLoader.NullHostsNeverMatch | trdp-core/src/trdp_config_loader.cpp:73-86 | If no URI names a host, the host never matches, so the direction comes from the exchange type. |
| ConfigLoader.NamesOfFirstWins | trdp-core/src/trdp_config_loader.cpp:34-67 | A com-id has a name exactly when some accepted `<telegram>` tag carries it. Its name is that of the first such tag, because `emplace` keeps the first. |
| ConfigLoader.ParseTelegramNames | trdp-core/src/trdp_config_loader.cpp:34-67 | The scan produces the first-wins name map. An unreadable file gives the empty map. |
| ConfigLoader.TelegramOf | trdp-core/src/trdp_config_loader.cpp:175-190 | Definition of one telegram: the name mapped to its comId or "", the comId and dataset id of the exchange, the expected direction, the PD cycle or 0, the marshalling flag of the PD parameters or else of the interface's PD defaults, and the interface name. Characterised by `ReadInterfacesOrigin`, `LoadXmlShape` and `BuildTelegrams`. |
| ConfigLoader.ReadInterfaces | trdp-core/src/trdp_config_loader.cpp:156-193 | Definition of the interface loop over the first `n` interfaces. Characterised by `ReadInterfacesSucceeds`, `ReadInterfacesStops`, `ReadInterfacesOrigin`, `ReadInterfacesKeepsOrder` and `ReadInterfacesInOrder`. |
| ConfigLoader.LoadXml | trdp-core/src/trdp_config_loader.cpp:103-218 | Definition of `loadFromXml` as a function of the document. Characterised by `LoadXmlSucceeds`, `LoadXmlShape` and `LoadXmlTelegramOrder`, and implemented by `TrdpConfigLoader.LoadFromXml`. |
| ConfigLoader.ReadInterfacesSucceeds | trdp-core/src/trdp_config_loader.cpp:156-193 | Reading the interfaces fails exactly when some interface has no interface configuration, and the error is "Failed to read TRDP interface configuration". |
| ConfigLoader.ReadInterfacesStops | trdp-core/src/trdp_config_loader.cpp:170-173 | After the first failing interface, further interfaces change nothing. |
| ConfigLoader.ReadInterfacesOrigin | trdp-core/src/trdp_config_loader.cpp:175-190 | Every telegram produced is the definition of one exchange of one processed interface. |
| ConfigLoader.ReadInterfacesKeepsOrder | trdp-core/src/trdp_config_loader.cpp:156-168 | Interface definitions are produced in device-configuration order, with the host IP rendered by `vos_ipDotted`. All of them are produced on success. |
| ConfigLoader.ReadInterfacesInOrder | trdp-core/src/trdp_config_loader.cpp:156-193 | The telegram list is the concatenation of each interface's exchanges, in order. |
| ConfigLoader.LoadXmlSucceeds | trdp-core/src/trdp_config_loader.cpp:103-218 | A load succeeds exactly when the document parses, the device and dataset configurations are read, and every interface has a configuration. |
| ConfigLoader.LoadXmlShape | trdp-core/src/trdp_config_loader.cpp:134-190 | On success, interfaces and datasets match the configuration one to one. Each telegram takes its comId, dataset, direction, name, cycle and marshalling flag from its exchange. The flag comes from the exchange's own PD parameters or, when those are missing, from the interface's. |
| ConfigLoader.LoadXmlTelegramOrder | trdp-core/src/trdp_config_loader.cpp:156-193 | On success, the loaded telegram list is the interfaces' exchange lists concatenated in order. |
| ConfigLoader.BuildDataset | trdp-core/src/trdp_config_loader.cpp:139-154 | A dataset keeps its id, name and element order. A null element name becomes "". |
| ConfigLoader.BuildTelegrams | trdp-core/src/trdp_config_loader.cpp:175-190 | One telegram per exchange, in order, each tagged with the interface name and the exchange's comId. |
| ConfigLoader.TrdpConfigLoader.constructor | trdp-core/include/trdp/trdp_config_loader.hpp:19-21 | A new loader holds three empty lists. |
| ConfigLoader.TrdpConfigLoader.LoadFromXml | trdp-core/src/trdp_config_loader.cpp:103-218 | After a load, the lists and the raised message are exactly those of the load specification `LoadXml`. Lists are cleared first, so an early error leaves them empty. |
| Engine.SubscribeTimeout | trdp-core/src/trdp_engine.cpp:107 | The timeout is twice the cycle modulo 2^32. It is 0 exactly for a zero cycle and for the cycle 2^31. |
| Engine.InterfaceIndex | trdp-core/src/trdp_engine.cpp:140-147 | Returns the first interface with the name, or None when no interface has it. |
| Engine.PdRuntimeIndex | trdp-core/src/trdp_engine.cpp:149-156 | Returns the first runtime whose definition has the comId (and the interface, when one is named), or None when there is none. |
| Engine.ProcessHostName | trdp-core/src/trdp_engine.cpp:54-55 | The host name handed to `tlc_openSession` is a prefix of the configured one, cut to 15 characters so that the 16-character label stays terminated. |
| Engine.OpenSessions | trdp-core/src/trdp_engine.cpp:41-70 | Definition of the session loop over the first `n` interfaces. Characterised by `OpenSessionsShape` and `OpenSessionsStops`, and implemented by `TrdpEngine.OpenAllSessions`. |
| Engine.FreshRuntime | trdp-core/src/trdp_engine.cpp:73-84 | Definition of a new runtime: its definition index, transmission on unless the telegram is a pure sink, next transmission due now, no payloads and all counters and periods zero. Characterised by `AddRuntimeAt`, `BuildRuntimesFresh` and `LoadConfigSucceeded`. |
| Engine.BuildRuntimes | trdp-core/src/trdp_engine.cpp:72-115 | Building the runtimes never adds or removes interfaces. |
| Engine.AddRuntime | trdp-core/src/trdp_engine.cpp:73-85 | Each telegram appends one fresh runtime, and the interface count is kept. |
| Engine.AddRuntimeError | trdp-core/src/trdp_engine.cpp:86-114 | The "unknown interface" error is raised exactly for a non-source telegram whose interface is missing. An error leaves the interfaces as they were. |
| Engine.AddRuntimeAt | trdp-core/src/trdp_engine.cpp:86-114 | A successfully subscribed telegram is appended to the pd list of its interface only. |
| Engine.OpenSessionsShape | trdp-core/src/trdp_engine.cpp:41-70 | Sessions are opened in interface order, each with an empty pd list. All of them are opened on success. |
| Engine.OpenSessionsStops | trdp-core/src/trdp_engine.cpp:41-70 | After the first failing session, nothing further changes. |
| Engine.BuildRuntimesShape | trdp-core/src/trdp_engine.cpp:72-115 | Runtime i is the fresh runtime of definition i. Interface identities and handles are kept. |
| Engine.BuildRuntimesCount | trdp-core/src/trdp_engine.cpp:72-115 | A runtime exists only for a definition already processed, and there is exactly one per definition when no exception was raised. |
| Engine.BuildRuntimesFresh | trdp-core/src/trdp_engine.cpp:73-85 | Runtime i is pushed before the subscription and is the fresh runtime of definition i, with that definition's start time. |
| Engine.BuildRuntimesIdentity | trdp-core/src/trdp_engine.cpp:86-114 | Subscribing never changes an interface's definition or session handle. |
| Engine.BuildRuntimesStops | trdp-core/src/trdp_engine.cpp:86-114 | After the first failing subscription, nothing further changes. |
| Engine.BuildRuntimesListStep | trdp-core/src/trdp_engine.cpp:86-114 | One more telegram extends only its own interface's pd list. |
| Engine.BuildRuntimesLists | trdp-core/src/trdp_engine.cpp:86-114 | Telegram i is in interface k's pd list exactly when it is not a source and its interface is k. |
| Engine.BuildRuntimesListsOrdered | trdp-core/src/trdp_engine.cpp:86-114 | Each pd list is strictly increasing and within range. |
| Engine.InterfaceIndexByNames | trdp-core/src/trdp_engine.cpp:140-147 | The interface lookup depends only on the interfaces' definitions. |
| Engine.BuildRuntimesNeedsInterfaces | trdp-core/src/trdp_engine.cpp:86-90 | After a successful build, every non-source telegram has its interface. |
| Engine.BuildRuntimesUnknownInterface | trdp-core/src/trdp_engine.cpp:86-90 | The unknown-interface error implies that some non-source telegram lacks its interface. |
| Engine.LoadConfigSucceeded | trdp-core/src/trdp_engine.cpp:26-116 | After a successful reload: the definitions and datasets are the loader's, and the interfaces are the loader's interface definitions in order; there is one runtime per definition with the documented defaults; and every non-source telegram is listed under its interface and nowhere else. |
| Engine.LoadConfigSpec | trdp-core/src/trdp_engine.cpp:26-116 | Definition of `loadConfig` as a function of the previous state. Characterised by `LoadConfigSucceeded` and `LoadConfigValid`, and implemented by `TrdpEngine.LoadConfig`. |
| Engine.BuildRuntimesValid | trdp-core/src/trdp_engine.cpp:72-115 | The runtime links and pd lists of a build always point inside their lists. |
| Engine.BuildRuntimesListsInRange | trdp-core/src/trdp_engine.cpp:86-114 | Each pd list indexes only existing runtimes. |
| Engine.LoadConfigValid | trdp-core/src/trdp_engine.cpp:26-116 | A reload keeps the engine state's index invariant, whatever fails. |
| Engine.TrdpEngine.constructor | trdp-core/include/trdp_engine.hpp:57-61 | A new engine is empty and not running. |
| Engine.TrdpEngine.LoadConfig | trdp-core/src/trdp_engine.cpp:26-116 | The new state and the raised message are those of `LoadConfigSpec`. A loader error leaves the state untouched; a `tlc_init` failure leaves the cleared state. |
| Engine.TrdpEngine.OpenAllSessions | trdp-core/src/trdp_engine.cpp:41-70 | The interfaces opened and the error are those of `OpenSessions`. Nothing else changes. |
| Engine.TrdpEngine.SubscribeAll | trdp-core/src/trdp_engine.cpp:72-115 | The runtimes, pd lists and error are those of `BuildRuntimes`. |
| Engine.TrdpEngine.SubscribeOne | trdp-core/src/trdp_engine.cpp:73-115 | One pass of the runtime loop: its runtimes, interfaces and error are what `AddRuntime` gives for the old state. Definitions, datasets and the running flag stay the same. |
| Engine.TrdpEngine.Start | trdp-core/src/trdp_engine.cpp:118-120 | Sets running and changes nothing else. |
| Engine.TrdpEngine.Stop | trdp-core/src/trdp_engine.cpp:122-124 | Clears running and changes nothing else. |
| Engine.TrdpEngine.GetPdSnapshot | trdp-core/src/trdp_engine.cpp:126 | The snapshot is a copy of the runtimes. |
| Engine.TrdpEngine.FindInterface | trdp-core/src/trdp_engine.cpp:140-147 | The loop finds the first interface with the name. |
| Engine.TrdpEngine.FindPdRuntime | trdp-core/src/trdp_engine.cpp:149-156 | The loop finds the first matching runtime. |
| Engine.TrdpEngine.EnablePd | trdp-core/src/trdp_engine.cpp:128-132 | Only the tx flag of the first runtime with the comId changes, whatever its interface. An unknown comId changes nothing. |
| Engine.FirstInterfaceIs | trdp-core/src/trdp_engine.cpp:140-147 | The first interface with a name is the one the lookup returns. |
| Engine.FirstRuntimeIs | trdp-core/src/trdp_engine.cpp:149-156 | The first matching runtime is the one the lookup returns. |
| JsonValue.AsString | backend/src/controllers/TrdpController.cc:102-103 | `asString` gives a string's own text, "" for null and the rendering for doubles. It raises exactly for arrays and objects. |
| JsonValue.AsBool | backend/src/controllers/TrdpController.cc:138 | `asBool` gives a boolean's own value. It raises exactly for strings, arrays and objects. |
| JsonUtils.DirectionToString | backend/src/json_utils.cpp:11-21 | Each direction's token reads back as that direction. |
| JsonUtils.DirectionTokensOnly | backend/src/json_utils.cpp:11-21 | Only the three tokens read back, so the rendering is a bijection onto them. |
| JsonUtils.ToMillis | backend/src/json_utils.cpp:23-25 | Milliseconds are the nanoseconds truncated. |
| JsonUtils.HexDigit | backend/src/json_utils.cpp:27-34 | A nibble is written as a lower-case hex digit that reads back as the nibble. |
| JsonUtils.HexValueDigit | backend/src/json_utils.cpp:27-34 | Every readable hex digit is the rendering of its nibble. |
| JsonUtils.Hex | backend/src/json_utils.cpp:27-34 | The hex text has two characters per byte. |
| JsonUtils.HexRoundTrip | backend/src/json_utils.cpp:27-34 | Decoding the hex text of a payload gives the payload back. |
| JsonUtils.HexDecodeOnlyHex | backend/src/json_utils.cpp:27-34 | Any text that decodes is the rendering of what it decodes to. |
| JsonUtils.HexDigitsAt | backend/src/json_utils.cpp:27-34 | Byte i is at characters 2i and 2i+1: high nibble first, two digits always. |
| JsonUtils.PayloadToHex | backend/src/json_utils.cpp:27-34 | The loop writes the payload's hex text, which decodes back to the payload. |
| JsonUtils.TypeToString | backend/src/json_utils.cpp:36-55 | The seven named types render as names that read back as the type. Every other code renders as "UNKNOWN". |
| JsonUtils.ValueToJson | backend/src/json_utils.cpp:57-63 | A BOOL8 value becomes the boolean "non-zero". Any other value becomes the integer itself. |
| JsonUtils.ValuesToJson | backend/src/json_utils.cpp:110-114 | An array field's values are converted one by one, in order. |
| JsonUtils.DecodedFieldToJson | backend/src/json_utils.cpp:99-121 | A decoded field is an object with its name, type name and value: null when there are no values, a scalar for one, an array for more. |
| JsonUtils.IdentityToJson | backend/src/json_utils.cpp:70-84 | The identity members come from the definition, or are all null without one. |
| JsonUtils.LastRxToJson | backend/src/json_utils.cpp:94-121 | The timestamp is in milliseconds when valid and 0 otherwise. The payload is in hex and decodes back. There is one object per decoded field. |
| JsonUtils.PdRuntimeToJson | backend/src/json_utils.cpp:67-124 | The runtime object has exactly the identity, "stats" and "last_rx" members, each as stated above. |
| Controller.DirectionToString | backend/src/controllers/TrdpController.cc:17-27 | The controller's direction tokens are those of the serialiser. |
| Controller.ToMicros | backend/src/controllers/TrdpController.cc:29-31 | Microseconds are the nanoseconds truncated. |
| Controller.KeysDisjoint | backend/src/controllers/TrdpController.cc:52-71 | The definition members and the runtime members of an entry have distinct keys. |
| Controller.DefMembers | backend/src/controllers/TrdpController.cc:52-59 | The definition members of an entry, taken from the runtime's definition. |
| Controller.RuntimeMembers | backend/src/controllers/TrdpController.cc:61-71 | The runtime members of an entry: the flags, sizes, counters and times in microseconds. |
| Controller.TelegramEntry | backend/src/controllers/TrdpController.cc:48-74 | An entry has the definition members only when the runtime has a definition. |
| Controller.GetPdTelegrams | backend/src/controllers/TrdpController.cc:35-78 | Without an engine, 500. Otherwise 200 with one entry per runtime, in order. |
| Controller.LoadConfig | backend/src/controllers/TrdpController.cc:80-113 | A non-object body raises in `isMember`. A missing field gives 400 before the engine check; a missing engine gives 500. A field that is an array or object raises in `asString`; null, booleans and numbers are converted to text. Otherwise the engine reloads as `LoadConfigSpec` says and the reply echoes path and host name. Any raised message propagates. |
| Controller.EnablePd | backend/src/controllers/TrdpController.cc:115-148 | The same check order. A flag that is not convertible raises and changes nothing. Otherwise the first runtime with the comId is switched and the reply echoes comId and flag. |
| Controller.CollectLastWins | backend/src/controllers/TrdpController.cc:173-180 | A name is collected exactly when some accepted entry has it, and it holds the value of the last such entry. |
| Controller.CollectValues | backend/src/controllers/TrdpController.cc:173-180 | Definition of the field loop over the first `n` entries. Characterised by `CollectLastWins`, `CollectRaises` and `CollectStops`. |
| Controller.CollectRaises | backend/src/controllers/TrdpController.cc:174-180 | The loop raises exactly when some entry is not an object or null, or is accepted with a name that is an array or object. The message is that of the first such entry. |
| Controller.CollectStops | backend/src/controllers/TrdpController.cc:174-180 | After an exception, later entries change nothing. |
| Controller.SetPdValues | backend/src/controllers/TrdpController.cc:150-191 | The same check order. Then either the loop's exception, or 200 with the number of distinct names collected. |
| ConfigPaths.GetEnvOrEmpty | backend/src/config_paths.cpp:41-44 | An unset variable reads as "". |
| ConfigPaths.DefaultXmlPath | backend/src/config_paths.cpp:15-21 | Definition: the compiled XML path, else "". Characterised through `ResolveXmlPath` and `ResolveConfigDirectory`. |
| ConfigPaths.DefaultHostName | backend/src/config_paths.cpp:23-29 | Definition: the compiled host name, else "localhost". Characterised through `ResolveHostName`. |
| ConfigPaths.DefaultConfigDirectory | backend/src/config_paths.cpp:31-37 | Definition: the compiled configuration directory, else "". Characterised through `ResolveConfigDirectory`. |
| ConfigPaths.ResolveXmlPath | backend/src/config_paths.cpp:46-53 | A non-empty variable wins over the compile-time default. |
| ConfigPaths.ResolveHostName | backend/src/config_paths.cpp:55-62 | A non-empty variable wins over the default, which is "localhost" when none is compiled in. |
| ConfigPaths.ResolveListenAddress | backend/src/config_paths.cpp:64-67 | A non-empty variable wins over "0.0.0.0". The address is never empty. |
| ConfigPaths.ResolversReadOwnVariable | backend/src/config_paths.cpp:46-67 | Each resolver depends on its own variable only. |
| ConfigPaths.SkipSpaces | backend/src/config_paths.cpp:73 | The leading white space that `std::stoi` skips. |
| ConfigPaths.LeadingDigits | backend/src/config_paths.cpp:73 | The digit run that `std::stoi` converts. |
| ConfigPaths.Stoi | backend/src/config_paths.cpp:73 | A converted value always lies in `int` range. |
| ConfigPaths.LeadingDigitsOfDigits | backend/src/config_paths.cpp:73 | The digit run of digits followed by a non-digit is exactly those digits. |
| ConfigPaths.StoiOfDecimal | backend/src/config_paths.cpp:73 | A decimal within `int` range followed by anything but a digit converts to itself. |
| ConfigPaths.ResolveListenPort | backend/src/config_paths.cpp:69-82 | The port is the variable's value when it converts to 1..65535, and 8080 otherwise. This includes an unset variable, text and an out-of-range number. |
| ConfigPaths.ListenPortRoundTrip | backend/src/config_paths.cpp:69-82 | A port written in decimal in the variable is the port used. |
| ConfigPaths.Split | backend/src/config_paths.cpp:96 | Splitting at dots always gives at least one part. |
| ConfigPaths.Inet4 | backend/src/config_paths.cpp:96 | An accepted address has exactly four bytes. |
| ConfigPaths.SplitJoin | backend/src/config_paths.cpp:96 | Joining dot-free parts and splitting gives the parts back. |
| ConfigPaths.JoinSplit | backend/src/config_paths.cpp:96 | Splitting text and joining gives the text back. |
| ConfigPaths.Inet4OfDottedQuad | backend/src/config_paths.cpp:96 | Every four-byte address written as a dotted quad is accepted as itself. |
| ConfigPaths.DottedQuadOfInet4 | backend/src/config_paths.cpp:96 | Every accepted text is the dotted quad of its bytes. |
| ConfigPaths.NamesAreNotAddresses | backend/src/config_paths.cpp:96 | A host name without dots (for example "localhost") is rejected. |
| ConfigPaths.DefaultListenAddressIsWildcard | backend/src/config_paths.cpp:96 | The default address is accepted as the wildcard 0.0.0.0. |
| ConfigPaths.IsAddressAvailable | backend/src/config_paths.cpp:84-104 | The address is available exactly when the socket opens, the text is a dotted quad and the bind succeeds. An available address is the canonical rendering of its bytes. |
| ConfigPaths.ToLower | backend/src/config_paths.cpp:110-113 | Lowers only 'A' to 'Z'. |
| ConfigPaths.Lowered | backend/src/config_paths.cpp:110-113 | The in-place loop lowers every character. |
| ConfigPaths.ShouldRunAsDaemon | backend/src/config_paths.cpp:106-117 | Daemon mode exactly for "1", "true" or "yes" in any case. Never when unset. |
| ConfigPaths.DaemonWords | backend/src/config_paths.cpp:106-117 | Sample spellings that are accepted and ones that are refused. |
| ConfigPaths.ParentPath | backend/src/config_paths.cpp:130-136 | The parent of a path is a prefix of it. |
| ConfigPaths.StripSeparators | backend/src/config_paths.cpp:131-134 | Only trailing separators are removed. |
| ConfigPaths.DropName | backend/src/config_paths.cpp:131-134 | Only the trailing file name is removed. |
| ConfigPaths.ParentOfChild | backend/src/config_paths.cpp:131-134 | The parent of "dir/name" is "dir". |
| ConfigPaths.DropNameOf | backend/src/config_paths.cpp:131-134 | Dropping the name keeps the directory part. |
| ConfigPaths.StripOneSeparator | backend/src/config_paths.cpp:131-134 | A single trailing separator is stripped. |
| ConfigPaths.ResolveConfigDirectory | backend/src/config_paths.cpp:119-139 | The order is: the variable, then the compiled directory, then the parent of the compiled XML path, then "". |
| ConfigPaths.ConfigDirectoryIgnoresXmlPathVar | backend/src/config_paths.cpp:119-139 | The configuration directory does not follow an XML path given in the environment. |
| BackendMain.EnsureConfigAvailable | backend/src/main.cpp:112-125 | The configuration is available exactly when the path is non-empty and names an existing file. |
| BackendMain.ResolveSettings | backend/src/main.cpp:130-133 | Definition: the XML path, host name, listen address and port, each from its resolver. Characterised by the resolvers' contracts and by `RunBackend`. |
| BackendMain.RunBackend | backend/src/main.cpp:129-180 | Checks in order: configuration file, listen address, engine load, log directory. Each failure exits with 1. Otherwise the server launches with the resolved address, port and daemon switch, the engine is stopped afterwards, and the exit is 0. |
| CoreStub.TrdpEngine.Status | trdp-core/src/core.cpp:28-30 | "running" exactly when running, "stopped" otherwise. |
| CoreStub.TrdpEngine.constructor | trdp-core/include/trdp/core.hpp:19 | A new engine is stopped. |
| CoreStub.TrdpEngine.LoadConfig | trdp-core/src/core.cpp:11-14 | Records the path and host without touching the state. |
| CoreStub.TrdpEngine.Start | trdp-core/src/core.cpp:16-19 | Sets running. |
| CoreStub.TrdpEngine.Stop | trdp-core/src/core.cpp:21-26 | Clears running. Stopping a stopped engine changes nothing. |
| CoreStub.Lifecycle | trdp-core/src/core.cpp:11-30 | The status reads stopped, running, stopped across start and stop. |
| ConfigDump.DirectionLabel | trdp-core/tests/trdp_config_dump.cpp:9-19 | Each label reads back as its direction. |
| ConfigDump.ParseArgs | trdp-core/tests/trdp_config_dump.cpp:31-42 | Definition of the argument loop. Characterised by `ValueIsConsumed`, `LastOccurrenceWins`, `TrailingFlagRejected`, `FlagAsValue`, `UnknownArgumentRejected` and `RunDump`. |
| ConfigDump.ValueIsConsumed | trdp-core/tests/trdp_config_dump.cpp:31-42 | A flag takes the next argument as its value. |
| ConfigDump.LastOccurrenceWins | trdp-core/tests/trdp_config_dump.cpp:31-42 | A repeated flag keeps the last value. |
| ConfigDump.TrailingFlagRejected | trdp-core/tests/trdp_config_dump.cpp:31-42 | A flag without a value is rejected. |
| ConfigDump.FlagAsValue | trdp-core/tests/trdp_config_dump.cpp:31-42 | `--xml --host` sets the XML path to "--host". |
| ConfigDump.UnknownArgumentRejected | trdp-core/tests/trdp_config_dump.cpp:37-40 | Any other argument is rejected. |
| ConfigDump.RunDump | trdp-core/tests/trdp_config_dump.cpp:27-77 | Exit 0 exactly when the arguments parse, both values are non-empty and the load succeeds. The listing is then the loader's lists. |

## Left out

- Console output of the dump tool and of `main`: the listing and the exit code are returned instead of printed.
- Logging (`LOG_FATAL` and `LOG_INFO` in `main`, `std::cerr` in the dump tool): it carries no state.
- The TAU XML parser (`tau_readXmlDeviceConfig`, `tau_readXmlInterfaceConfig`, `tau_readXmlDatasetConfig`) and the memory it allocates and frees: the parsed document is the `XmlDocument` input.
- `parseTelegramNames`'s scan of the raw XML text with two regular expressions is abstracted to a list of `<telegram>` tags with their optional name and com-id attributes. As written, the name expression can also match inside a longer attribute such as `dataset-name`; the model takes the tag's name attribute as given.
- `vos_ipDotted`, `tlc_init`, `tlc_openSession` (given the interface definition and the host label, as `Engine.ProcessHostName` cuts it) and `tlp_subscribe` are inputs of `Engine.Platform`, as are the file contents and the clock that `std::chrono::steady_clock` reads.
- Engine.ProcessHostName: the 16-character label size is TRDP's `TRDP_MAX_LABEL_LEN`; the TRDP headers are not part of this model. A host name with an embedded NUL character is not cut at that character as `c_str` would cut it.
- `TrdpController::listConfigs` (`GET /api/configs`) is declared and routed in the controller's header but has no definition in the repository, so it is not modelled.
- `TrdpEngine::findDataset` and `TrdpEngine::sendPdOnInterface` are declared in the engine's header but defined nowhere, so they are not modelled.
- `decodeLastRx` is called by `pdRuntimeToJson` but defined nowhere in the repository: its decoded fields are the `decoded` input of `JsonUtils.PdRuntimeToJson`.
- The engine's `setPdValues`, `pdSchedulerLoop` and `onPdReceive` have empty bodies, so nothing of theirs is modelled. `Controller.SetPdValues` therefore leaves the engine alone.
- Mutexes, atomics and the scheduler thread: the model is sequential. The engine's `running_` flag is taken to start false.
- Drogon's routing, request parsing and response plumbing: a request body is an `Option<Json>` (None when the body is not JSON), and a response is a status and a JSON body.
- jsoncpp's text rendering of doubles is the `realText` input.
- Sockets, `bind`, `std::filesystem::exists` and `create_directories` in `main`: their outcomes are the inputs `socketOk`, `bindOk`, `fileExists` and `logDirCreated`. Environment strings are taken to contain no NUL character.
- The copies of the settings functions in `main.cpp`, lines 20-110, are identical to those in `config_paths.cpp`. They are modelled once, in `ConfigPaths`, and `BackendMain` uses them.
- `drogon::app().run()` is a blocking call: `BackendMain.RunBackend` returns the launch settings instead and then stops the engine, as `main` does when the server returns.
- `frontend/src/App.tsx` and the browser client it stands for.
- `src/trdp_api_reference.c` is a reference listing of the TRDP API and not part of the backend.
- ConfigPaths.ParentPath follows libstdc++'s `parent_path` for plain relative and absolute paths. Root names and `.`/`..` normalisation are not modelled.
- ConfigPaths.Stoi does not model locale-dependent white space.
