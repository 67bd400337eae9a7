/** The backend's start-up sequence (main.cpp). The settings resolvers of
    main.cpp are copies of those in config_paths.cpp and are modelled once, in
    ConfigPaths. The file system, the socket calls of the address probe and
    the HTTP server's run are inputs. */
module BackendMain {
  import opened TrdpTypes
  import ConfigPaths
  import Engine

  /** `ensureConfigAvailable`: a non-empty path to an existing file. An empty
      path is refused whatever the file system holds. */
  function EnsureConfigAvailable(xmlPath: string, fileExists: string -> bool): (ok: bool)
    ensures ok <==> xmlPath != "" && fileExists(xmlPath)
  {
    xmlPath != "" && fileExists(xmlPath)
  }

  /** The server `main` configures before it runs: the listener, the daemon
      switch and the engine handed to the controller. */
  datatype Launch = Launch(listenAddress: string, listenPort: uint16, runAsDaemon: bool)

  /** The settings `main` resolves from the environment. */
  datatype Settings = Settings(xmlPath: string, hostName: string, listenAddress: string, listenPort: uint16)

  function ResolveSettings(env: ConfigPaths.Env, d: ConfigPaths.Defaults): Settings {
    Settings(
      ConfigPaths.ResolveXmlPath(env, d),
      ConfigPaths.ResolveHostName(env, d),
      ConfigPaths.ResolveListenAddress(env),
      ConfigPaths.ResolveListenPort(env))
  }

  /** `main`: each check that fails ends the process with 1, in the order
      configuration file, listen address, engine load and start, log
      directory; otherwise the server runs and, once it returns, the engine is
      stopped and the exit code is 0. `engine` is the global engine, null when
      the process ends before it is created. */
  method RunBackend(
    env: ConfigPaths.Env,
    d: ConfigPaths.Defaults,
    fileExists: string -> bool,
    socketOk: bool,
    bindOk: (seq<uint8>, uint16) -> bool,
    p: Engine.Platform,
    logDirCreated: bool)
    returns (exitCode: int, engine: Engine.TrdpEngine?, launch: Option<Launch>)
    ensures var s := ResolveSettings(env, d);
            && (exitCode == 0 || exitCode == 1)
            && (!EnsureConfigAvailable(s.xmlPath, fileExists) ==> exitCode == 1 && engine == null)
            && (EnsureConfigAvailable(s.xmlPath, fileExists) && !ConfigPaths.IsAddressAvailable(s.listenAddress, s.listenPort, socketOk, bindOk) ==>
                  exitCode == 1 && engine == null)
            && (EnsureConfigAvailable(s.xmlPath, fileExists) && ConfigPaths.IsAddressAvailable(s.listenAddress, s.listenPort, socketOk, bindOk) ==>
                  engine != null && engine.Valid() &&
                  Engine.LoadResult(engine.State(), Engine.LoadConfigSpec(Engine.EngineState([], [], [], []), s.xmlPath, s.hostName, p).error) ==
                    Engine.LoadConfigSpec(Engine.EngineState([], [], [], []), s.xmlPath, s.hostName, p))
    ensures var s := ResolveSettings(env, d);
            var loadOk := engine != null && Engine.LoadConfigSpec(Engine.EngineState([], [], [], []), s.xmlPath, s.hostName, p).error.None?;
            && (engine != null && !loadOk ==> exitCode == 1 && !engine.running)
            && (loadOk && !logDirCreated ==> exitCode == 1 && engine.running)
            && (exitCode == 0 <==> loadOk && logDirCreated)
            && (exitCode == 0 ==> !engine.running)
            && (launch.Some? <==> exitCode == 0)
            && (launch.Some? ==> launch.value == Launch(s.listenAddress, s.listenPort, ConfigPaths.DaemonRequested(env)))
  {
    var s := ResolveSettings(env, d);
    if !EnsureConfigAvailable(s.xmlPath, fileExists) {
      return 1, null, None;
    }
    if !ConfigPaths.IsAddressAvailable(s.listenAddress, s.listenPort, socketOk, bindOk) {
      return 1, null, None;
    }

    engine := new Engine.TrdpEngine();
    var error := engine.LoadConfig(s.xmlPath, s.hostName, p);
    if error.Some? {
      return 1, engine, None;
    }
    engine.Start();

    if !logDirCreated {
      return 1, engine, None;
    }

    var runAsDaemon := ConfigPaths.ShouldRunAsDaemon(env);
    launch := Some(Launch(s.listenAddress, s.listenPort, runAsDaemon));
    engine.Stop();
    exitCode := 0;
  }
}
