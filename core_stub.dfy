/** The stub engine of the core library (core.cpp): it records the
    configuration it is given and a running flag, and reports its status. */
module CoreStub {

  class TrdpEngine {
    var running: bool
    var configPath: string
    var hostName: string

    /** `status`: "running" or "stopped", decided by the flag alone. */
    function Status(): (s: string)
      reads this
      ensures s == "running" <==> running
      ensures s == "stopped" <==> !running
    {
      if running then "running" else "stopped"
    }

    /** A new engine is stopped and has no configuration. */
    constructor ()
      ensures !running && configPath == "" && hostName == ""
      ensures Status() == "stopped"
    {
      running := false;
      configPath := "";
      hostName := "";
    }

    /** `loadConfig`: records the path and the host; the flag is untouched. */
    method LoadConfig(xmlPath: string, host: string)
      modifies this
      ensures configPath == xmlPath && hostName == host
      ensures running == old(running) && Status() == old(Status())
    {
      configPath := xmlPath;
      hostName := host;
    }

    /** `start`: the engine runs; the configuration is untouched. */
    method Start()
      modifies this
      ensures running && Status() == "running"
      ensures configPath == old(configPath) && hostName == old(hostName)
    {
      running := true;
    }

    /** `stop`: the engine is stopped and nothing else changes, so a second
        stop leaves everything as the first one left it. */
    method Stop()
      modifies this
      ensures !running && Status() == "stopped"
      ensures configPath == old(configPath) && hostName == old(hostName)
      ensures !old(running) ==> unchanged(this)
    {
      if running {
        running := false;
      }
    }
  }

  /** A fresh engine, loaded, started and stopped twice, is stopped with its
      configuration kept. */
  method Lifecycle(xmlPath: string, host: string) returns (before: string, during: string, after: string)
    ensures before == "stopped" && during == "running" && after == "stopped"
  {
    var engine := new TrdpEngine();
    before := engine.Status();
    engine.LoadConfig(xmlPath, host);
    engine.Start();
    during := engine.Status();
    engine.Stop();
    engine.Stop();
    after := engine.Status();
    assert engine.configPath == xmlPath && engine.hostName == host;
  }
}
