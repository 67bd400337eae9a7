/** The configuration dump tool (trdp_config_dump.cpp): it reads `--xml` and
    `--host` from the command line, loads the configuration and lists it. The
    listing is returned rather than printed. */
module ConfigDump {
  import opened TrdpTypes
  import ConfigLoader

  /** The label the listing gives a direction. */
  function DirectionLabel(d: Direction): (s: string)
    ensures DirectionFromLabel(s) == Some(d)
  {
    match d
    case Source => "Source"
    case Sink => "Sink"
    case SourceSink => "SourceSink"
  }

  function DirectionFromLabel(s: string): Option<Direction> {
    if s == "Source" then Some(Source)
    else if s == "Sink" then Some(Sink)
    else if s == "SourceSink" then Some(SourceSink)
    else None
  }

  /** The result of scanning the arguments: both values, or the first
      argument that is unknown or lacks its value. */
  datatype ParseOutcome = Parsed(xmlPath: string, hostName: string) | BadArgument(arg: string)

  /** The scan of the arguments after the program name, starting from the
      values found so far. */
  function ParseArgs(args: seq<string>, xmlPath: string, hostName: string): ParseOutcome
    decreases |args|
  {
    if |args| == 0 then Parsed(xmlPath, hostName)
    else if args[0] == "--xml" && |args| > 1 then ParseArgs(args[2..], args[1], hostName)
    else if args[0] == "--host" && |args| > 1 then ParseArgs(args[2..], xmlPath, args[1])
    else BadArgument(args[0])
  }

  /** The arguments after the program name. */
  function Args(argv: seq<string>): seq<string> {
    if |argv| == 0 then [] else argv[1..]
  }

  /** A flag always takes the next argument as its value, even one that looks
      like a flag. */
  lemma ValueIsConsumed(v: string, rest: seq<string>, xmlPath: string, hostName: string)
    ensures ParseArgs(["--xml", v] + rest, xmlPath, hostName) == ParseArgs(rest, v, hostName)
    ensures ParseArgs(["--host", v] + rest, xmlPath, hostName) == ParseArgs(rest, xmlPath, v)
  {
    assert (["--xml", v] + rest)[2..] == rest;
    assert (["--host", v] + rest)[2..] == rest;
  }

  /** Appending a flag with its value to a well-formed command line sets that
      value and keeps the other: the last occurrence wins. */
  lemma {:induction false} LastOccurrenceWins(args: seq<string>, v: string, xmlPath: string, hostName: string)
    requires ParseArgs(args, xmlPath, hostName).Parsed?
    ensures var before := ParseArgs(args, xmlPath, hostName);
            ParseArgs(args + ["--xml", v], xmlPath, hostName) == Parsed(v, before.hostName)
    ensures var before := ParseArgs(args, xmlPath, hostName);
            ParseArgs(args + ["--host", v], xmlPath, hostName) == Parsed(before.xmlPath, v)
    decreases |args|
  {
    if |args| == 0 {
      assert ["--xml", v][2..] == [];
      assert ["--host", v][2..] == [];
      assert args + ["--xml", v] == ["--xml", v];
      assert args + ["--host", v] == ["--host", v];
    } else {
      assert (args + ["--xml", v])[2..] == args[2..] + ["--xml", v];
      assert (args + ["--host", v])[2..] == args[2..] + ["--host", v];
      if args[0] == "--xml" {
        LastOccurrenceWins(args[2..], v, args[1], hostName);
      } else {
        LastOccurrenceWins(args[2..], v, xmlPath, args[1]);
      }
    }
  }

  /** A flag in last position after a well-formed command line has no value
      and is rejected. */
  lemma {:induction false} TrailingFlagRejected(args: seq<string>, flag: string, xmlPath: string, hostName: string)
    requires flag == "--xml" || flag == "--host"
    requires ParseArgs(args, xmlPath, hostName).Parsed?
    ensures ParseArgs(args + [flag], xmlPath, hostName) == BadArgument(flag)
    decreases |args|
  {
    if |args| == 0 {
      assert args + [flag] == [flag];
    } else {
      assert (args + [flag])[2..] == args[2..] + [flag];
      if args[0] == "--xml" {
        TrailingFlagRejected(args[2..], flag, args[1], hostName);
      } else {
        TrailingFlagRejected(args[2..], flag, xmlPath, args[1]);
      }
    }
  }

  /** A lone flag takes the following flag as its value: `--xml --host`
      sets the XML path to "--host". */
  lemma FlagAsValue()
    ensures ParseArgs(["--xml", "--host"], "", "") == Parsed("--host", "")
  {
    assert ["--xml", "--host"][2..] == [];
  }

  /** Any argument other than the two flags is rejected. */
  lemma UnknownArgumentRejected(arg: string, rest: seq<string>, xmlPath: string, hostName: string)
    requires arg != "--xml" && arg != "--host"
    ensures ParseArgs([arg] + rest, xmlPath, hostName) == BadArgument(arg)
  {
  }

  /** The dump tool's `main`: exit code 1 for a bad argument, a missing value
      or a failed load, and otherwise 0 with the loaded lists. */
  method RunDump(argv: seq<string>, files: string -> ConfigLoader.XmlDocument, ipDotted: uint32 -> string)
    returns (exitCode: int, listing: Option<ConfigLoader.LoaderLists>)
    ensures exitCode == 0 || exitCode == 1
    ensures var parsed := ParseArgs(Args(argv), "", "");
            exitCode == 0 <==>
              parsed.Parsed? && parsed.xmlPath != "" && parsed.hostName != "" &&
              ConfigLoader.LoadXml(files(parsed.xmlPath), parsed.hostName, ipDotted).error.None?
    ensures listing.Some? <==> exitCode == 0
    ensures var parsed := ParseArgs(Args(argv), "", "");
            listing.Some? ==> listing.value == ConfigLoader.LoadXml(files(parsed.xmlPath), parsed.hostName, ipDotted).lists
  {
    var xmlPath := "";
    var hostName := "";
    var i := 1;
    while i < |argv|
      invariant 1 <= i
      invariant |argv| == 0 ==> xmlPath == ""
      invariant |argv| > 0 ==> i <= |argv| && ParseArgs(argv[i..], xmlPath, hostName) == ParseArgs(Args(argv), "", "")
      decreases |argv| - i
    {
      var arg := argv[i];
      if arg == "--xml" && i + 1 < |argv| {
        assert argv[i..][2..] == argv[i + 2..];
        xmlPath := argv[i + 1];
        i := i + 2;
      } else if arg == "--host" && i + 1 < |argv| {
        assert argv[i..][2..] == argv[i + 2..];
        hostName := argv[i + 1];
        i := i + 2;
      } else {
        return 1, None;
      }
    }
    assert |argv| > 0 ==> argv[i..] == [];

    if xmlPath == "" || hostName == "" {
      return 1, None;
    }

    var loader := new ConfigLoader.TrdpConfigLoader();
    var error := loader.LoadFromXml(files(xmlPath), hostName, ipDotted);
    if error.Some? {
      return 1, None;
    }
    return 0, Some(loader.Lists());
  }
}
