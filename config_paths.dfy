/** Run-time settings of the backend (config_paths.cpp): each setting is
    taken from an environment variable when that is set and non-empty, and
    otherwise from a compile-time default. The environment is a map from
    variable names to values; a compile-time default that the build does not
    define is None. */
module ConfigPaths {
  import opened TrdpTypes
  import Decimal

  type Env = map<string, string>

  /** The compile-time definitions TRDP_DEFAULT_XML_PATH,
      TRDP_DEFAULT_HOST_NAME and TRDP_DEFAULT_CONFIG_DIR. */
  datatype Defaults = Defaults(xmlPath: Option<string>, hostName: Option<string>, configDir: Option<string>)

  const XmlPathVar := "TRDP_XML_PATH"
  const HostNameVar := "TRDP_HOST_NAME"
  const ListenAddressVar := "TRDP_LISTEN_ADDRESS"
  const ListenPortVar := "TRDP_LISTEN_PORT"
  const DaemonVar := "TRDP_RUN_AS_DAEMON"
  const ConfigDirVar := "TRDP_CONFIG_DIR"

  const DefaultListenAddress := "0.0.0.0"
  const DefaultListenPort: uint16 := 8080

  function DefaultXmlPath(d: Defaults): string {
    d.xmlPath.GetOr("")
  }

  function DefaultHostName(d: Defaults): string {
    d.hostName.GetOr("localhost")
  }

  function DefaultConfigDirectory(d: Defaults): string {
    d.configDir.GetOr("")
  }

  /** `getEnvOrEmpty`: an unset variable reads as the empty string. */
  function GetEnvOrEmpty(env: Env, name: string): (v: string)
    ensures name in env ==> v == env[name]
    ensures name !in env ==> v == ""
  {
    if name in env then env[name] else ""
  }

  /** A variable that is set to a non-empty value. */
  predicate Overrides(env: Env, name: string) {
    name in env && env[name] != ""
  }

  /** `resolveXmlPath`. */
  function ResolveXmlPath(env: Env, d: Defaults): (path: string)
    ensures Overrides(env, XmlPathVar) ==> path == env[XmlPathVar]
    ensures !Overrides(env, XmlPathVar) ==> path == DefaultXmlPath(d)
  {
    var envOverride := GetEnvOrEmpty(env, XmlPathVar);
    if envOverride != "" then envOverride else DefaultXmlPath(d)
  }

  /** `resolveHostName`; without a compiled default the host is "localhost". */
  function ResolveHostName(env: Env, d: Defaults): (host: string)
    ensures Overrides(env, HostNameVar) ==> host == env[HostNameVar]
    ensures !Overrides(env, HostNameVar) ==> host == DefaultHostName(d)
    ensures d.hostName.None? || d.hostName.value != "" ==> host != ""
  {
    var envOverride := GetEnvOrEmpty(env, HostNameVar);
    if envOverride != "" then envOverride else DefaultHostName(d)
  }

  /** `resolveListenAddress`: all local addresses unless overridden. */
  function ResolveListenAddress(env: Env): (address: string)
    ensures address != ""
    ensures Overrides(env, ListenAddressVar) ==> address == env[ListenAddressVar]
    ensures !Overrides(env, ListenAddressVar) ==> address == DefaultListenAddress
  {
    var envOverride := GetEnvOrEmpty(env, ListenAddressVar);
    if envOverride == "" then DefaultListenAddress else envOverride
  }

  /** Each resolver reads its own variable and no other. */
  lemma ResolversReadOwnVariable(env1: Env, env2: Env, d: Defaults)
    ensures GetEnvOrEmpty(env1, XmlPathVar) == GetEnvOrEmpty(env2, XmlPathVar) ==>
              ResolveXmlPath(env1, d) == ResolveXmlPath(env2, d)
    ensures GetEnvOrEmpty(env1, HostNameVar) == GetEnvOrEmpty(env2, HostNameVar) ==>
              ResolveHostName(env1, d) == ResolveHostName(env2, d)
    ensures GetEnvOrEmpty(env1, ListenAddressVar) == GetEnvOrEmpty(env2, ListenAddressVar) ==>
              ResolveListenAddress(env1) == ResolveListenAddress(env2)
  {
  }

  // ---------------------------------------------------------------------------
  // Port parsing: std::stoi, that is strtol in base 10 and a range check

  const IntMin := -0x8000_0000
  const IntMax := 0x7FFF_FFFF

  /** The characters `isspace` accepts in the C locale. */
  predicate IsSpace(c: char) {
    c == ' ' || c == '\t' || c == '\n' || c == '\U{000B}' || c == '\U{000C}' || c == '\r'
  }

  /** The text after the leading white space. */
  function SkipSpaces(s: string): (t: string)
    ensures |t| <= |s| && t == s[|s| - |t|..]
    ensures |t| > 0 ==> !IsSpace(t[0])
    ensures forall i :: 0 <= i < |s| - |t| ==> IsSpace(s[i])
  {
    if |s| > 0 && IsSpace(s[0]) then
      var t := SkipSpaces(s[1..]);
      assert forall i :: 1 <= i < |s| - |t| ==> s[i] == s[1..][i - 1];
      t
    else s
  }

  /** The longest prefix made of decimal digits. */
  function LeadingDigits(s: string): (d: string)
    ensures Decimal.AllDigits(d) && d <= s
    ensures |d| < |s| ==> !Decimal.IsDigit(s[|d|])
  {
    if |s| > 0 && Decimal.IsDigit(s[0]) then [s[0]] + LeadingDigits(s[1..]) else ""
  }

  /** `std::stoi`: optional white space, an optional sign and at least one
      digit, the rest ignored; None where it throws, that is without digits or
      when the value does not fit an `int`. */
  function Stoi(s: string): (r: Option<int>)
    ensures r.Some? ==> IntMin <= r.value <= IntMax
  {
    var t := SkipSpaces(s);
    var signed := |t| > 0 && (t[0] == '-' || t[0] == '+');
    var negative := |t| > 0 && t[0] == '-';
    var digits := LeadingDigits(if signed then t[1..] else t);
    if |digits| == 0 then None
    else
      var magnitude: int := Decimal.Value(digits);
      var v := if negative then -magnitude else magnitude;
      if IntMin <= v <= IntMax then Some(v) else None
  }

  /** A digit string is its own longest digit prefix. */
  lemma {:induction false} LeadingDigitsOfDigits(s: string, rest: string)
    requires Decimal.AllDigits(s)
    requires |rest| > 0 ==> !Decimal.IsDigit(rest[0])
    ensures LeadingDigits(s + rest) == s
    decreases |s|
  {
    if |s| > 0 {
      assert (s + rest)[1..] == s[1..] + rest;
      LeadingDigitsOfDigits(s[1..], rest);
    }
  }

  /** `stoi` reads back the decimal text of any `int`-sized number, whatever
      non-digit text follows it. */
  lemma StoiOfDecimal(n: nat, rest: string)
    requires n <= IntMax
    requires |rest| > 0 ==> !Decimal.IsDigit(rest[0])
    ensures Stoi(Decimal.FromNat(n) + rest) == Some(n)
  {
    var s := Decimal.FromNat(n) + rest;
    assert !IsSpace(s[0]) && s[0] != '-' && s[0] != '+';
    LeadingDigitsOfDigits(Decimal.FromNat(n), rest);
    Decimal.ValueOfFromNat(n);
  }

  /** `resolveListenPort`: the parsed value when it is a valid port, 8080 for
      an unset, empty, unparsable, overflowing or out-of-range value. */
  function ResolveListenPort(env: Env): (port: uint16)
    ensures 1 <= port <= 65535
    ensures var p := Stoi(GetEnvOrEmpty(env, ListenPortVar));
            if p.Some? && 0 < p.value <= 65535 then port == p.value else port == DefaultListenPort
  {
    var envOverride := GetEnvOrEmpty(env, ListenPortVar);
    if envOverride == "" then DefaultListenPort
    else
      var value := Stoi(envOverride);
      if value.Some? && value.value > 0 && value.value <= 65535 then value.value else DefaultListenPort
  }

  /** Any valid port written in decimal is the port resolved. */
  lemma ListenPortRoundTrip(env: Env, port: nat)
    requires 1 <= port <= 65535
    requires ListenPortVar in env && env[ListenPortVar] == Decimal.FromNat(port)
    ensures ResolveListenPort(env) == port
  {
    StoiOfDecimal(port, "");
    assert Decimal.FromNat(port) + "" == Decimal.FromNat(port);
  }

  // ---------------------------------------------------------------------------
  // Listen address check: inet_pton for AF_INET, then bind

  predicate NoDots(s: string) {
    forall i :: 0 <= i < |s| ==> s[i] != '.'
  }

  /** The pieces of `s` between its dots, in order: one more than there are
      dots. */
  function Split(s: string): (parts: seq<string>)
    ensures |parts| > 0
    decreases |s|
  {
    if |s| == 0 then [""]
    else if s[0] == '.' then [""] + Split(s[1..])
    else
      var r := Split(s[1..]);
      [[s[0]] + r[0]] + r[1..]
  }

  /** The pieces joined back with dots. */
  function Join(parts: seq<string>): string
    requires |parts| > 0
    decreases |parts|
  {
    if |parts| == 1 then parts[0] else parts[0] + "." + Join(parts[1..])
  }

  /** One part of a dotted quad as `inet_pton` accepts it: digits without a
      superfluous leading zero, denoting at most 255. */
  predicate ValidOctet(o: string) {
    Decimal.Canonical(o) && Decimal.Value(o) <= 255
  }

  /** `inet_pton(AF_INET, ...)`: the four bytes of a dotted quad, None for any
      other text (a host name, a missing or extra part, a leading zero, a part
      above 255, any other character). */
  function Inet4(s: string): (addr: Option<seq<uint8>>)
    ensures addr.Some? ==> |addr.value| == 4
  {
    var parts := Split(s);
    if |parts| == 4 && ValidOctet(parts[0]) && ValidOctet(parts[1]) && ValidOctet(parts[2]) && ValidOctet(parts[3]) then
      Some([Decimal.Value(parts[0]), Decimal.Value(parts[1]), Decimal.Value(parts[2]), Decimal.Value(parts[3])])
    else None
  }

  /** The dotted-quad text of an IPv4 address. */
  function DottedQuad(addr: seq<uint8>): string
    requires |addr| == 4
  {
    Join([Decimal.FromNat(addr[0]), Decimal.FromNat(addr[1]), Decimal.FromNat(addr[2]), Decimal.FromNat(addr[3])])
  }

  lemma {:induction false} SplitOfPrefix(a: string, rest: string)
    requires NoDots(a)
    ensures Split(a + rest) == [a + Split(rest)[0]] + Split(rest)[1..]
    decreases |a|
  {
    if |a| == 0 {
      var r := Split(rest);
      assert a + rest == rest && a + r[0] == r[0];
      assert [r[0]] + r[1..] == r;
    } else {
      assert (a + rest)[1..] == a[1..] + rest;
      SplitOfPrefix(a[1..], rest);
      assert [a[0]] + (a[1..] + Split(rest)[0]) == a + Split(rest)[0];
    }
  }

  /** A dot-free piece followed by a dot is the first piece. */
  lemma SplitOfDotted(a: string, rest: string)
    requires NoDots(a)
    ensures Split(a + "." + rest) == [a] + Split(rest)
  {
    assert a + "." + rest == a + ("." + rest);
    SplitOfPrefix(a, "." + rest);
    assert ("." + rest)[1..] == rest;
    assert a + "" == a;
  }

  /** Text without dots is a single piece. */
  lemma SplitOfNoDots(a: string)
    requires NoDots(a)
    ensures Split(a) == [a]
  {
    SplitOfPrefix(a, "");
    assert a + "" == a;
  }

  /** Splitting dot-free pieces joined with dots gives back the pieces. */
  lemma {:induction false} SplitJoin(parts: seq<string>)
    requires |parts| > 0
    requires forall i :: 0 <= i < |parts| ==> NoDots(parts[i])
    ensures Split(Join(parts)) == parts
    decreases |parts|
  {
    if |parts| == 1 {
      SplitOfNoDots(parts[0]);
    } else {
      SplitJoin(parts[1..]);
      SplitOfDotted(parts[0], Join(parts[1..]));
      assert [parts[0]] + parts[1..] == parts;
    }
  }

  /** Joining the pieces gives back the text. */
  lemma {:induction false} JoinSplit(s: string)
    ensures Join(Split(s)) == s
    decreases |s|
  {
    if |s| > 0 {
      JoinSplit(s[1..]);
      var r := Split(s[1..]);
      if s[0] == '.' {
        assert Split(s)[1..] == r;
        assert s == "" + "." + s[1..];
      } else {
        var parts := Split(s);
        assert parts[1..] == r[1..];
        if |r| == 1 {
          assert s == [s[0]] + r[0];
        } else {
          assert Join(r) == r[0] + "." + Join(r[1..]);
          assert s == [s[0]] + r[0] + "." + Join(r[1..]);
        }
      }
    }
  }

  lemma OctetText(b: uint8)
    ensures NoDots(Decimal.FromNat(b)) && ValidOctet(Decimal.FromNat(b)) && Decimal.Value(Decimal.FromNat(b)) == b
  {
    Decimal.FromNatCanonical(b);
    Decimal.ValueOfFromNat(b);
  }

  /** `inet_pton` reads back the dotted-quad text of every address. */
  lemma Inet4OfDottedQuad(addr: seq<uint8>)
    requires |addr| == 4
    ensures Inet4(DottedQuad(addr)) == Some(addr)
  {
    var parts := [Decimal.FromNat(addr[0]), Decimal.FromNat(addr[1]), Decimal.FromNat(addr[2]), Decimal.FromNat(addr[3])];
    OctetText(addr[0]);
    OctetText(addr[1]);
    OctetText(addr[2]);
    OctetText(addr[3]);
    SplitJoin(parts);
    assert [addr[0], addr[1], addr[2], addr[3]] == addr;
  }

  /** Only the dotted-quad text of an address is accepted: the text an address
      is read from is determined by the address. */
  lemma DottedQuadOfInet4(s: string)
    requires Inet4(s).Some?
    ensures DottedQuad(Inet4(s).value) == s
  {
    var parts := Split(s);
    JoinSplit(s);
    Decimal.FromNatOfValue(parts[0]);
    Decimal.FromNatOfValue(parts[1]);
    Decimal.FromNatOfValue(parts[2]);
    Decimal.FromNatOfValue(parts[3]);
    assert [parts[0], parts[1], parts[2], parts[3]] == parts;
  }

  /** A host name without dots is never an address. */
  lemma NamesAreNotAddresses(s: string)
    requires NoDots(s)
    ensures Inet4(s).None?
  {
    SplitOfNoDots(s);
  }

  /** The default listen address is the wildcard address. */
  lemma DefaultListenAddressIsWildcard()
    ensures Inet4(DefaultListenAddress) == Some([0, 0, 0, 0])
  {
    Inet4OfDottedQuad([0, 0, 0, 0]);
    assert Decimal.FromNat(0) == "0";
    var zeros := ["0", "0", "0", "0"];
    assert Join(zeros[3..]) == "0";
    assert Join(zeros[2..]) == "0.0" by { assert zeros[2..][1..] == zeros[3..]; }
    assert Join(zeros[1..]) == "0.0.0" by { assert zeros[1..][1..] == zeros[2..]; }
    assert Join(zeros) == DefaultListenAddress;
  }

  /** `isAddressAvailable`: a socket could be created, the address is a dotted
      quad and binding it with the port succeeds. Creating the socket and the
      bind itself are inputs. */
  function IsAddressAvailable(address: string, port: uint16, socketOk: bool, bindOk: (seq<uint8>, uint16) -> bool): (ok: bool)
    ensures ok <==> socketOk && Inet4(address).Some? && bindOk(Inet4(address).value, port)
    ensures ok ==> DottedQuad(Inet4(address).value) == address
  {
    if !socketOk then false
    else
      var addr := Inet4(address);
      if addr.None? then false
      else
        DottedQuadOfInet4(address);
        bindOk(addr.value, port)
  }

  // ---------------------------------------------------------------------------
  // Daemon flag

  /** `tolower` in the C locale. */
  function ToLower(c: char): (l: char)
    ensures 'A' <= c <= 'Z' ==> l as int == c as int + 32
    ensures !('A' <= c <= 'Z') ==> l == c
  {
    if 'A' <= c <= 'Z' then (c as int + 32) as char else c
  }

  /** Equality up to the case of ASCII letters. */
  predicate EqualsIgnoringCase(s: string, word: string) {
    |s| == |word| && forall i :: 0 <= i < |s| ==> ToLower(s[i]) == word[i]
  }

  /** The daemon switch: "1", "true" or "yes" in any mix of case. */
  predicate DaemonRequested(env: Env) {
    var v := GetEnvOrEmpty(env, DaemonVar);
    EqualsIgnoringCase(v, "1") || EqualsIgnoringCase(v, "true") || EqualsIgnoringCase(v, "yes")
  }

  /** The in-place lowering of `shouldRunAsDaemon`. */
  method Lowered(s: string) returns (lowered: string)
    ensures |lowered| == |s|
    ensures forall i :: 0 <= i < |s| ==> lowered[i] == ToLower(s[i])
  {
    lowered := s;
    var i := 0;
    while i < |lowered|
      invariant 0 <= i <= |lowered| == |s|
      invariant forall k :: 0 <= k < i ==> lowered[k] == ToLower(s[k])
      invariant forall k :: i <= k < |s| ==> lowered[k] == s[k]
    {
      lowered := lowered[i := ToLower(lowered[i])];
      i := i + 1;
    }
  }

  /** `shouldRunAsDaemon`: false for an unset or empty variable. */
  method ShouldRunAsDaemon(env: Env) returns (daemon: bool)
    ensures daemon == DaemonRequested(env)
    ensures GetEnvOrEmpty(env, DaemonVar) == "" ==> !daemon
  {
    var envOverride := GetEnvOrEmpty(env, DaemonVar);
    if envOverride == "" {
      return false;
    }
    var lowered := Lowered(envOverride);
    daemon := lowered == "1" || lowered == "true" || lowered == "yes";
    assert daemon ==> DaemonRequested(env);
    assert DaemonRequested(env) ==> daemon by {
      if EqualsIgnoringCase(envOverride, "1") { assert lowered == "1"; }
      if EqualsIgnoringCase(envOverride, "true") { assert lowered == "true"; }
      if EqualsIgnoringCase(envOverride, "yes") { assert lowered == "yes"; }
    }
  }

  /** Sample spellings accepted and refused; the general statement is
      `ShouldRunAsDaemon`'s contract. */
  lemma DaemonWords(env: Env)
    ensures var v := GetEnvOrEmpty(env, DaemonVar);
            v == "1" || v == "true" || v == "yes" || v == "TRUE" || v == "Yes" || v == "YES" ==> DaemonRequested(env)
    ensures var v := GetEnvOrEmpty(env, DaemonVar);
            v == "" || v == "0" || v == "false" || v == "no" || v == "on" ==> !DaemonRequested(env)
  {
    var v := GetEnvOrEmpty(env, DaemonVar);
    if v == "0" {
      assert ToLower(v[0]) != "1"[0];
    }
  }

  // ---------------------------------------------------------------------------
  // Configuration directory

  /** `std::filesystem::path::parent_path` on a POSIX path, as libstdc++
      computes it: a path without a relative part (empty or only separators)
      is its own parent; a path ending in a separator loses the trailing
      separators; otherwise the last name and the separators before it go,
      leaving "/" for a name directly under the root and "" for a bare name. */
  function ParentPath(s: string): (parent: string)
    ensures parent <= s
  {
    if forall i :: 0 <= i < |s| ==> s[i] == '/' then s
    else if s[|s| - 1] == '/' then StripSeparators(s)
    else
      var dir := DropName(s);
      if dir == "" then ""
      else if StripSeparators(dir) == "" then "/"
      else StripSeparators(dir)
  }

  /** The path without its trailing separators. */
  function StripSeparators(s: string): (t: string)
    ensures t <= s
    ensures |t| > 0 ==> t[|t| - 1] != '/'
    ensures forall i :: |t| <= i < |s| ==> s[i] == '/'
    decreases |s|
  {
    if |s| > 0 && s[|s| - 1] == '/' then StripSeparators(s[..|s| - 1]) else s
  }

  /** The path without its trailing name (the characters after the last
      separator). */
  function DropName(s: string): (t: string)
    ensures t <= s
    ensures |t| > 0 ==> t[|t| - 1] == '/'
    ensures forall i :: |t| <= i < |s| ==> s[i] != '/'
    decreases |s|
  {
    if |s| > 0 && s[|s| - 1] != '/' then DropName(s[..|s| - 1]) else s
  }

  /** The parent of `dir/name` is `dir`, for a directory that does not end in
      a separator and a name without one. */
  lemma ParentOfChild(dir: string, name: string)
    requires |dir| > 0 && dir[|dir| - 1] != '/'
    requires |name| > 0 && forall i :: 0 <= i < |name| ==> name[i] != '/'
    ensures ParentPath(dir + "/" + name) == dir
  {
    var s := dir + "/" + name;
    assert s[|s| - 1] == name[|name| - 1];
    DropNameOf(dir + "/", name);
    StripOneSeparator(dir);
  }

  lemma {:induction false} DropNameOf(prefix: string, name: string)
    requires |prefix| > 0 && prefix[|prefix| - 1] == '/'
    requires forall i :: 0 <= i < |name| ==> name[i] != '/'
    ensures DropName(prefix + name) == prefix
    decreases |name|
  {
    if |name| > 0 {
      assert (prefix + name)[..|prefix + name| - 1] == prefix + name[..|name| - 1];
      DropNameOf(prefix, name[..|name| - 1]);
    } else {
      assert prefix + name == prefix;
    }
  }

  lemma StripOneSeparator(dir: string)
    requires |dir| > 0 && dir[|dir| - 1] != '/'
    ensures StripSeparators(dir + "/") == dir
  {
    assert (dir + "/")[..|dir|] == dir;
  }

  /** `resolveConfigDirectory`: the variable, else the compiled directory,
      else the parent of the compiled XML path when that is non-empty,
      else "". */
  function ResolveConfigDirectory(env: Env, d: Defaults): (dir: string)
    ensures Overrides(env, ConfigDirVar) ==> dir == env[ConfigDirVar]
    ensures !Overrides(env, ConfigDirVar) && DefaultConfigDirectory(d) != "" ==> dir == DefaultConfigDirectory(d)
    ensures !Overrides(env, ConfigDirVar) && DefaultConfigDirectory(d) == "" ==>
              dir == (if DefaultXmlPath(d) != "" then ParentPath(DefaultXmlPath(d)) else "")
  {
    var envOverride := GetEnvOrEmpty(env, ConfigDirVar);
    if envOverride != "" then envOverride
    else
      var compiledDefault := DefaultConfigDirectory(d);
      if compiledDefault != "" then compiledDefault
      else
        var xmlPath := DefaultXmlPath(d);
        if xmlPath != "" && ParentPath(xmlPath) != "" then ParentPath(xmlPath) else ""
  }

  /** The fallback uses the compiled XML path: TRDP_XML_PATH has no effect on
      the configuration directory. */
  lemma ConfigDirectoryIgnoresXmlPathVar(env: Env, d: Defaults, xmlPath: string)
    requires ConfigDirVar != XmlPathVar
    ensures ResolveConfigDirectory(env[XmlPathVar := xmlPath], d) == ResolveConfigDirectory(env, d)
  {
    assert GetEnvOrEmpty(env[XmlPathVar := xmlPath], ConfigDirVar) == GetEnvOrEmpty(env, ConfigDirVar);
  }
}
