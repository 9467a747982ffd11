/**
 * Discovery: examine the host and fill in the Environment the diagnostics
 * read. The operating system and its tools, the `osc` and `openshift`
 * executables with their versions, and the client configuration are found
 * in turn. This is the older revision of the kubeconfig search, without the
 * config flag lookup and without the generated admin configurations.
 *
 * The host is an oracle (PATH lookups, file status, running a command's
 * "version", environment variables, the working directory, files).
 */
module Discovery {
  import opened Wrappers
  import opened Report
  import opened Text
  import opened Types
  import opened Host
  import opened DiscoveryConfig

  // ---------------------------------------------------------------------
  // osDiscovery

  /**
   * osDiscovery: record the operating system; only on linux look for
   * systemctl and /bin/bash, and a tool that is found sets its flag.
   */
  method OsDiscovery(e: EnvironmentRef, host: Host)
    modifies e
    ensures e.env == old(e.env).(
      os := host.goos,
      hasSystemd := old(e.env).hasSystemd || (host.goos == "linux" && host.lookPath("systemctl").Some?),
      hasBash := old(e.env).hasBash || (host.goos == "linux" && host.lookPath("/bin/bash").Some?))
  {
    e.env := e.env.(os := host.goos);
    if e.env.os == "linux" {
      if host.lookPath("systemctl").Some? {
        e.env := e.env.(hasSystemd := true);
      }
      if host.lookPath("/bin/bash").Some? {
        e.env := e.env.(hasBash := true);
      }
    }
  }

  // ---------------------------------------------------------------------
  // findExecFor and findExecAndLog

  /** path/filepath.Base on a slash-separated path: its last element, "." for "" and "/" for only slashes. */
  function Base(path: string): (r: string)
    ensures r != ""
    ensures r == "/" || '/' !in r
  {
    if path == "" then "."
    else
      var trimmed := TrimTrailingSlashes(path);
      if trimmed == "" then "/" else AfterLastSlash(trimmed)
  }

  function TrimTrailingSlashes(s: string): (r: string)
    ensures |r| <= |s| && r == s[..|r|]
    ensures r == "" || r[|r| - 1] != '/'
  {
    if |s| > 0 && s[|s| - 1] == '/' then TrimTrailingSlashes(s[..|s| - 1]) else s
  }

  /** The text after the last slash, which is all of `s` when it has none. */
  function AfterLastSlash(s: string): (r: string)
    ensures '/' !in r
    ensures |s| > 0 && s[|s| - 1] != '/' ==> r != ""
  {
    if |s| == 0 then ""
    else if s[|s| - 1] == '/' then ""
    else AfterLastSlash(s[..|s| - 1]) + [s[|s| - 1]]
  }

  lemma {:induction false} AfterLastSlashOf(dir: string, name: string)
    requires '/' !in name
    ensures AfterLastSlash(dir + "/" + name) == name
    decreases |name|
  {
    var s := dir + "/" + name;
    if |name| == 0 {
      assert s[|s| - 1] == '/';
    } else {
      var init := name[..|name| - 1];
      assert s[..|s| - 1] == dir + "/" + init;
      assert '/' !in init by {
        assert forall c :: c in init ==> c in name;
      }
      AfterLastSlashOf(dir, init);
      assert init + [name[|name| - 1]] == name;
    }
  }

  /** The base name of "dir/name" is the name, whatever the directory. */
  lemma BaseOfJoin(dir: string, name: string)
    requires name != "" && '/' !in name
    ensures Base(dir + "/" + name) == name
  {
    var s := dir + "/" + name;
    assert s[|s| - 1] == name[|name| - 1];
    AfterLastSlashOf(dir, name);
  }

  /**
   * findExecFor: the PATH lookup of the command; only on windows, and only
   * when that fails, the lookup of the command with ".exe" appended; "" when
   * nothing is found.
   */
  function FindExecFor(host: Host, cmd: string): (path: string)
    ensures host.lookPath(cmd).Some? ==> path == host.lookPath(cmd).value
    ensures host.lookPath(cmd).None? && host.goos != "windows" ==> path == ""
    ensures host.lookPath(cmd).None? && host.goos == "windows" ==> path == host.lookPath(cmd + ".exe").GetOr("")
  {
    match host.lookPath(cmd)
    case Some(path) => path
    case None =>
      if host.goos == "windows" then
        match host.lookPath(cmd + ".exe")
        case Some(path) => path
        case None => ""
      else ""
  }

  /** Off windows the ".exe" name is never looked up: hosts that agree on the plain name agree on the result. */
  lemma ExeOnlyOnWindows(host: Host, other: Host, cmd: string)
    requires host.goos != "windows" && other.goos != "windows"
    requires host.lookPath(cmd) == other.lookPath(cmd)
    ensures FindExecFor(host, cmd) == FindExecFor(other, cmd)
  {
  }

  function WrongNameText(cmd: string, pathflag: string): string {
    "\nYou specified that '" + cmd + "' should be found at:\n  " + pathflag
    + "\nbut that file has the wrong name. The file name determines available functionality and must match."
  }

  function SpecifiedText(cmd: string, pathflag: string): string {
    "Specified '" + cmd + "' is executable at " + pathflag
  }

  function NoSuchFileText(cmd: string, pathflag: string): string {
    "You specified that '" + cmd + "' should be at " + pathflag + "\nbut that file does not exist."
  }

  function NotExecutableText(cmd: string, pathflag: string): string {
    "You specified that '" + cmd + "' should be at " + pathflag + "\nbut that file is not executable."
  }

  function NotInPathText(cmd: string): string {
    "No '" + cmd + "' executable was found in your path"
  }

  function FoundText(cmd: string, path: string): string {
    "Found '" + cmd + "' at " + path
  }

  /**
   * findExecAndLog: the executable to use for `cmd`, "" when there is none,
   * and the one message that explains it. A path given by flag must have the
   * command's name and be executable, and is never replaced by a PATH
   * lookup; without a flag the PATH is searched.
   */
  function FindExecAndLog(host: Host, cmd: string, pathflag: string): (r: (string, Emission))
    ensures r.0 != "" <==> r.1.level == Info
    ensures r.1.level in {Error, Warn, Info}
    ensures pathflag != "" ==> r.0 == "" || r.0 == pathflag
    ensures pathflag != "" ==> (r.0 == pathflag <==> Base(pathflag) == cmd && host.lookPath(pathflag).Some?)
    ensures pathflag != "" && r.0 == "" ==> r.1.level == Error
    ensures pathflag != "" && Base(pathflag) != cmd ==> r.1 == Emission(Error, WrongNameText(cmd, pathflag))
    ensures pathflag != "" && Base(pathflag) == cmd && host.lookPath(pathflag).None? ==>
      r.1 == Emission(Error, if host.statNotExist(pathflag) then NoSuchFileText(cmd, pathflag) else NotExecutableText(cmd, pathflag))
    ensures pathflag == "" ==> r.0 == FindExecFor(host, cmd) && (r.0 == "" ==> r.1.level == Warn)
  {
    if pathflag != "" then
      if Base(pathflag) != cmd then ("", Emission(Error, WrongNameText(cmd, pathflag)))
      else if host.lookPath(pathflag).Some? then (pathflag, Emission(Info, SpecifiedText(cmd, pathflag)))
      else if host.statNotExist(pathflag) then ("", Emission(Error, NoSuchFileText(cmd, pathflag)))
      else ("", Emission(Error, NotExecutableText(cmd, pathflag)))
    else
      var path := FindExecFor(host, cmd);
      if path == "" then ("", Emission(Warn, NotInPathText(cmd)))
      else (path, Emission(Info, FoundText(cmd, path)))
  }

  // ---------------------------------------------------------------------
  // getExecVersion

  /** A character that ends a %s token: a blank or a newline. */
  predicate Blank(c: char) {
    IsSpace(c) || c == '\n'
  }

  /** The length of the leading run of non-blank characters. */
  function TokenLength(s: string): (n: nat)
    ensures n <= |s|
    ensures forall k :: 0 <= k < n ==> !Blank(s[k])
    ensures n < |s| ==> Blank(s[n])
  {
    if |s| == 0 || Blank(s[0]) then 0 else 1 + TokenLength(s[1..])
  }

  /** The literal `c` of a Sscanf format: the rest of the input after it, if the input starts with it. */
  function Literal(s: string, c: char): (r: Option<string>)
    ensures r.Some? <==> |s| > 0 && s[0] == c
    ensures r.Some? ==> s == [c] + r.value
  {
    if |s| > 0 && s[0] == c then Some(s[1..]) else None
  }

  /**
   * fmt.Sscanf(out, "%s v%d.%d.%d", ...): a non-blank word, blanks, the
   * letter v and three dotted integers; the rest of the output is ignored.
   */
  function ScanVersion(s: string): (r: Option<(string, Version)>)
    ensures r.Some? ==> r.value.0 != ""
  {
    var t := TrimLeftSpaces(s);
    var n := TokenLength(t);
    if n == 0 then None
    else
      match Literal(TrimLeftSpaces(t[n..]), 'v')
      case None => None
      case Some(afterV) =>
        match ScanDottedInts(afterV)
        case None => None
        case Some(v) => Some((t[..n], v))
  }

  /** The "%d.%d.%d" part of the version format. */
  function ScanDottedInts(s: string): (r: Option<Version>) {
    match ScanInt(s)
    case None => None
    case Some((x, r1)) =>
      match Literal(r1, '.')
      case None => None
      case Some(s2) =>
        match ScanInt(s2)
        case None => None
        case Some((y, r2)) =>
          match Literal(r2, '.')
          case None => None
          case Some(s3) =>
            match ScanInt(s3)
            case None => None
            case Some((z, _)) => Some(Version(x, y, z))
  }

  predicate InInt64(v: Version) {
    && MinInt64 <= v.x <= MaxInt64
    && MinInt64 <= v.y <= MaxInt64
    && MinInt64 <= v.z <= MaxInt64
  }

  /** What `<name> version` prints for a version: the name, " v" and the dotted components. */
  function VersionLine(name: string, v: Version): string {
    name + " v" + VersionText(v)
  }

  /** The version as "x.y.z". */
  function VersionText(v: Version): string {
    IntToString(v.x) + "." + IntToString(v.y) + "." + IntToString(v.z)
  }

  /** An integer followed by a dot reads back, and the dot is then consumed. */
  lemma IntThenDot(v: int, s: string)
    requires MinInt64 <= v <= MaxInt64
    ensures ScanInt(IntToString(v) + ("." + s)) == Some((v, "." + s))
    ensures Literal("." + s, '.') == Some(s)
  {
    ScanIntOfIntToString(v, "." + s);
    assert ("." + s)[1..] == s;
  }

  lemma DottedIntsRoundTrip(v: Version, rest: string)
    requires InInt64(v)
    requires rest == [] || !IsDigit(rest[0])
    ensures ScanDottedInts(IntToString(v.x) + ("." + (IntToString(v.y) + ("." + (IntToString(v.z) + rest))))) == Some(v)
  {
    var zs := IntToString(v.z) + rest;
    var ys := IntToString(v.y) + ("." + zs);
    IntThenDot(v.x, ys);
    IntThenDot(v.y, zs);
    ScanIntOfIntToString(v.z, rest);
  }

  lemma VersionTextThen(v: Version, rest: string)
    ensures VersionText(v) + rest == IntToString(v.x) + ("." + (IntToString(v.y) + ("." + (IntToString(v.z) + rest))))
  {
    DottedThen(IntToString(v.x), IntToString(v.y), IntToString(v.z), rest);
  }

  lemma DottedThen(x: string, y: string, z: string, rest: string)
    ensures x + "." + y + "." + z + rest == x + ("." + (y + ("." + (z + rest))))
  {
  }

  /** Reading back a version line gives the name and the version, whatever follows the line. */
  lemma VersionRoundTrip(name: string, v: Version, rest: string)
    requires name != "" && forall k :: 0 <= k < |name| ==> !Blank(name[k])
    requires InInt64(v)
    requires rest == [] || !IsDigit(rest[0])
    ensures ScanVersion(VersionLine(name, v) + rest) == Some((name, v))
  {
    var dotted := IntToString(v.x) + ("." + (IntToString(v.y) + ("." + (IntToString(v.z) + rest))));
    VersionTextThen(v, rest);
    VersionLineThen(name, VersionText(v), rest);
    ScanVersionShape(name, dotted);
    DottedIntsRoundTrip(v, rest);
  }

  lemma VersionLineThen(name: string, text: string, rest: string)
    ensures name + " v" + text + rest == name + (" " + ("v" + (text + rest)))
  {
  }

  /** A word, a blank and a "v": what is read is the word and the dotted integers after the "v". */
  lemma ScanVersionShape(name: string, dotted: string)
    requires name != "" && forall k :: 0 <= k < |name| ==> !Blank(name[k])
    ensures ScanVersion(name + (" " + ("v" + dotted)))
            == match ScanDottedInts(dotted) case None => None case Some(v) => Some((name, v))
  {
    var afterName := " " + ("v" + dotted);
    var s := name + afterName;
    assert s[0] == name[0];
    assert TrimLeftSpaces(s) == s;
    TokenOf(name, afterName);
    assert s[|name|..] == afterName && s[..|name|] == name;
    TrimOneSpace("v" + dotted);
    assert ("v" + dotted)[1..] == dotted;
  }

  lemma TrimOneSpace(s: string)
    requires |s| > 0 && !IsSpace(s[0])
    ensures TrimLeftSpaces(" " + s) == s
  {
    assert (" " + s)[1..] == s;
  }

  lemma {:induction false} TokenOf(word: string, rest: string)
    requires forall k :: 0 <= k < |word| ==> !Blank(word[k])
    requires |rest| > 0 && Blank(rest[0])
    ensures TokenLength(word + rest) == |word|
    decreases |word|
  {
    if |word| > 0 {
      assert (word + rest)[1..] == word[1..] + rest;
      TokenOf(word[1..], rest);
    }
  }

  function VersionFoundText(name: string, v: Version): string {
    "version of " + name + " is " + VersionText(v)
  }

  function UnparsedText(path: string, output: string): string {
    "\nExpected version output from '" + path + " version'\nCould not parse output received:\n" + output
  }

  function ExecErrorText(path: string, detail: string): string {
    "error in executing '" + path + " version': " + detail
  }

  function ExitErrorText(path: string, detail: string, output: string): string {
    "\nExecuted '" + path + " version' which exited with an error code.\nThis version is likely old or broken.\nError was '" + detail + "';\nOutput was:\n" + output
  }

  function OtherErrorText(path: string, detail: string, output: string): string {
    "executed '" + path + " version' but an error occurred:\n" + detail + "\nOutput was:\n" + output
  }

  /**
   * getExecVersion: run `<path> version` and read the version from its
   * output. On success one Info reports it; when the command fails or its
   * output does not read, one Error explains which, and the version is zero.
   */
  function GetExecVersion(host: Host, path: string): (r: (Version, Emission))
    ensures r.1.level == Info <==> host.runVersion(path).Ran? && ScanVersion(host.runVersion(path).output).Some?
    ensures r.1.level == Info ==> r.0 == ScanVersion(host.runVersion(path).output).value.1
    ensures r.1.level != Info ==> r.1.level == Error && r.0 == ZeroVersion
  {
    match host.runVersion(path)
    case Ran(output) =>
      (match ScanVersion(output)
       case Some((name, v)) => (v, Emission(Info, VersionFoundText(name, v)))
       case None => (ZeroVersion, Emission(Error, UnparsedText(path, output))))
    case ExecError(detail) => (ZeroVersion, Emission(Error, ExecErrorText(path, detail)))
    case ExitError(detail, output) => (ZeroVersion, Emission(Error, ExitErrorText(path, detail, output)))
    case OtherExecError(detail, output) => (ZeroVersion, Emission(Error, OtherErrorText(path, detail, output)))
  }

  /** An executable that prints a well-formed version line is credited with exactly that version. */
  lemma GetExecVersionReads(host: Host, path: string, name: string, v: Version)
    requires host.runVersion(path) == Ran(VersionLine(name, v))
    requires name != "" && forall k :: 0 <= k < |name| ==> !Blank(name[k])
    requires InInt64(v)
    ensures GetExecVersion(host, path) == (v, Emission(Info, VersionFoundText(name, v)))
  {
    VersionLineReads(name, v);
    GetExecVersionOfLine(host, path, VersionLine(name, v), name, v);
  }

  /** A version line with nothing after it reads back. */
  lemma VersionLineReads(name: string, v: Version)
    requires name != "" && forall k :: 0 <= k < |name| ==> !Blank(name[k])
    requires InInt64(v)
    ensures ScanVersion(VersionLine(name, v)) == Some((name, v))
  {
    VersionRoundTrip(name, v, []);
    NothingAfter(VersionLine(name, v));
  }

  lemma NothingAfter(s: string)
    ensures s + [] == s
  {
  }

  lemma GetExecVersionOfLine(host: Host, path: string, line: string, name: string, v: Version)
    requires host.runVersion(path) == Ran(line) && ScanVersion(line) == Some((name, v))
    ensures GetExecVersion(host, path) == (v, Emission(Info, VersionFoundText(name, v)))
  {
  }

  // ---------------------------------------------------------------------
  // execDiscovery

  /** The two versions were both read and differ. */
  predicate Mismatch(openshift: Version, osc: Version) {
    openshift.NonZero() && osc.NonZero() && !openshift.Eq(osc)
  }

  function MismatchText(openshift: Version, osc: Version): string {
    "'openshift' version " + VersionText(openshift) + " does not match 'osc' version " + VersionText(osc)
    + "; update or remove the lower version"
  }

  /** The PATH list, one directory per line. */
  function PathListText(path: string): string {
    if |path| == 0 then ""
    else PathListText(path[..|path| - 1]) + (if path[|path| - 1] == ':' then "\n  " else [path[|path| - 1]])
  }

  function SearchingText(path: string): string {
    "Searching for executables in path:\n  " + PathListText(path)
  }

  /** Where discovery finds one executable, the version it reads and what it logs doing so. */
  function Locate(host: Host, cmd: string, pathflag: string, version: Version): (string, Version, seq<Emission>) {
    var (path, found) := FindExecAndLog(host, cmd, pathflag);
    if path == "" then (path, version, [found])
    else
      var (v, note) := GetExecVersion(host, path);
      (path, v, [found, note])
  }

  /** The path is the one findExecAndLog picks; a version is read only from a path found, else the old one stays. */
  lemma LocateReadsOnlyFound(host: Host, cmd: string, pathflag: string, version: Version)
    ensures
      var r := Locate(host, cmd, pathflag, version);
      && r.0 == FindExecAndLog(host, cmd, pathflag).0
      && (r.0 == "" ==> r.1 == version && r.2 == [FindExecAndLog(host, cmd, pathflag).1])
      && (r.0 != "" ==> r.1 == GetExecVersion(host, r.0).0 && r.2 == [FindExecAndLog(host, cmd, pathflag).1, GetExecVersion(host, r.0).1])
  {
  }

  /**
   * execDiscovery: find `osc` and then `openshift`, reading the version of
   * each one found, and warn when both versions were read and differ.
   */
  method ExecDiscovery(e: EnvironmentRef, host: Host) returns (out: seq<Emission>)
    modifies e
    ensures
      var osc := Locate(host, "osc", old(e.env).flags.oscPath, old(e.env).oscVersion);
      var openshift := Locate(host, "openshift", old(e.env).flags.openshiftPath, old(e.env).openshiftVersion);
      && e.env == old(e.env).(oscPath := osc.0, oscVersion := osc.1, openshiftPath := openshift.0, openshiftVersion := openshift.1)
      && out == [Emission(Debug, SearchingText(host.getenv("PATH")))] + osc.2 + openshift.2
                + (if Mismatch(openshift.1, osc.1) then [Emission(Warn, MismatchText(openshift.1, osc.1))] else [])
  {
    var env := e.env;
    var oscPath, oscVersion, oscNotes := LocateExec(host, "osc", env.flags.oscPath, env.oscVersion);
    var openshiftPath, openshiftVersion, openshiftNotes := LocateExec(host, "openshift", env.flags.openshiftPath, env.openshiftVersion);
    e.env := env.(oscPath := oscPath, oscVersion := oscVersion, openshiftPath := openshiftPath, openshiftVersion := openshiftVersion);
    out := [Emission(Debug, SearchingText(host.getenv("PATH")))] + oscNotes + openshiftNotes;
    if Mismatch(openshiftVersion, oscVersion) {
      out := out + [Emission(Warn, MismatchText(openshiftVersion, oscVersion))];
    }
  }

  /**
   * One step of execDiscovery: the path findExecAndLog gives for `cmd` and,
   * when one is found, the version getExecVersion reads from it; otherwise the
   * version is left as it was.
   */
  method LocateExec(host: Host, cmd: string, pathflag: string, version: Version) returns (path: string, v: Version, out: seq<Emission>)
    ensures var r := Locate(host, cmd, pathflag, version); path == r.0 && v == r.1 && out == r.2
  {
    var found := FindExecAndLog(host, cmd, pathflag);
    path, v, out := found.0, version, [found.1];
    if path != "" {
      var read := GetExecVersion(host, path);
      v, out := read.0, out + [read.1];
    }
  }

  /** The mismatch warning needs two versions that were read: a missing or unreadable executable never causes it. */
  lemma NoMismatchWithoutBoth(openshift: Version, osc: Version)
    ensures openshift == ZeroVersion || osc == ZeroVersion ==> !Mismatch(openshift, osc)
    ensures Mismatch(openshift, osc) ==> openshift != osc
  {
  }

  // ---------------------------------------------------------------------
  // readKubeconfig (the older search)

  const NoKubeconfigDefaultText := "No .kubeconfig read; default config expects OpenShift master at https://localhost:8443/"

  function OlderReadErrorText(path: string, err: string): string {
    "Unexpected error while reading .kubeconfig file (" + path + "): " + err
  }

  function OlderYamlErrorText(err: string): string {
    "Error reading YAML from kubeconfig:\n" + err
  }

  /** What this revision makes of the file found: the configuration, and at most one note (none on success). */
  function OlderLoad(host: Host, file: Option<string>): (r: (Option<Kubeconfig>, seq<Emission>))
    ensures r.0.Some? <==> file.Some? && host.readAll(file.value).Some? && host.load(host.readAll(file.value).value).Some?
    ensures r.0.Some? ==> r.0.value == host.load(host.readAll(file.value).value).value && r.1 == []
    ensures file.None? ==> r.1 == [Emission(Warn, NoKubeconfigDefaultText)]
    ensures file.Some? && r.0.None? ==> |r.1| == 1 && r.1[0].level == Error
    ensures file.Some? && host.readAll(file.value).None? ==> r.1[0].text == OlderReadErrorText(file.value, host.readError(file.value))
    ensures file.Some? && host.readAll(file.value).Some? && r.0.None?
            ==> r.1[0].text == OlderYamlErrorText(host.loadError(host.readAll(file.value).value))
  {
    match file
    case None => (None, [Emission(Warn, NoKubeconfigDefaultText)])
    case Some(path) =>
      match host.readAll(path)
      case None => (None, [Emission(Error, OlderReadErrorText(path, host.readError(path)))])
      case Some(buffer) =>
        match host.load(buffer)
        case None => (None, [Emission(Error, OlderYamlErrorText(host.loadError(buffer)))])
        case Some(config) => (Some(config), [])
  }

  /**
   * readKubeconfig of this revision: search the places in order, stopping at
   * the first that opens, then read and parse that file; env.Kubeconfig is
   * set only on success and nothing else changes.
   */
  method ReadKubeconfig(e: EnvironmentRef, host: Host) returns (out: seq<Emission>)
    modifies e
    ensures
      var places := Places(old(e.env).flags.kubeconfigPath, host.getenv("KUBECONFIG"), host.getwd, host.getenv("HOME"));
      var (file, searched) := TryInOrder(host.open, places);
      var (config, notes) := OlderLoad(host, file);
      && e.env == old(e.env).(kubeconfig := if config.Some? then config else old(e.env).kubeconfig)
      && out == searched + notes
  {
    var places := Places(e.env.flags.kubeconfigPath, host.getenv("KUBECONFIG"), host.getwd, host.getenv("HOME"));
    var file: Option<string>;
    var path := e.env.flags.kubeconfigPath;
    if path != "" {
      var r := OpenKubeconfig(host.open, path, FlagErrmsg(path));
      file, out := r.0, r.1;
      TryOne(host.open, places[0]);
    } else {
      path := host.getenv("KUBECONFIG");
      if path != "" {
        var r := OpenKubeconfig(host.open, path, EnvErrmsg(path));
        file, out := r.0, r.1;
        TryOne(host.open, places[0]);
      } else {
        path := host.getwd;
        var r := OpenKubeconfig(host.open, path + "/.kubeconfig", "");
        file, out := r.0, r.1;
        if file.None? {
          r := OpenKubeconfig(host.open, host.getenv("HOME") + "/.kubeconfig", "");
          file, out := r.0, out + r.1;
        }
        TryTwo(host.open, places[0], places[1]);
      }
    }
    var notes := LoadFound(e, host, file);
    out := out + notes;
  }

  /** The second half of readKubeconfig: read and parse the file found. */
  method LoadFound(e: EnvironmentRef, host: Host, file: Option<string>) returns (out: seq<Emission>)
    modifies e
    ensures
      var (config, notes) := OlderLoad(host, file);
      e.env == old(e.env).(kubeconfig := if config.Some? then config else old(e.env).kubeconfig) && out == notes
  {
    if file.None? {
      out := [Emission(Warn, NoKubeconfigDefaultText)];
      return;
    }
    var path := file.value;
    // the file is closed on return
    var buffer := host.readAll(path);
    if buffer.None? {
      out := [Emission(Error, OlderReadErrorText(path, host.readError(path)))];
      return;
    }
    var config := host.load(buffer.value);
    if config.None? {
      out := [Emission(Error, OlderYamlErrorText(host.loadError(buffer.value)))];
      return;
    }
    e.env := e.env.(kubeconfig := config);
    out := [];
  }

  /**
   * The flag path, when set, is the only place tried, then $KUBECONFIG;
   * otherwise the working directory wins over $HOME.
   */
  lemma OlderPrecedence(host: Host, flagPath: string)
    ensures
      var kcPath := host.getenv("KUBECONFIG");
      var pwdPath, homePath := host.getwd + "/.kubeconfig", host.getenv("HOME") + "/.kubeconfig";
      var found := TryInOrder(host.open, Places(flagPath, kcPath, host.getwd, host.getenv("HOME"))).0;
      && (flagPath != "" ==> found == OpenKubeconfig(host.open, flagPath, FlagErrmsg(flagPath)).0)
      && (flagPath == "" && kcPath != "" ==> found == OpenKubeconfig(host.open, kcPath, EnvErrmsg(kcPath)).0)
      && (flagPath == "" && kcPath == "" ==>
            found == if Opens(host.open, pwdPath) then Some(pwdPath) else if Opens(host.open, homePath) then Some(homePath) else None)
  {
    var kcPath := host.getenv("KUBECONFIG");
    var places := Places(flagPath, kcPath, host.getwd, host.getenv("HOME"));
    if flagPath != "" || kcPath != "" {
      TryOne(host.open, places[0]);
    } else {
      TryTwo(host.open, places[0], places[1]);
    }
  }

  // ---------------------------------------------------------------------
  // Run

  /**
   * Run: start from the flags alone, then discover the operating system,
   * the executables and the client configuration, in that order.
   */
  method Run(f: Flags, host: Host) returns (e: EnvironmentRef, out: seq<Emission>)
    ensures fresh(e)
    ensures e.env.flags == f && e.env.os == host.goos && e.env.systemdUnits == map[] && e.env.kubeconfigPath == ""
    ensures e.env.hasSystemd <==> host.goos == "linux" && host.lookPath("systemctl").Some?
    ensures e.env.hasBash <==> host.goos == "linux" && host.lookPath("/bin/bash").Some?
    ensures e.env.oscPath == FindExecAndLog(host, "osc", f.oscPath).0
    ensures e.env.openshiftPath == FindExecAndLog(host, "openshift", f.openshiftPath).0
    ensures e.env.oscPath == "" ==> e.env.oscVersion == ZeroVersion
    ensures e.env.openshiftPath == "" ==> e.env.openshiftVersion == ZeroVersion
    ensures
      var osc := Locate(host, "osc", f.oscPath, ZeroVersion);
      var openshift := Locate(host, "openshift", f.openshiftPath, ZeroVersion);
      var search := TryInOrder(host.open, Places(f.kubeconfigPath, host.getenv("KUBECONFIG"), host.getwd, host.getenv("HOME")));
      var load := OlderLoad(host, search.0);
      && e.env.oscVersion == osc.1 && e.env.openshiftVersion == openshift.1
      && e.env.kubeconfig == load.0
      && out == [Emission(Debug, SearchingText(host.getenv("PATH")))] + osc.2 + openshift.2
                + (if Mismatch(openshift.1, osc.1) then [Emission(Warn, MismatchText(openshift.1, osc.1))] else [])
                + (search.1 + load.1)
  {
    ghost var osc := Locate(host, "osc", f.oscPath, ZeroVersion);
    ghost var openshift := Locate(host, "openshift", f.openshiftPath, ZeroVersion);
    ghost var search := TryInOrder(host.open, Places(f.kubeconfigPath, host.getenv("KUBECONFIG"), host.getwd, host.getenv("HOME")));
    ghost var load := OlderLoad(host, search.0);
    LocateReadsOnlyFound(host, "osc", f.oscPath, ZeroVersion);
    LocateReadsOnlyFound(host, "openshift", f.openshiftPath, ZeroVersion);
    e := new EnvironmentRef(f);
    OsDiscovery(e, host);
    assert e.env.flags == f && e.env.oscVersion == ZeroVersion && e.env.openshiftVersion == ZeroVersion && e.env.kubeconfig == None;
    out := ExecDiscovery(e, host);
    assert e.env.flags == f && e.env.kubeconfig == None;
    assert e.env.oscPath == osc.0 && e.env.oscVersion == osc.1 && e.env.openshiftPath == openshift.0 && e.env.openshiftVersion == openshift.1;
    var notes := ReadKubeconfig(e, host);
    assert notes == search.1 + load.1 && e.env.kubeconfig == load.0;
    out := out + notes;
  }
}
