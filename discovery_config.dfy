/**
 * Finding and reading the client configuration (kubeconfig) during
 * discovery: the search through the standard places in order of precedence,
 * the classification of a failed open, and the reading that finally sets
 * env.Kubeconfig.
 *
 * The host is an oracle: opening a path, reading an opened file, parsing
 * its bytes, the environment variables and the working directory.
 */
module DiscoveryConfig {
  import opened Wrappers
  import opened Report
  import opened Types
  import opened Host

  // ---------------------------------------------------------------------
  // openKubeconfig

  function ReadingText(path: string): string {
    "Reading .kubeconfig at " + path
  }

  function CouldNotReadText(path: string, err: string): string {
    "Could not read .kubeconfig at " + path + ":\n" + err
  }

  /** The Error for a path the user named that cannot be opened, by the kind of failure. */
  function OpenErrorText(errmsg: string, error: OpenError): string {
    match error
    case NotExist(_) => errmsg + "but that file does not exist."
    case Permission(_) => errmsg + "but lack permission to read that file."
    case OtherOpenError(detail) => errmsg + "but there was an error opening it:\n" + detail
  }

  /** The path can be opened. */
  predicate Opens(open: string -> OpenResult, path: string) {
    path != "" && open(path).Opened?
  }

  /**
   * openKubeconfig: the file opened, named by its path, and what was
   * logged. An empty path is not tried. A failure is only worth a Debug
   * note carrying the error unless `errmsg` says the user named the path, in which case it is
   * one Error that tells a missing file, a permission problem and any other
   * failure apart.
   */
  function OpenKubeconfig(open: string -> OpenResult, path: string, errmsg: string): (r: (Option<string>, seq<Emission>))
    ensures r.0.Some? <==> Opens(open, path)
    ensures r.0.Some? ==> r.0.value == path && r.1 == [Emission(Info, ReadingText(path))]
    ensures path == "" ==> r.1 == []
    ensures path != "" && r.0.None? ==> |r.1| == 1 && r.1[0].level == (if errmsg == "" then Debug else Error)
    ensures path != "" && r.0.None? && errmsg != "" ==> r.1[0].text == OpenErrorText(errmsg, open(path).error)
    ensures path != "" && r.0.None? && errmsg == "" ==> r.1[0].text == CouldNotReadText(path, open(path).error.detail)
  {
    if path == "" then (None, [])
    else
      match open(path)
      case Opened => (Some(path), [Emission(Info, ReadingText(path))])
      case OpenFailed(error) =>
        if errmsg == "" then (None, [Emission(Debug, CouldNotReadText(path, error.detail))])
        else (None, [Emission(Error, OpenErrorText(errmsg, error))])
  }

  /** The three kinds of failure to open a path the user named give three different Errors. */
  lemma OpenErrorsDiffer(errmsg: string, e1: OpenError, e2: OpenError)
    requires e1.NotExist? != e2.NotExist? || e1.Permission? != e2.Permission?
    ensures OpenErrorText(errmsg, e1) != OpenErrorText(errmsg, e2)
  {
    var t1, t2 := OpenErrorText(errmsg, e1), OpenErrorText(errmsg, e2);
    assert t1[|errmsg| + 4] != t2[|errmsg| + 4] || t1[|errmsg| + 12] != t2[|errmsg| + 12];
  }

  // ---------------------------------------------------------------------
  // The search

  /**
   * Trying the places in order until one opens: the file found, and what the
   * attempts logged. Each place is a path and the error message to log when
   * it cannot be opened.
   */
  function TryInOrder(open: string -> OpenResult, places: seq<(string, string)>): (r: (Option<string>, seq<Emission>))
    ensures r.0.Some? <==> exists k :: 0 <= k < |places| && Opens(open, places[k].0)
    ensures r.0.Some? ==>
      exists k :: 0 <= k < |places| && r.0.value == places[k].0 && Opens(open, places[k].0)
                  && forall j :: 0 <= j < k ==> !Opens(open, places[j].0)
  {
    if |places| == 0 then (None, [])
    else
      var first := OpenKubeconfig(open, places[0].0, places[0].1);
      if first.0.Some? then first
      else
        var rest := TryInOrder(open, places[1..]);
        assert forall k :: 0 < k < |places| ==> places[k] == places[1..][k - 1];
        if rest.0.Some? then
          var k :| 0 <= k < |places[1..]| && rest.0.value == places[1..][k].0 && Opens(open, places[1..][k].0)
                   && forall j :: 0 <= j < k ==> !Opens(open, places[1..][j].0);
          assert forall j :: 0 <= j < k + 1 ==> !Opens(open, places[j].0);
          (rest.0, first.1 + rest.1)
        else
          (rest.0, first.1 + rest.1)
  }

  /** Trying a single place is opening it. */
  lemma TryOne(open: string -> OpenResult, place: (string, string))
    ensures TryInOrder(open, [place]) == OpenKubeconfig(open, place.0, place.1)
  {
    assert [place][1..] == [];
    var first := OpenKubeconfig(open, place.0, place.1);
    assert first.1 + [] == first.1;
  }

  /** Trying two places is opening the first, and the second only when the first does not open. */
  lemma TryTwo(open: string -> OpenResult, a: (string, string), b: (string, string))
    ensures
      var first := OpenKubeconfig(open, a.0, a.1);
      var second := OpenKubeconfig(open, b.0, b.1);
      TryInOrder(open, [a, b]) == if first.0.Some? then first else (second.0, first.1 + second.1)
  {
    assert [a, b][1..] == [b];
    TryOne(open, b);
  }

  function FlagErrmsg(path: string): string {
    "-c specified that .kubeconfig should be at " + path + "\n"
  }

  function EnvErrmsg(path: string): string {
    "$KUBECONFIG specified that .kubeconfig should be at " + path + "\n"
  }

  /**
   * The places the kubeconfig search looks, in order: only the given flag
   * path when it is set, else only $KUBECONFIG when that is set, else the
   * working directory and then the home directory's configuration directory
   * (`$HOME/.kube` for findKubeconfig, `$HOME` itself in the older search).
   */
  function Places(fPath: string, kcPath: string, pwd: string, homeDir: string): (p: seq<(string, string)>)
    ensures fPath != "" ==> p == [(fPath, FlagErrmsg(fPath))]
    ensures fPath == "" && kcPath != "" ==> p == [(kcPath, EnvErrmsg(kcPath))]
    ensures fPath == "" && kcPath == "" ==> p == [(pwd + "/.kubeconfig", ""), (homeDir + "/.kubeconfig", "")]
  {
    if fPath != "" then [(fPath, FlagErrmsg(fPath))]
    else if kcPath != "" then [(kcPath, EnvErrmsg(kcPath))]
    else [(pwd + "/.kubeconfig", ""), (homeDir + "/.kubeconfig", "")]
  }

  /** Where the master generates a configuration (enterprise and origin installs). */
  const AdminPath1 := "/var/lib/openshift/openshift.certificates.d/admin/.kubeconfig"
  const AdminPath2 := "/openshift.certificates.d/admin/.kubeconfig"

  /** The opening of the warning about a configuration found only where the master generates it. */
  function AdminWarningText(path: string): string {
    "\n.kubeconfig was not available where expected; however, one exists at\n  " + path
    + "\nwhich is a standard location where the master generates it.\n  export KUBECONFIG=" + path + "\n"
  }

  /** Probing a generated configuration: it is never used, but one that opens is pointed out by a Warn. */
  function AdminProbe(open: string -> OpenResult, path: string): (out: seq<Emission>)
    requires path != ""
    ensures CountAt(out, Warn) == if Opens(open, path) then 1 else 0
  {
    var probe := OpenKubeconfig(open, path, "");
    if probe.0.Some? then
      var out := probe.1 + [Emission(Warn, AdminWarningText(path))];
      CountAtOne(probe.1[0], Warn);
      CountAtOne(Emission(Warn, AdminWarningText(path)), Warn);
      CountAtAppend(probe.1, [Emission(Warn, AdminWarningText(path))], Warn);
      out
    else
      CountAtOne(probe.1[0], Warn);
      probe.1
  }

  /** The outcome of findKubeconfig: the file found and what the search logged. */
  function Find(host: Host, fPath: string): (Option<string>, seq<Emission>) {
    var kcPath := host.getenv("KUBECONFIG");
    var tried := TryInOrder(host.open, Places(fPath, kcPath, host.getwd, host.getenv("HOME") + "/.kube"));
    if tried.0.Some? || fPath != "" || kcPath != "" then tried
    else (None, tried.1 + AdminProbe(host.open, AdminPath1) + AdminProbe(host.open, AdminPath2))
  }

  /** findKubeconfig: look in the places in order and stop at the first that opens. */
  method FindKubeconfig(host: Host, fPath: string) returns (file: Option<string>, out: seq<Emission>)
    ensures (file, out) == Find(host, fPath)
  {
    var kcPath := host.getenv("KUBECONFIG");
    var places := Places(fPath, kcPath, host.getwd, host.getenv("HOME") + "/.kube");
    if fPath != "" {
      // the user named the path: no other place is tried
      var r := OpenKubeconfig(host.open, fPath, FlagErrmsg(fPath));
      file, out := r.0, r.1;
      TryOne(host.open, places[0]);
      return;
    } else if kcPath != "" {
      var r := OpenKubeconfig(host.open, kcPath, EnvErrmsg(kcPath));
      file, out := r.0, r.1;
      TryOne(host.open, places[0]);
      return;
    }
    file, out := SearchStandardPlaces(host.open, host.getwd, host.getenv("HOME") + "/.kube");
    if file.Some? {
      return;
    }
    var probe := ProbeAdmin(host.open, AdminPath1);
    out := out + probe;
    probe := ProbeAdmin(host.open, AdminPath2);
    out := out + probe;
  }

  /** The working directory, then the configuration directory under $HOME (`$HOME/.kube`). */
  method SearchStandardPlaces(open: string -> OpenResult, pwd: string, homeDir: string)
    returns (file: Option<string>, out: seq<Emission>)
    ensures (file, out) == TryInOrder(open, [(pwd + "/.kubeconfig", ""), (homeDir + "/.kubeconfig", "")])
  {
    TryTwo(open, (pwd + "/.kubeconfig", ""), (homeDir + "/.kubeconfig", ""));
    var r := OpenKubeconfig(open, pwd + "/.kubeconfig", "");
    file, out := r.0, r.1;
    if file.Some? {
      return;
    }
    r := OpenKubeconfig(open, homeDir + "/.kubeconfig", "");
    file, out := r.0, out + r.1;
  }

  /** Open a generated configuration, close it again and warn about it. */
  method ProbeAdmin(open: string -> OpenResult, path: string) returns (out: seq<Emission>)
    requires path != ""
    ensures out == AdminProbe(open, path)
  {
    var r := OpenKubeconfig(open, path, "");
    out := r.1;
    if r.0.Some? {
      // the file is closed and not used
      out := out + [Emission(Warn, AdminWarningText(path))];
    }
  }

  /** Without a flag or $KUBECONFIG, pwd/.kubeconfig is tried before $HOME/.kube/.kubeconfig. */
  lemma StandardOrder(open: string -> OpenResult, pwd: string, home: string)
    ensures
      var pwdPath, homePath := pwd + "/.kubeconfig", home + "/.kube/.kubeconfig";
      TryInOrder(open, Places("", "", pwd, home + "/.kube")).0
      == if Opens(open, pwdPath) then Some(pwdPath) else if Opens(open, homePath) then Some(homePath) else None
  {
    var places := Places("", "", pwd, home + "/.kube");
    TryTwo(open, places[0], places[1]);
    assert places[1].0 == home + "/.kube/.kubeconfig";
  }

  /**
   * A configuration flag or $KUBECONFIG is the only place tried, with no
   * fallback even when it cannot be opened; otherwise the result is the
   * first standard place that opens. A generated configuration is never the
   * result: when the standard places fail, each generated one that opens
   * adds one Warn and no file is returned.
   */
  lemma FindPrecedence(host: Host, fPath: string)
    ensures
      var kcPath := host.getenv("KUBECONFIG");
      var (file, out) := Find(host, fPath);
      && (fPath != "" ==> (file, out) == OpenKubeconfig(host.open, fPath, FlagErrmsg(fPath)))
      && (fPath == "" && kcPath != "" ==> (file, out) == OpenKubeconfig(host.open, kcPath, EnvErrmsg(kcPath)))
      && (fPath == "" && kcPath == "" ==>
            var pwdPath, homePath := host.getwd + "/.kubeconfig", host.getenv("HOME") + "/.kube/.kubeconfig";
            var standard := TryInOrder(host.open, Places(fPath, kcPath, host.getwd, host.getenv("HOME") + "/.kube"));
            && (file == standard.0)
            && (file == if Opens(host.open, pwdPath) then Some(pwdPath) else if Opens(host.open, homePath) then Some(homePath) else None)
            && (file.None? ==>
                  CountAt(out, Warn) == CountAt(standard.1, Warn) + (if Opens(host.open, AdminPath1) then 1 else 0) + (if Opens(host.open, AdminPath2) then 1 else 0)))
  {
    var kcPath := host.getenv("KUBECONFIG");
    var places := Places(fPath, kcPath, host.getwd, host.getenv("HOME") + "/.kube");
    if fPath != "" || kcPath != "" {
      TryOne(host.open, places[0]);
    } else {
      StandardOrder(host.open, host.getwd, host.getenv("HOME"));
      AdminWarnings(host);
    }
  }

  lemma AdminWarnings(host: Host)
    requires host.getenv("KUBECONFIG") == ""
    ensures
      var standard := TryInOrder(host.open, Places("", "", host.getwd, host.getenv("HOME") + "/.kube"));
      var (file, out) := Find(host, "");
      && file == standard.0
      && (file.None? ==>
            CountAt(out, Warn) == CountAt(standard.1, Warn) + (if Opens(host.open, AdminPath1) then 1 else 0) + (if Opens(host.open, AdminPath2) then 1 else 0))
  {
    var standard := TryInOrder(host.open, Places("", "", host.getwd, host.getenv("HOME") + "/.kube"));
    ProbeWarnings(host.open, standard.1, AdminPath1, AdminPath2);
  }

  lemma ProbeWarnings(open: string -> OpenResult, before: seq<Emission>, p1: string, p2: string)
    requires p1 != "" && p2 != ""
    ensures CountAt(before + AdminProbe(open, p1) + AdminProbe(open, p2), Warn)
            == CountAt(before, Warn) + (if Opens(open, p1) then 1 else 0) + (if Opens(open, p2) then 1 else 0)
  {
    var a1, a2 := AdminProbe(open, p1), AdminProbe(open, p2);
    CountAtAppend(before, a1, Warn);
    CountAtAppend(before + a1, a2, Warn);
  }

  // ---------------------------------------------------------------------
  // readKubeconfig

  const NoKubeconfigText := "No .kubeconfig read; default OpenShift config will be used, which is likely not what you want."

  function ReadErrorText(path: string, err: string): string {
    "Unexpected error while reading .kubeconfig file (" + path + "): " + err
  }

  function YamlErrorText(path: string, err: string): string {
    "Error reading YAML from kubeconfig file (" + path + "):\n  " + err
  }

  function ReadText(path: string): string {
    "Successfully read a .kubeconfig file at '" + path + "';"
  }

  /**
   * What reading the file found yields: the parsed configuration, if it was
   * read and parsed, and one note: a Warn when there was no file, an Error
   * when it could not be read or parsed, and an Info on success.
   */
  function Load(host: Host, file: Option<string>): (r: (Option<Kubeconfig>, Emission))
    ensures r.0.Some? <==> file.Some? && host.readAll(file.value).Some? && host.load(host.readAll(file.value).value).Some?
    ensures r.0.Some? ==> r.0.value == host.load(host.readAll(file.value).value).value && r.1.level == Info
    ensures file.None? ==> r.1 == Emission(Warn, NoKubeconfigText)
    ensures file.Some? && r.0.None? ==> r.1.level == Error
    ensures file.Some? && host.readAll(file.value).None? ==> r.1.text == ReadErrorText(file.value, host.readError(file.value))
    ensures file.Some? && host.readAll(file.value).Some? && r.0.None?
            ==> r.1.text == YamlErrorText(file.value, host.loadError(host.readAll(file.value).value))
  {
    match file
    case None => (None, Emission(Warn, NoKubeconfigText))
    case Some(path) =>
      match host.readAll(path)
      case None => (None, Emission(Error, ReadErrorText(path, host.readError(path))))
      case Some(buffer) =>
        match host.load(buffer)
        case None => (None, Emission(Error, YamlErrorText(path, host.loadError(buffer))))
        case Some(config) => (Some(config), Emission(Info, ReadText(path)))
  }

  /**
   * readKubeconfig: find the file and read it. env.Kubeconfig is set only
   * when a file was found, read and parsed; nothing else in the environment
   * changes.
   */
  method ReadKubeconfig(e: EnvironmentRef, host: Host) returns (out: seq<Emission>)
    modifies e
    ensures
      var (file, searched) := Find(host, old(e.env).flags.config);
      var (config, note) := Load(host, file);
      && e.env == old(e.env).(kubeconfig := if config.Some? then config else old(e.env).kubeconfig)
      && out == searched + [note]
  {
    var file, searched := FindKubeconfig(host, e.env.flags.config);
    out := searched;
    if file.None? {
      out := out + [Emission(Warn, NoKubeconfigText)];
      return;
    }
    var path := file.value;
    // the file is closed on return
    var buffer := host.readAll(path);
    if buffer.None? {
      out := out + [Emission(Error, ReadErrorText(path, host.readError(path)))];
      return;
    }
    var config := host.load(buffer.value);
    if config.None? {
      out := out + [Emission(Error, YamlErrorText(path, host.loadError(buffer.value)))];
      return;
    }
    e.env := e.env.(kubeconfig := config);
    out := out + [Emission(Info, ReadText(path))];
  }
}
