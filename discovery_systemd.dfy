/**
 * Discovery of the systemd units the diagnostics care about: the
 * `systemctl show <unit>` Key=Value listing is parsed into a SystemdUnit
 * record, and the units that exist are recorded in the environment.
 *
 * Running `systemctl show` is a parameter: its output, or the error it failed
 * with.
 */
module DiscoverySystemd {
  import opened Wrappers
  import opened Report
  import opened Text
  import opened Types

  /** How `systemctl show <unit>` ended. */
  datatype CommandResult = Output(text: string) | Failed(error: string)

  // ---------------------------------------------------------------------
  // The Key=Value listing

  /** The line sets `key`: it has an "=" and the text before the first one is `key`. */
  predicate SetsKey(line: string, key: string) {
    SplitFirst(line, '=').Some? && SplitFirst(line, '=').value.0 == key
  }

  /**
   * The attribute map built from the lines: each line with an "=" sets the
   * key before its first "=" to everything after it; later lines overwrite.
   */
  function Attributes(lines: seq<string>): map<string, string> {
    if |lines| == 0 then map[]
    else
      var attr := Attributes(lines[..|lines| - 1]);
      match SplitFirst(lines[|lines| - 1], '=')
      case None => attr
      case Some((key, value)) => attr[key := value]
  }

  /** A key is set exactly when some line sets it. */
  lemma {:induction false} AttributesKeys(lines: seq<string>, key: string)
    ensures key in Attributes(lines) <==> exists i :: 0 <= i < |lines| && SetsKey(lines[i], key)
    decreases |lines|
  {
    if |lines| > 0 {
      var init, last := lines[..|lines| - 1], lines[|lines| - 1];
      AttributesKeys(init, key);
      var attr := Attributes(lines);
      if key in attr {
        if SetsKey(last, key) {
          assert SetsKey(lines[|lines| - 1], key);
        } else {
          assert key in Attributes(init);
          var i :| 0 <= i < |init| && SetsKey(init[i], key);
          assert SetsKey(lines[i], key);
        }
      } else {
        forall i | 0 <= i < |lines|
          ensures !SetsKey(lines[i], key)
        {
          if i < |init| {
            assert lines[i] == init[i];
          }
        }
      }
    }
  }

  /** The value of a key is the one its last line gives it; the value keeps any further "=". */
  lemma {:induction false} AttributesLastWins(lines: seq<string>, i: nat, key: string)
    requires i < |lines| && SetsKey(lines[i], key)
    requires forall j :: i < j < |lines| ==> !SetsKey(lines[j], key)
    ensures key in Attributes(lines) && Attributes(lines)[key] == SplitFirst(lines[i], '=').value.1
    decreases |lines|
  {
    if i < |lines| - 1 {
      var init := lines[..|lines| - 1];
      assert init[i] == lines[i];
      forall j | i < j < |init|
        ensures !SetsKey(init[j], key)
      {
        assert init[j] == lines[j];
      }
      AttributesLastWins(init, i, key);
    }
  }

  /** attr[key] in Go: the empty string when the key is absent. */
  function Get(attr: map<string, string>, key: string): string {
    if key in attr then attr[key] else ""
  }

  /** The attributes of a `systemctl show` listing, one per line. */
  function Attrs(text: string): map<string, string> {
    Attributes(Split(text, '\n'))
  }

  // ---------------------------------------------------------------------
  // discoverSystemdUnit

  /**
   * The record discoverSystemdUnit returns: the unit exists exactly when the
   * command succeeded and LoadState is "loaded"; a unit that does not exist
   * keeps every other field blank; ExitStatus is the integer read from
   * StatusErrno, or 0 when that does not read.
   */
  function UnitFromShow(name: string, show: CommandResult): (u: SystemdUnit)
    ensures u.name == name
    ensures u.unitExists <==> show.Output? && Get(Attrs(show.text), "LoadState") == "loaded"
    ensures !u.unitExists ==> !u.enabled && !u.active && u.exitStatus == 0
    ensures u.unitExists ==>
      var attr := Attrs(show.text);
      && (u.enabled <==> Get(attr, "UnitFileState") == "enabled")
      && (u.active <==> Get(attr, "ActiveState") == "active")
      && u.exitStatus == (match ScanInt(Get(attr, "StatusErrno")) case None => 0 case Some((v, _)) => v)
  {
    if show.Failed? then SystemdUnit(name, false, false, false, 0)
    else
      var attr := Attrs(show.text);
      if Get(attr, "LoadState") != "loaded" then SystemdUnit(name, false, false, false, 0)
      else
        var status := match ScanInt(Get(attr, "StatusErrno")) case None => 0 case Some((v, _)) => v;
        SystemdUnit(name, true, Get(attr, "UnitFileState") == "enabled", Get(attr, "ActiveState") == "active", status)
  }

  function CtlErrorText(name: string, error: string): string {
    "Error running `systemctl show " + name + "`: " + error + "\nCannot analyze systemd units."
  }

  function NoExistText(name: string, state: string): string {
    "systemd unit '" + name + "' does not exist. LoadState is '" + state + "'"
  }

  function EnabledText(name: string): string {
    "systemd unit '" + name + "' is enabled - it will start automatically at boot."
  }

  function NotEnabledText(name: string, state: string): string {
    "systemd unit '" + name + "' is not enabled - it does not start automatically at boot. UnitFileState is '" + state + "'"
  }

  function ActiveText(name: string): string {
    "systemd unit '" + name + "' is currently running"
  }

  function NotActiveText(name: string, state: string, exit: int): string {
    "systemd unit '" + name + "' is not currently running. ActiveState is '" + state + "'; exit code was " + IntToString(exit) + "."
  }

  /** What discoverSystemdUnit logs, with `exit` the exit status its "not running" note reports. */
  function Notes(name: string, show: CommandResult, exit: int): seq<Emission> {
    match show
    case Failed(error) => [Emission(Error, CtlErrorText(name, error))]
    case Output(text) =>
      var attr := Attrs(text);
      var load := Get(attr, "LoadState");
      if load != "loaded" then [Emission(Debug, NoExistText(name, load))]
      else
        var fileState, activeState := Get(attr, "UnitFileState"), Get(attr, "ActiveState");
        [ Emission(Debug, if fileState == "enabled" then EnabledText(name) else NotEnabledText(name, fileState)),
          Emission(Debug, if activeState == "active" then ActiveText(name) else NotActiveText(name, activeState, exit)) ]
  }

  /** The notes as the source writes them: the exit status is printed before StatusErrno is read, so it is always 0. */
  function UnitNotesAsWritten(name: string, show: CommandResult): seq<Emission> {
    Notes(name, show, 0)
  }

  /** The notes with the exit status read before it is reported. */
  function UnitNotes(name: string, show: CommandResult): seq<Emission> {
    Notes(name, show, UnitFromShow(name, show).exitStatus)
  }

  /** A failed command is reported by exactly one Error; otherwise every note is at Debug. */
  lemma NotesLevels(name: string, show: CommandResult, exit: int)
    ensures CountAt(Notes(name, show, exit), Error) == (if show.Failed? then 1 else 0)
    ensures show.Output? ==> CountAt(Notes(name, show, exit), Debug) == |Notes(name, show, exit)|
  {
    var out := Notes(name, show, exit);
    if show.Output? && |out| == 2 {
      assert out[..1][..0] == [];
    }
  }

  /** A unit that exists but is not running is reported with the exit status its record holds. */
  lemma InactiveNoteReportsStatus(name: string, show: CommandResult)
    requires UnitFromShow(name, show).unitExists && !UnitFromShow(name, show).active
    ensures
      var u := UnitFromShow(name, show);
      UnitNotes(name, show)[1] == Emission(Debug, NotActiveText(name, Get(Attrs(show.text), "ActiveState"), u.exitStatus))
  {
  }

  /**
   * As written, a stopped unit whose StatusErrno is 3 is reported with
   * "exit code was 0", although the record it returns holds 3.
   */
  lemma ExitStatusReportedAsZero(name: string)
    ensures
      var show := Output(ShowText(SystemdUnit(name, true, false, false, 3)));
      && UnitFromShow(name, show).exitStatus == 3
      && UnitNotesAsWritten(name, show)[1] == Emission(Debug, NotActiveText(name, "inactive", 0))
      && UnitNotesAsWritten(name, show) != UnitNotes(name, show)
  {
    var u := SystemdUnit(name, true, false, false, 3);
    var show := Output(ShowText(u));
    ShowRoundTrip(u);
    AttrsOfShow(u);
    var p := "systemd unit '" + name + "' is not currently running. ActiveState is '" + "inactive" + "'; exit code was ";
    assert NotActiveText(name, "inactive", 0)[|p|] == '0';
    assert NotActiveText(name, "inactive", 3)[|p|] == '3';
    assert UnitNotesAsWritten(name, show)[1] != UnitNotes(name, show)[1];
  }

  /**
   * The notes as written and the corrected notes differ exactly for a unit
   * that exists, is not running and has a non-zero exit status.
   */
  lemma AsWrittenDiffersOnlyWhenStopped(name: string, show: CommandResult)
    ensures
      var u := UnitFromShow(name, show);
      UnitNotesAsWritten(name, show) == UnitNotes(name, show) <==> !(u.unitExists && !u.active && u.exitStatus != 0)
  {
    var u := UnitFromShow(name, show);
    if u.unitExists && !u.active && u.exitStatus != 0 {
      var state := Get(Attrs(show.text), "ActiveState");
      if UnitNotesAsWritten(name, show) == UnitNotes(name, show) {
        assert UnitNotesAsWritten(name, show)[1] == UnitNotes(name, show)[1];
        NotActiveTextInjective(name, state, 0, u.exitStatus);
      }
    }
  }

  /** The "not running" note determines the exit status it reports. */
  lemma NotActiveTextInjective(name: string, state: string, e1: int, e2: int)
    requires MinInt64 <= e1 <= MaxInt64 && MinInt64 <= e2 <= MaxInt64
    requires NotActiveText(name, state, e1) == NotActiveText(name, state, e2)
    ensures e1 == e2
  {
    var p := "systemd unit '" + name + "' is not currently running. ActiveState is '" + state + "'; exit code was ";
    assert NotActiveText(name, state, e1) == p + (IntToString(e1) + ".");
    assert NotActiveText(name, state, e2) == p + (IntToString(e2) + ".");
    assert IntToString(e1) + "." == NotActiveText(name, state, e1)[|p|..];
    ScanIntOfIntToString(e1, ".");
    ScanIntOfIntToString(e2, ".");
  }

  /** The loop of discoverSystemdUnit that fills the attribute map. */
  method ParseAttributes(lines: seq<string>) returns (attr: map<string, string>)
    ensures attr == Attributes(lines)
  {
    attr := map[];
    var i := 0;
    while i < |lines|
      invariant 0 <= i <= |lines|
      invariant attr == Attributes(lines[..i])
    {
      var elements := SplitFirst(lines[i], '='); // looking for "Foo=Bar" settings
      if elements.Some? {
        attr := attr[elements.value.0 := elements.value.1];
      }
      assert lines[..i + 1][..i] == lines[..i];
      i := i + 1;
    }
    assert lines[..i] == lines;
  }

  /**
   * discoverSystemdUnit: run `systemctl show <name>`, parse its listing and
   * fill in the record step by step.
   */
  method DiscoverSystemdUnit(name: string, show: CommandResult) returns (unit: SystemdUnit, out: seq<Emission>)
    ensures unit == UnitFromShow(name, show)
    ensures out == UnitNotes(name, show)
  {
    unit := SystemdUnit(name, false, false, false, 0);
    if show.Failed? {
      out := [Emission(Error, CtlErrorText(name, show.error))];
      return;
    }
    var attr := ParseAttributes(Split(show.text, '\n'));
    var load := Get(attr, "LoadState");
    if load != "loaded" {
      out := [Emission(Debug, NoExistText(name, load))];
      return; // does not exist: leave everything blank
    }
    unit := unit.(unitExists := true);
    var fileState := Get(attr, "UnitFileState");
    var fileNote;
    if fileState == "enabled" {
      fileNote := Emission(Debug, EnabledText(name));
      unit := unit.(enabled := true);
    } else {
      fileNote := Emission(Debug, NotEnabledText(name, fileState));
    }
    var scanned := ScanInt(Get(attr, "StatusErrno")); // errors are ignored: the status stays 0
    if scanned.Some? {
      unit := unit.(exitStatus := scanned.value.0);
    }
    var activeState := Get(attr, "ActiveState");
    var activeNote;
    if activeState == "active" {
      activeNote := Emission(Debug, ActiveText(name));
      unit := unit.(active := true);
    } else {
      activeNote := Emission(Debug, NotActiveText(name, activeState, unit.exitStatus));
    }
    out := [fileNote, activeNote];
  }

  // ---------------------------------------------------------------------
  // A listing that describes a given record

  /** The listing `systemctl show` would give for an existing unit with this record. */
  function ShowText(u: SystemdUnit): string {
    Join(ShowLines(u), '\n')
  }

  function ShowLines(u: SystemdUnit): seq<string> {
    [ "LoadState" + "=" + "loaded",
      "UnitFileState" + "=" + (if u.enabled then "enabled" else "disabled"),
      "ActiveState" + "=" + (if u.active then "active" else "inactive"),
      "StatusErrno" + "=" + IntToString(u.exitStatus) ]
  }

  lemma NoNewlineInInt(v: int)
    ensures '\n' !in IntToString(v)
  {
    var ds := NatToString(if v < 0 then -v else v);
    assert forall k :: 0 <= k < |ds| ==> IsDigit(ds[k]);
    if v < 0 {
      assert IntToString(v) == "-" + ds;
    }
  }

  /** A line "key=value" with no "=" in the key sets key to value. */
  lemma AttributesSnoc(init: seq<string>, key: string, value: string)
    requires '=' !in key
    ensures Attributes(init + [key + "=" + value]) == Attributes(init)[key := value]
  {
    SplitFirstJoin(key, value, '=');
    assert (init + [key + "=" + value])[..|init|] == init;
  }

  lemma AttributesOfFour(k0: string, v0: string, k1: string, v1: string, k2: string, v2: string, k3: string, v3: string)
    requires '=' !in k0 && '=' !in k1 && '=' !in k2 && '=' !in k3
    ensures Attributes([k0 + "=" + v0, k1 + "=" + v1, k2 + "=" + v2, k3 + "=" + v3])
            == map[k0 := v0][k1 := v1][k2 := v2][k3 := v3]
  {
    var lines := [k0 + "=" + v0, k1 + "=" + v1, k2 + "=" + v2, k3 + "=" + v3];
    AttributesSnoc([], k0, v0);
    AttributesSnoc(lines[..1], k1, v1);
    AttributesSnoc(lines[..2], k2, v2);
    AttributesSnoc(lines[..3], k3, v3);
    assert [] + [lines[0]] == lines[..1];
    assert lines[..1] + [lines[1]] == lines[..2];
    assert lines[..2] + [lines[2]] == lines[..3];
    assert lines[..3] + [lines[3]] == lines;
  }

  lemma NoNewlineInSetting(key: string, value: string)
    requires '\n' !in key && '\n' !in value
    ensures '\n' !in key + "=" + value
  {
    assert forall c :: c in key + "=" + value ==> c in key || c == '=' || c in value;
  }

  /** A listing of four "key=value" lines sets exactly those keys, the later line winning. */
  lemma AttrsOfFour(k0: string, v0: string, k1: string, v1: string, k2: string, v2: string, k3: string, v3: string)
    requires '=' !in k0 && '=' !in k1 && '=' !in k2 && '=' !in k3
    requires '\n' !in k0 && '\n' !in k1 && '\n' !in k2 && '\n' !in k3
    requires '\n' !in v0 && '\n' !in v1 && '\n' !in v2 && '\n' !in v3
    ensures Attrs(Join([k0 + "=" + v0, k1 + "=" + v1, k2 + "=" + v2, k3 + "=" + v3], '\n'))
            == map[k0 := v0][k1 := v1][k2 := v2][k3 := v3]
  {
    var lines := [k0 + "=" + v0, k1 + "=" + v1, k2 + "=" + v2, k3 + "=" + v3];
    NoNewlineInSetting(k0, v0);
    NoNewlineInSetting(k1, v1);
    NoNewlineInSetting(k2, v2);
    NoNewlineInSetting(k3, v3);
    SplitJoin(lines, '\n');
    AttributesOfFour(k0, v0, k1, v1, k2, v2, k3, v3);
  }

  lemma AttrsOfShow(u: SystemdUnit)
    ensures
      var attr := Attrs(ShowText(u));
      && Get(attr, "LoadState") == "loaded"
      && Get(attr, "UnitFileState") == (if u.enabled then "enabled" else "disabled")
      && Get(attr, "ActiveState") == (if u.active then "active" else "inactive")
      && Get(attr, "StatusErrno") == IntToString(u.exitStatus)
  {
    NoNewlineInInt(u.exitStatus);
    AttrsOfFour("LoadState", "loaded",
                "UnitFileState", if u.enabled then "enabled" else "disabled",
                "ActiveState", if u.active then "active" else "inactive",
                "StatusErrno", IntToString(u.exitStatus));
  }

  /** Parsing the listing of an existing unit gives back its record. */
  lemma ShowRoundTrip(u: SystemdUnit)
    requires u.unitExists && MinInt64 <= u.exitStatus <= MaxInt64
    ensures UnitFromShow(u.name, Output(ShowText(u))) == u
  {
    AttrsOfShow(u);
    ScanIntOfIntToString(u.exitStatus, []);
    assert IntToString(u.exitStatus) + [] == IntToString(u.exitStatus);
  }

  // ---------------------------------------------------------------------
  // discoverSystemd

  /** The units discovery asks systemd about, in this order. */
  const UnitNames: seq<string> := [
    "openshift", "openshift-master", "openshift-node", "openshift-sdn-master", "openshift-sdn-node",
    "docker", "openvswitch", "iptables", "etcd", "kubernetes"]

  /** The unit map after recording, in order, each of `names` that exists. */
  function Discovered(units: map<string, SystemdUnit>, names: seq<string>, showFor: string -> CommandResult)
    : map<string, SystemdUnit>
  {
    if |names| == 0 then units
    else
      var m := Discovered(units, names[..|names| - 1], showFor);
      var name := names[|names| - 1];
      var u := UnitFromShow(name, showFor(name));
      if u.unitExists then m[name := u] else m
  }

  /** Exactly the existing units among the names are added, each under its own name, and nothing else changes. */
  lemma {:induction false} DiscoveredExactly(units: map<string, SystemdUnit>, names: seq<string>, showFor: string -> CommandResult, key: string)
    ensures
      var m := Discovered(units, names, showFor);
      var found := key in names && UnitFromShow(key, showFor(key)).unitExists;
      && (key in m <==> key in units || found)
      && (found ==> m[key] == UnitFromShow(key, showFor(key)))
      && (key !in names && key in units ==> m[key] == units[key])
    decreases |names|
  {
    if |names| > 0 {
      var init := names[..|names| - 1];
      DiscoveredExactly(units, init, showFor, key);
      assert names == init + [names[|names| - 1]];
      assert key in names <==> key in init || key == names[|names| - 1];
    }
  }

  function SawText(name: string): string {
    "Saw systemd unit " + name
  }

  /** What discovery logs for one unit name. */
  function NameNotes(showFor: string -> CommandResult, name: string): seq<Emission> {
    UnitNotes(name, showFor(name))
    + (if UnitFromShow(name, showFor(name)).unitExists then [Emission(Debug, SawText(name))] else [])
  }

  /**
   * discoverSystemd: without an openshift binary or without systemd nothing
   * happens; otherwise each existing unit among UnitNames is recorded in
   * env.SystemdUnits, and the resulting map is logged (`dump` renders it).
   */
  method DiscoverSystemd(e: EnvironmentRef, showFor: string -> CommandResult, dump: map<string, SystemdUnit> -> string)
    returns (out: seq<Emission>)
    modifies e
    ensures old(e.env).openshiftPath == "" || !old(e.env).hasSystemd ==> e.env == old(e.env) && out == []
    ensures old(e.env).openshiftPath != "" && old(e.env).hasSystemd ==>
      && e.env == old(e.env).(systemdUnits := Discovered(old(e.env).systemdUnits, UnitNames, showFor))
      && out == Concat(name => NameNotes(showFor, name), UnitNames) + [Emission(Debug, dump(e.env.systemdUnits))]
  {
    out := [];
    if e.env.openshiftPath == "" || !e.env.hasSystemd {
      return;
    }
    out := RecordUnits(e, showFor, UnitNames);
    out := out + [Emission(Debug, dump(e.env.systemdUnits))];
  }

  /** The loop of discoverSystemd: record each existing unit among `names`. */
  method RecordUnits(e: EnvironmentRef, showFor: string -> CommandResult, names: seq<string>) returns (out: seq<Emission>)
    modifies e
    ensures e.env == old(e.env).(systemdUnits := Discovered(old(e.env).systemdUnits, names, showFor))
    ensures out == Concat(name => NameNotes(showFor, name), names)
  {
    out := [];
    var i := 0;
    while i < |names|
      invariant 0 <= i <= |names|
      invariant e.env == old(e.env).(systemdUnits := Discovered(old(e.env).systemdUnits, names[..i], showFor))
      invariant out == Concat(name => NameNotes(showFor, name), names[..i])
    {
      var name := names[i];
      ConcatStep(name => NameNotes(showFor, name), names, i);
      assert names[..i + 1][..i] == names[..i];
      var unit, notes := DiscoverSystemdUnit(name, showFor(name));
      if unit.unitExists {
        e.env := e.env.(systemdUnits := e.env.systemdUnits[name := unit]);
        assert NameNotes(showFor, name) == notes + [Emission(Debug, SawText(name))];
        out := out + (notes + [Emission(Debug, SawText(name))]);
      } else {
        assert NameNotes(showFor, name) == notes;
        out := out + notes;
      }
      i := i + 1;
    }
    assert names[..i] == names;
  }
}
