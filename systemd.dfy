/**
 * The AnalyzeSystemdLogs diagnostic: for each monitored systemd unit that is
 * enabled or active, scan its journal newest-first back to the unit's most
 * recent start and report every known problem pattern found on the way.
 *
 * Regular expressions are a RegexOracle, the JSON decoding of a journal line
 * is a Decoder, and the output of `journalctl -ru <unit> --output=json` is
 * either the sequence of its lines or None when the command could not start.
 */
module Systemd {
  import opened Wrappers
  import opened Report
  import opened Text
  import opened Types

  /** A suspicious log pattern, what to say about it, and at which level. */
  datatype LogMatcher = LogMatcher(
    regexp: string,
    interpretation: string,                             // used when interpret is None
    interpret: Option<(string, seq<string>) -> string>, // (raw journal line, submatches) -> text
    level: Severity)

  /** The patterns to look for in one unit's journal, checked in order. */
  datatype UnitSpec = UnitSpec(name: string, startMatch: string, logMatchers: seq<LogMatcher>)

  const BadImageTemplate := LogMatcher(
    @"Unable to find an image for .* due to an error processing the format: %!v\\(MISSING\\)",
    "\nThis error indicates openshift was given the flag --images including an invalid format variable.\n"
    + "Valid formats can include (literally) ${component} and ${version}\n"
    + "This could be a typo or you might be intending to hardcode something,\n"
    + "such as a version which should be specified as e.g. v3.0, not ${v3.0}",
    None,
    Info)

  /** The units whose journals are checked, in this order. */
  const UnitLogSpecs: seq<UnitSpec> := [
    UnitSpec(
      "openshift-master",
      "Starting an OpenShift master",
      [ BadImageTemplate,
        LogMatcher("Unable to decode an event",
                   "This is a completely innocuous message; pay it no mind.", None, Info) ]),
    UnitSpec(
      "docker",
      @"msg=""\\+job containers\\(\\)""",
      [ LogMatcher(@"\\slevel=""fatal""\\s",
                   "This is not a known problem, but it is causing Docker to crash, so the OpenShift node will not work on this host until it is resolved.",
                   None, Error) ])
  ]

  /** json.Unmarshal of a journal line into its MESSAGE field; None when the line is not valid JSON. */
  type Decoder = string -> Option<string>

  // ---------------------------------------------------------------------
  // The scan, as a function of the working matcher list and the entries

  /** The working matcher list is a list of positions in unit.logMatchers. */
  predicate ValidActive(unit: UnitSpec, active: seq<nat>) {
    forall k :: 0 <= k < |active| ==> active[k] < |unit.logMatchers|
  }

  function AllIndices(n: nat): (r: seq<nat>)
    ensures |r| == n && forall k :: 0 <= k < n ==> r[k] == k
  {
    seq(n, i => i)
  }

  /** The working list with the matcher at position p taken out; the rest keep their order. */
  function Remove(active: seq<nat>, p: nat): (r: seq<nat>)
    requires p < |active|
    ensures |r| == |active| - 1
    ensures forall k :: 0 <= k < p ==> r[k] == active[k]
    ensures forall k :: p <= k < |r| ==> r[k] == active[k + 1]
  {
    active[..p] + active[p + 1..]
  }

  predicate Hits(re: RegexOracle, m: LogMatcher, msg: string) {
    MatchString(re, m.regexp, msg)
  }

  /** Position, in the working list, of the earliest matcher whose pattern matches msg. */
  function FirstMatch(re: RegexOracle, unit: UnitSpec, active: seq<nat>, msg: string): (r: Option<nat>)
    requires ValidActive(unit, active)
    ensures r.Some? ==> r.value < |active| && Hits(re, unit.logMatchers[active[r.value]], msg)
    ensures forall p :: 0 <= p < |active| && (r.None? || p < r.value) ==> !Hits(re, unit.logMatchers[active[p]], msg)
  {
    if |active| == 0 then None
    else if Hits(re, unit.logMatchers[active[0]], msg) then Some(0)
    else
      match FirstMatch(re, unit, active[1..], msg)
      case None => None
      case Some(p) => Some(p + 1)
  }

  /** What one journal entry led to. */
  datatype Step =
    | Undecodable(line: string)
    | Fired(index: nat, matcher: LogMatcher, line: string, message: string, submatches: seq<string>)

  /** The effect of one entry: the scan stops, or it records some steps and goes on with a working list. */
  datatype Progress = Stop | Continue(steps: seq<Step>, active: seq<nat>)

  /**
   * One entry of the scan with the working list `active`: an undecodable
   * entry is only noted; an entry whose message matches the start pattern
   * stops the scan; otherwise the earliest working matcher that matches
   * fires and leaves the working list.
   */
  function Advance(re: RegexOracle, decode: Decoder, unit: UnitSpec, active: seq<nat>, line: string): (r: Progress)
    requires ValidActive(unit, active)
    ensures r.Continue? ==> ValidActive(unit, r.active) && |r.steps| <= 1
  {
    match decode(line)
    case None => Continue([Undecodable(line)], active)
    case Some(msg) =>
      if MatchString(re, unit.startMatch, msg) then Stop
      else
        match FirstMatch(re, unit, active, msg)
        case None => Continue([], active)
        case Some(p) =>
          var i := active[p];
          var m := unit.logMatchers[i];
          Continue([Fired(i, m, line, msg, re(m.regexp, msg).value.AsSlice())], Remove(active, p))
  }

  /** The scan of the entries, newest first, until one of them stops it. */
  function Scan(re: RegexOracle, decode: Decoder, unit: UnitSpec, active: seq<nat>, entries: seq<string>): (steps: seq<Step>)
    requires ValidActive(unit, active)
    decreases |entries|
  {
    if |entries| == 0 then []
    else
      match Advance(re, decode, unit, active, entries[0])
      case Stop => []
      case Continue(now, next) => now + Scan(re, decode, unit, next, entries[1..])
  }

  function Prelude(unitName: string, msg: string): string {
    "Found  '" + unitName + "' journald log message:\n  " + msg + "\n"
  }

  /** The text a fired matcher logs: the prelude, then Interpret's answer or the fixed interpretation. */
  function Interpretation(unitName: string, m: LogMatcher, line: string, msg: string, submatches: seq<string>): string {
    Prelude(unitName, msg) + (if m.interpret.Some? then m.interpret.value(line, submatches) else m.interpretation)
  }

  function Render(unitName: string, st: Step): Emission {
    match st
    case Undecodable(line) => Emission(Debug, UndecodableText(line))
    case Fired(_, m, line, msg, sub) => Emission(m.level, Interpretation(unitName, m, line, msg, sub))
  }

  function UndecodableText(line: string): string {
    "Couldn't read the JSON for this log message:\n" + line
  }

  function RenderAll(unitName: string, steps: seq<Step>): (out: seq<Emission>)
    ensures |out| == |steps|
    ensures forall k :: 0 <= k < |steps| ==> out[k] == Render(unitName, steps[k])
  {
    if |steps| == 0 then [] else [Render(unitName, steps[0])] + RenderAll(unitName, steps[1..])
  }

  lemma RenderAllAppend(unitName: string, a: seq<Step>, b: seq<Step>)
    ensures RenderAll(unitName, a + b) == RenderAll(unitName, a) + RenderAll(unitName, b)
  {
  }

  function JournalErrorText(unitName: string): string {
    "Diagnostics failed to query journalctl for the '" + unitName + "' unit logs.\n"
    + "This should be very unusual, so please report the reason"
  }

  /** Everything matchLogsSinceLastStart logs for one unit. */
  function ScanOutput(re: RegexOracle, decode: Decoder, unit: UnitSpec, journal: Option<seq<string>>): seq<Emission> {
    match journal
    case None => [Emission(Error, JournalErrorText(unit.name))]
    case Some(lines) => RenderAll(unit.name, Scan(re, decode, unit, AllIndices(|unit.logMatchers|), lines))
  }

  // ---------------------------------------------------------------------
  // The scan loop

  /** The matchers the working list stands for, in working order. */
  function Working(unit: UnitSpec, active: seq<nat>): (ms: seq<LogMatcher>)
    requires ValidActive(unit, active)
    ensures |ms| == |active| && forall k :: 0 <= k < |active| ==> ms[k] == unit.logMatchers[active[k]]
  {
    seq(|active|, k requires 0 <= k < |active| => unit.logMatchers[active[k]])
  }

  /** The working matchers after the fired one is spliced out are those of the working list without it. */
  lemma SpliceWorking(unit: UnitSpec, active: seq<nat>, p: nat, w: seq<LogMatcher>, w': seq<LogMatcher>)
    requires ValidActive(unit, active) && p < |active| && w == Working(unit, active)
    requires |w'| == |w| - 1
    requires forall k :: 0 <= k < p ==> w'[k] == w[k]
    requires forall k :: p <= k < |w'| ==> w'[k] == w[k + 1]
    ensures ValidActive(unit, Remove(active, p))
    ensures w' == Working(unit, Remove(active, p))
  {
  }

  /** The inner search of the scan loop finds what FirstMatch describes. */
  lemma FirstMatchIs(re: RegexOracle, unit: UnitSpec, active: seq<nat>, msg: string, w: seq<LogMatcher>, index: nat)
    requires ValidActive(unit, active) && w == Working(unit, active) && index <= |w|
    requires forall p :: 0 <= p < index ==> !Hits(re, w[p], msg)
    requires index < |w| ==> Hits(re, w[index], msg)
    ensures FirstMatch(re, unit, active, msg) == if index < |active| then Some(index) else None
  {
    forall p | 0 <= p < index
      ensures !Hits(re, unit.logMatchers[active[p]], msg)
    {
      assert w[p] == unit.logMatchers[active[p]];
    }
    if index < |active| {
      assert w[index] == unit.logMatchers[active[index]];
    }
  }

  /** append(a[:index], a[index+1:]...): shift the tail of the live prefix a[..n] left by one. */
  method RemoveAt(a: array<LogMatcher>, index: nat, n: nat)
    requires index < n <= a.Length
    modifies a
    ensures forall k :: 0 <= k < index ==> a[k] == old(a[k])
    ensures forall k :: index <= k < n - 1 ==> a[k] == old(a[k + 1])
    ensures forall k :: n - 1 <= k < a.Length ==> a[k] == old(a[k])
  {
    var j := index;
    while j < n - 1
      invariant index <= j <= n - 1
      invariant forall k :: 0 <= k < index ==> a[k] == old(a[k])
      invariant forall k :: index <= k < j ==> a[k] == old(a[k + 1])
      invariant forall k :: j <= k < a.Length ==> a[k] == old(a[k])
    {
      a[j] := a[j + 1];
      j := j + 1;
    }
  }

  /** The inner loop of the scan: the position of the first matcher whose pattern matches msg, or |ms|. */
  method FirstHit(re: RegexOracle, ms: seq<LogMatcher>, msg: string) returns (index: nat)
    ensures index <= |ms|
    ensures forall p :: 0 <= p < index ==> !Hits(re, ms[p], msg)
    ensures index < |ms| ==> Hits(re, ms[index], msg)
  {
    index := 0;
    while index < |ms| && re(ms[index].regexp, msg).None?
      invariant index <= |ms|
      invariant forall p :: 0 <= p < index ==> !Hits(re, ms[p], msg)
    {
      index := index + 1;
    }
  }

  /**
   * The body of the scan loop for one journal line: the working matchers
   * are a[..n]; a fired matcher is removed from them in place.
   */
  method ScanEntry(re: RegexOracle, decode: Decoder, unit: UnitSpec, ghost active: seq<nat>,
                   a: array<LogMatcher>, n: nat, line: string)
    returns (stop: bool, emitted: seq<Emission>, n': nat, ghost active': seq<nat>)
    requires n <= a.Length && ValidActive(unit, active) && a[..n] == Working(unit, active)
    modifies a
    ensures stop <==> Advance(re, decode, unit, active, line).Stop?
    ensures !stop ==>
      && active' == Advance(re, decode, unit, active, line).active
      && emitted == RenderAll(unit.name, Advance(re, decode, unit, active, line).steps)
      && n' <= a.Length && ValidActive(unit, active') && a[..n'] == Working(unit, active')
  {
    var entry := decode(line);
    if entry.None? {
      return false, [Emission(Debug, UndecodableText(line))], n, active;
    }
    var msg := entry.value;
    if MatchString(re, unit.startMatch, msg) {
      return true, [], n, active; // the unit's most recent start: older entries belong to an earlier run
    }
    var w := a[..n];
    var index := FirstHit(re, w, msg);
    FirstMatchIs(re, unit, active, msg, w, index);
    if index == n {
      return false, [], n, active;
    }
    var found := re(a[index].regexp, msg).value;
    var matcher := a[index];
    var text := Prelude(unit.name, msg)
      + (if matcher.interpret.Some? then matcher.interpret.value(line, found.AsSlice()) else matcher.interpretation);
    emitted := [Emission(matcher.level, text)];
    RemoveAt(a, index, n);
    SpliceWorking(unit, active, index, w, a[..n - 1]);
    stop, n', active' := false, n - 1, Remove(active, index);
  }

  /**
   * matchLogsSinceLastStart: scan a private copy of the unit's matchers
   * against the journal and log what was found.
   */
  method MatchLogsSinceLastStart(re: RegexOracle, decode: Decoder, unit: UnitSpec, journal: Option<seq<string>>)
    returns (out: seq<Emission>)
    ensures out == ScanOutput(re, decode, unit, journal)
  {
    if journal.None? {
      out := [Emission(Error, JournalErrorText(unit.name))];
      return;
    }
    var lines := journal.value;
    var total: nat := |unit.logMatchers|;
    var matchCopy := new LogMatcher[total](i requires 0 <= i < total => unit.logMatchers[i]);
    var n: nat := total;
    ghost var active := AllIndices(total);
    assert matchCopy[..n] == Working(unit, active);
    ghost var goal := RenderAll(unit.name, Scan(re, decode, unit, active, lines));
    out := [];
    var k := 0;
    assert lines[k..] == lines;
    while k < |lines|
      invariant 0 <= k <= |lines|
      invariant n <= matchCopy.Length
      invariant ValidActive(unit, active)
      invariant matchCopy[..n] == Working(unit, active)
      invariant goal == out + RenderAll(unit.name, Scan(re, decode, unit, active, lines[k..]))
    {
      ghost var before := active;
      assert lines[k..][0] == lines[k] && lines[k..][1..] == lines[k + 1..];
      var stop, emitted;
      stop, emitted, n, active := ScanEntry(re, decode, unit, active, matchCopy, n, lines[k]);
      if stop {
        break;
      }
      RenderAllAppend(unit.name, Advance(re, decode, unit, before, lines[k]).steps, Scan(re, decode, unit, active, lines[k + 1..]));
      out := out + emitted;
      k := k + 1;
    }
  }

  // ---------------------------------------------------------------------
  // What the scan promises

  /** The positions of the matchers that fired, in firing order. */
  function FiredIndices(steps: seq<Step>): (r: seq<nat>)
    ensures |r| <= |steps|
  {
    if |steps| == 0 then []
    else (if steps[0].Fired? then [steps[0].index] else []) + FiredIndices(steps[1..])
  }

  lemma {:induction false} FiredIndicesAppend(a: seq<Step>, b: seq<Step>)
    ensures FiredIndices(a + b) == FiredIndices(a) + FiredIndices(b)
    decreases |a|
  {
    if |a| == 0 {
      assert a + b == b;
    } else {
      var head := if a[0].Fired? then [a[0].index] else [];
      assert (a + b)[0] == a[0];
      assert (a + b)[1..] == a[1..] + b;
      FiredIndicesAppend(a[1..], b);
      calc {
        FiredIndices(a + b);
        head + FiredIndices(a[1..] + b);
        head + (FiredIndices(a[1..]) + FiredIndices(b));
        (head + FiredIndices(a[1..])) + FiredIndices(b);
      }
    }
  }

  /** Taking a matcher out of the working list removes exactly that occurrence. */
  lemma RemoveMultiset(active: seq<nat>, p: nat)
    requires p < |active|
    ensures multiset(Remove(active, p)) + multiset{active[p]} == multiset(active)
  {
    assert active == active[..p] + [active[p]] + active[p + 1..];
  }

  /**
   * Only working matchers fire, and each fires at most as often as it occurs
   * in the working list: a matcher that fired has left the list.
   */
  lemma {:induction false} FiredFromWorkingList(re: RegexOracle, decode: Decoder, unit: UnitSpec, active: seq<nat>, entries: seq<string>)
    requires ValidActive(unit, active)
    ensures multiset(FiredIndices(Scan(re, decode, unit, active, entries))) <= multiset(active)
    decreases |entries|
  {
    if |entries| > 0 {
      var line := entries[0];
      match Advance(re, decode, unit, active, line)
      case Stop =>
      case Continue(now, next) =>
        var rest := Scan(re, decode, unit, next, entries[1..]);
        FiredFromWorkingList(re, decode, unit, next, entries[1..]);
        FiredIndicesAppend(now, rest);
        if decode(line).Some? && FirstMatch(re, unit, active, decode(line).value).Some? {
          var p := FirstMatch(re, unit, active, decode(line).value).value;
          RemoveMultiset(active, p);
        }
    }
  }

  lemma {:induction false} AllIndicesOnce(n: nat)
    ensures forall i :: multiset(AllIndices(n))[i] <= 1
  {
    if n > 0 {
      AllIndicesOnce(n - 1);
      assert AllIndices(n) == AllIndices(n - 1) + [n - 1];
      assert n - 1 !in AllIndices(n - 1);
    }
  }

  /**
   * Each matcher of the unit fires at most once per scan, so a scan reports
   * at most as many matches as the unit has matchers.
   */
  lemma EachMatcherFiresAtMostOnce(re: RegexOracle, decode: Decoder, unit: UnitSpec, entries: seq<string>)
    ensures
      var fired := FiredIndices(Scan(re, decode, unit, AllIndices(|unit.logMatchers|), entries));
      && (forall i :: multiset(fired)[i] <= 1)
      && (forall k :: 0 <= k < |fired| ==> fired[k] < |unit.logMatchers|)
      && |fired| <= |unit.logMatchers|
  {
    var all := AllIndices(|unit.logMatchers|);
    var fired := FiredIndices(Scan(re, decode, unit, all, entries));
    FiredFromWorkingList(re, decode, unit, all, entries);
    AllIndicesOnce(|unit.logMatchers|);
    var A, B := multiset(fired), multiset(all);
    assert B == (B - A) + A;
    forall k | 0 <= k < |fired|
      ensures fired[k] < |unit.logMatchers|
    {
      assert fired[k] in A;
    }
  }

  /** The entries before the k-th, which is the decoded start message. */
  lemma {:induction false} ScanStopsAtStart(re: RegexOracle, decode: Decoder, unit: UnitSpec, active: seq<nat>, entries: seq<string>, k: nat)
    requires ValidActive(unit, active) && k < |entries|
    requires decode(entries[k]).Some? && MatchString(re, unit.startMatch, decode(entries[k]).value)
    ensures Scan(re, decode, unit, active, entries) == Scan(re, decode, unit, active, entries[..k])
    decreases k
  {
    if k > 0 {
      assert entries[..k][0] == entries[0];
      match Advance(re, decode, unit, active, entries[0])
      case Stop =>
      case Continue(now, next) =>
        assert entries[..k][1..] == entries[1..][..k - 1];
        ScanStopsAtStart(re, decode, unit, next, entries[1..], k - 1);
    }
  }

  /** The entries that decode. */
  function Decodable(decode: Decoder, entries: seq<string>): (r: seq<string>)
    ensures |r| <= |entries|
  {
    if |entries| == 0 then []
    else (if decode(entries[0]).Some? then [entries[0]] else []) + Decodable(decode, entries[1..])
  }

  /** The steps that are matches. */
  function Matches(steps: seq<Step>): (r: seq<Step>)
    ensures forall k :: 0 <= k < |r| ==> r[k].Fired?
  {
    if |steps| == 0 then []
    else (if steps[0].Fired? then [steps[0]] else []) + Matches(steps[1..])
  }

  lemma {:induction false} MatchesAppend(a: seq<Step>, b: seq<Step>)
    ensures Matches(a + b) == Matches(a) + Matches(b)
    decreases |a|
  {
    if |a| == 0 {
      assert a + b == b;
    } else {
      assert (a + b)[1..] == a[1..] + b;
      MatchesAppend(a[1..], b);
    }
  }

  /**
   * An entry that does not decode changes nothing but a Debug note: the
   * matches of a scan are exactly the scan of the decodable entries alone.
   */
  lemma {:induction false} UndecodableEntriesSkipped(re: RegexOracle, decode: Decoder, unit: UnitSpec, active: seq<nat>, entries: seq<string>)
    requires ValidActive(unit, active)
    ensures Matches(Scan(re, decode, unit, active, entries)) == Scan(re, decode, unit, active, Decodable(decode, entries))
    decreases |entries|
  {
    if |entries| > 0 {
      var line := entries[0];
      var d := Decodable(decode, entries[1..]);
      UndecodableEntriesSkipped(re, decode, unit, active, entries[1..]);
      match Advance(re, decode, unit, active, line)
      case Stop =>
        assert Decodable(decode, entries) == [line] + d;
      case Continue(now, next) =>
        var rest := Scan(re, decode, unit, next, entries[1..]);
        MatchesAppend(now, rest);
        if decode(line).None? {
          assert Decodable(decode, entries) == d;
          assert Matches(now) == [];
        } else {
          UndecodableEntriesSkipped(re, decode, unit, next, entries[1..]);
          assert Decodable(decode, entries) == [line] + d;
          assert ([line] + d)[1..] == d;
          assert Matches(now) == now;
        }
    }
  }

  /** A scan reports at most one step per entry. */
  lemma {:induction false} ScanLength(re: RegexOracle, decode: Decoder, unit: UnitSpec, active: seq<nat>, entries: seq<string>)
    requires ValidActive(unit, active)
    ensures |Scan(re, decode, unit, active, entries)| <= |entries|
    decreases |entries|
  {
    if |entries| > 0 {
      match Advance(re, decode, unit, active, entries[0])
      case Stop =>
      case Continue(now, next) =>
        ScanLength(re, decode, unit, next, entries[1..]);
    }
  }

  /**
   * What a match records: the earliest working matcher whose pattern
   * matches the decoded message fires, with its submatches, and leaves the
   * working list; no matcher fires on the start message.
   */
  lemma AdvanceFires(re: RegexOracle, decode: Decoder, unit: UnitSpec, active: seq<nat>, line: string, p: nat)
    requires ValidActive(unit, active) && p < |active|
    requires decode(line).Some? && !MatchString(re, unit.startMatch, decode(line).value)
    requires Hits(re, unit.logMatchers[active[p]], decode(line).value)
    requires forall q :: 0 <= q < p ==> !Hits(re, unit.logMatchers[active[q]], decode(line).value)
    ensures
      var msg := decode(line).value;
      var m := unit.logMatchers[active[p]];
      Advance(re, decode, unit, active, line)
      == Continue([Fired(active[p], m, line, msg, re(m.regexp, msg).value.AsSlice())], Remove(active, p))
  {
  }

  // ---------------------------------------------------------------------
  // The AnalyzeSystemdLogs diagnostic

  const NoSystemdReason := "systemd is not present on this host"
  const NoOpenshiftReason := "`openshift` binary not in the path on this host; for now, we assume host is not a server"

  /** Condition: skip without systemd, then without an openshift binary. */
  function Condition(env: Environment): (v: Verdict)
    ensures v.skip <==> !env.hasSystemd || env.openshiftPath == ""
    ensures v.skip <==> v.reason != ""
    ensures !env.hasSystemd ==> v.reason == NoSystemdReason
    ensures env.hasSystemd && env.openshiftPath == "" ==> v.reason == NoOpenshiftReason
  {
    if !env.hasSystemd then Verdict(true, NoSystemdReason)
    else if env.openshiftPath == "" then Verdict(true, NoOpenshiftReason)
    else Verdict(false, "")
  }

  function CheckingText(unitName: string): string {
    "Checking journalctl logs for '" + unitName + "' unit"
  }

  /** The journal of a unit as `journalctl -ru <name> --output=json` streams it, or None when it cannot start. */
  type Journal = string -> Option<seq<string>>

  /** What Run logs for one unit: nothing unless the unit is enabled or active. */
  function UnitOutput(re: RegexOracle, decode: Decoder, journal: Journal, env: Environment, unit: UnitSpec): (out: seq<Emission>)
    ensures |out| > 0 <==> env.Unit(unit.name).enabled || env.Unit(unit.name).active
    ensures |out| > 0 ==>
      out[0] == Emission(Info, CheckingText(unit.name)) && out[1..] == ScanOutput(re, decode, unit, journal(unit.name))
  {
    var svc := env.Unit(unit.name);
    if svc.enabled || svc.active then
      [Emission(Info, CheckingText(unit.name))] + ScanOutput(re, decode, unit, journal(unit.name))
    else []
  }

  /** A unit without a record is neither enabled nor active, so its journal is not read. */
  lemma UnrecordedUnitSkipped(re: RegexOracle, decode: Decoder, journal: Journal, env: Environment, unit: UnitSpec)
    requires unit.name !in env.systemdUnits
    ensures UnitOutput(re, decode, journal, env, unit) == []
  {
  }

  /** What Run logs for the units, in their order. */
  function RunOutput(re: RegexOracle, decode: Decoder, journal: Journal, env: Environment, units: seq<UnitSpec>): seq<Emission> {
    Concat(u => UnitOutput(re, decode, journal, env, u), units)
  }

  /** Run checks a unit exactly when its recorded state is enabled or active. */
  predicate Checked(env: Environment, u: UnitSpec) {
    env.Unit(u.name).enabled || env.Unit(u.name).active
  }

  /** The units Run scans: those enabled or active, in their order. */
  function Gated(env: Environment, units: seq<UnitSpec>): (r: seq<UnitSpec>)
    ensures forall k :: 0 <= k < |r| ==> Checked(env, r[k])
  {
    Filter(u => Checked(env, u), units)
  }

  /** Every unit that passes the gate is kept, none other is, and unitLogSpecs order is kept. */
  lemma GatedKeepsOrder(env: Environment, units: seq<UnitSpec>) returns (idx: seq<nat>)
    ensures Picks(Gated(env, units), units, idx)
    ensures forall k :: 0 <= k < |units| ==> (k in idx <==> Checked(env, units[k]))
  {
    idx := FilterPicks(u => Checked(env, u), units);
  }

  /** Run's output is the concatenation of the scans of exactly the gated units, in order. */
  lemma {:induction false} RunOutputIsGatedScans(re: RegexOracle, decode: Decoder, journal: Journal, env: Environment, units: seq<UnitSpec>)
    ensures RunOutput(re, decode, journal, env, units) == RunOutput(re, decode, journal, env, Gated(env, units))
    decreases |units|
  {
    if |units| > 0 {
      var init, u := units[..|units| - 1], units[|units| - 1];
      RunOutputIsGatedScans(re, decode, journal, env, init);
      var g := Gated(env, init);
      if Checked(env, u) {
        assert Gated(env, units) == g + [u];
        ConcatStep(u => UnitOutput(re, decode, journal, env, u), g + [u], |g|);
        assert (g + [u])[..|g|] == g;
      } else {
        assert Gated(env, units) == g;
      }
    }
  }

  /** Run: check each unit of UnitLogSpecs in order. */
  method Run(re: RegexOracle, decode: Decoder, journal: Journal, env: Environment) returns (out: seq<Emission>)
    ensures out == RunOutput(re, decode, journal, env, UnitLogSpecs)
  {
    out := RunUnits(re, decode, journal, env, UnitLogSpecs);
  }

  /** The loop of Run over a list of units. */
  method RunUnits(re: RegexOracle, decode: Decoder, journal: Journal, env: Environment, units: seq<UnitSpec>)
    returns (out: seq<Emission>)
    ensures out == RunOutput(re, decode, journal, env, units)
  {
    out := [];
    var i := 0;
    while i < |units|
      invariant 0 <= i <= |units|
      invariant out == RunOutput(re, decode, journal, env, units[..i])
    {
      var unit := units[i];
      ConcatStep(u => UnitOutput(re, decode, journal, env, u), units, i);
      var svc := env.Unit(unit.name);
      if svc.enabled || svc.active {
        var scanned := MatchLogsSinceLastStart(re, decode, unit, journal(unit.name));
        assert UnitOutput(re, decode, journal, env, unit) == [Emission(Info, CheckingText(unit.name))] + scanned;
        out := out + ([Emission(Info, CheckingText(unit.name))] + scanned);
      }
      i := i + 1;
    }
    assert units[..i] == units;
  }

  /** The registry entry of this file. */
  function Diagnostics(re: RegexOracle, decode: Decoder, journal: Journal): (d: map<string, Diagnostic>)
    ensures d.Keys == {"AnalyzeSystemdLogs"}
    ensures d["AnalyzeSystemdLogs"].condition.Some?
  {
    map["AnalyzeSystemdLogs" := Diagnostic(
      "Check journald for known problems in relevant systemd unit logs",
      Some((env: Environment) => Returned(Condition(env), [])),
      (env: Environment) => Returned((), RunOutput(re, decode, journal, env, UnitLogSpecs)))]
  }
}
