/**
 * The diagnostics command: pick the diagnostics named on the command line
 * ("area.name" tokens) out of the registry, or all of them, and run each one
 * so that a skip is announced, a run is announced, and a crash is reported
 * without stopping the rest.
 */
module Cmd {
  import opened Wrappers
  import opened Report
  import opened Text
  import opened Types

  /** The registry: area -> name -> diagnostic. */
  type Table = map<string, map<string, Diagnostic>>

  /** allDiags: the two areas of the registry. */
  function AllDiags(client: map<string, Diagnostic>, systemd: map<string, Diagnostic>): (t: Table)
    ensures t.Keys == {"client", "systemd"}
  {
    map["client" := client, "systemd" := systemd]
  }

  function NoSuchDiagText(arg: string): string {
    "There is no such diagnostic \"" + arg + "\""
  }

  function SkipText(area: string, name: string, description: string, reason: string): string {
    "Skipping diagnostic: " + area + "." + name + "\nDescription: " + description
    + (if reason == "" then "" else "\nBecause: " + reason)
  }

  function RunningText(area: string, name: string, description: string): string {
    "Running diagnostic: " + area + "." + name + "\nDescription: " + description
  }

  function PanicText(name: string, payload: string): string {
    "Diagnostic '" + name + "' crashed; this is usually a bug in either diagnostics or OpenShift. Stack trace:\n" + payload
  }

  // ---------------------------------------------------------------------
  // RunDiagnostic

  /** What running the diagnostic logs once the Condition let it through: the announcement, then the Run. */
  function RunPhase(area: string, name: string, description: string, run: Outcome<()>): seq<Emission> {
    var announce := [Emission(Notice, RunningText(area, name, description))];
    match run
    case Returned(_, o) => announce + o
    case Panicked(o, payload) => announce + o + [Emission(Error, PanicText(name, payload))]
  }

  /** What RunDiagnostic logs, given how the Condition (if any) and the Run would end. */
  function Course(area: string, name: string, description: string, condition: Option<Outcome<Verdict>>, run: Outcome<()>)
    : seq<Emission>
  {
    match condition
    case None => RunPhase(area, name, description, run)
    case Some(Panicked(o, payload)) => o + [Emission(Error, PanicText(name, payload))]
    case Some(Returned(v, o)) =>
      if v.skip then o + [Emission(Notice, SkipText(area, name, description, v.reason))]
      else o + RunPhase(area, name, description, run)
  }

  /** Everything RunDiagnostic logs for one diagnostic. */
  function DiagnosticOutput(area: string, name: string, diag: Diagnostic, env: Environment): seq<Emission> {
    var condition := if diag.condition.Some? then Some(diag.condition.value(env)) else None;
    Course(area, name, diag.description, condition, diag.run(env))
  }

  /**
   * RunDiagnostic: consult the Condition, announce the skip or the run, and
   * recover from a panic of either by logging one Error.
   */
  method RunDiagnostic(area: string, name: string, diag: Diagnostic, env: Environment) returns (out: seq<Emission>)
    ensures out == DiagnosticOutput(area, name, diag, env)
  {
    out := [];
    if diag.condition.Some? {
      var c := diag.condition.value(env);
      out := out + c.out;
      if c.Panicked? {
        out := out + [Emission(Error, PanicText(name, c.payload))]; // the deferred recover
        return;
      }
      var skip, reason := c.value.skip, c.value.reason;
      if skip {
        if reason == "" {
          out := out + [Emission(Notice, SkipText(area, name, diag.description, ""))];
        } else {
          out := out + [Emission(Notice, SkipText(area, name, diag.description, reason))];
        }
        return;
      }
    }
    var announced := Announce(area, name, diag, env);
    out := out + announced;
  }

  /** The part of RunDiagnostic after the Condition: announce the run, run, recover. */
  method Announce(area: string, name: string, diag: Diagnostic, env: Environment) returns (out: seq<Emission>)
    ensures out == RunPhase(area, name, diag.description, diag.run(env))
  {
    out := [Emission(Notice, RunningText(area, name, diag.description))];
    var r := diag.run(env);
    out := out + r.out;
    if r.Panicked? {
      out := out + [Emission(Error, PanicText(name, r.payload))]; // the deferred recover
    }
  }

  /**
   * A skipped diagnostic is never run: what is logged does not depend on
   * the Run, and it is the Condition's output and one Notice.
   */
  lemma SkipNeverRuns(area: string, name: string, description: string, c: Outcome<Verdict>, run: Outcome<()>, other: Outcome<()>)
    requires c.Returned? && c.value.skip
    ensures Course(area, name, description, Some(c), other) == Course(area, name, description, Some(c), run)
    ensures
      var out := Course(area, name, description, Some(c), run);
      && CountAt(out, Notice) == CountAt(c.out, Notice) + 1
      && out[|out| - 1] == Emission(Notice, SkipText(area, name, description, c.value.reason))
  {
    CountAtAppend(c.out, [Emission(Notice, SkipText(area, name, description, c.value.reason))], Notice);
  }

  /**
   * A diagnostic that is not skipped is announced by exactly one Notice
   * right after what its Condition logged, and a panic of its Run adds
   * exactly one Error to what the Condition and the Run logged.
   */
  lemma RunAnnouncedOnce(area: string, name: string, description: string, condition: Option<Outcome<Verdict>>, run: Outcome<()>)
    requires condition.None? || (condition.value.Returned? && !condition.value.value.skip)
    ensures
      var before := if condition.Some? then condition.value.out else [];
      var out := Course(area, name, description, condition, run);
      && out[..|before| + 1] == before + [Emission(Notice, RunningText(area, name, description))]
      && CountAt(out, Error) == CountAt(before, Error) + CountAt(run.out, Error) + (if run.Panicked? then 1 else 0)
  {
    var before := if condition.Some? then condition.value.out else [];
    var phase := RunPhase(area, name, description, run);
    CourseOfRun(area, name, description, condition, run);
    RunPhaseCounts(area, name, description, run);
    CountAtAppend(before, phase, Error);
    PrefixOfAppend(before, phase, 1);
  }

  lemma CourseOfRun(area: string, name: string, description: string, condition: Option<Outcome<Verdict>>, run: Outcome<()>)
    requires condition.None? || (condition.value.Returned? && !condition.value.value.skip)
    ensures Course(area, name, description, condition, run)
            == (if condition.Some? then condition.value.out else []) + RunPhase(area, name, description, run)
  {
    if condition.None? {
      assert [] + RunPhase(area, name, description, run) == RunPhase(area, name, description, run);
    }
  }

  lemma RunPhaseCounts(area: string, name: string, description: string, run: Outcome<()>)
    ensures
      var phase := RunPhase(area, name, description, run);
      && phase[..1] == [Emission(Notice, RunningText(area, name, description))]
      && CountAt(phase, Error) == CountAt(run.out, Error) + (if run.Panicked? then 1 else 0)
  {
    var announce := [Emission(Notice, RunningText(area, name, description))];
    var tail := if run.Panicked? then [Emission(Error, PanicText(name, run.payload))] else [];
    assert RunPhase(area, name, description, run) == announce + run.out + tail;
    CountAtAppend(announce + run.out, tail, Error);
    CountAtAppend(announce, run.out, Error);
  }

  /** A panic in the Condition is reported by one Error naming the diagnostic, and nothing is announced or run. */
  lemma ConditionPanicReported(area: string, name: string, description: string, c: Outcome<Verdict>, run: Outcome<()>)
    requires c.Panicked?
    ensures
      var out := Course(area, name, description, Some(c), run);
      && out[|out| - 1] == Emission(Error, PanicText(name, c.payload))
      && CountAt(out, Error) == CountAt(c.out, Error) + 1
      && CountAt(out, Notice) == CountAt(c.out, Notice)
  {
    CountAtAppend(c.out, [Emission(Error, PanicText(name, c.payload))], Error);
    CountAtAppend(c.out, [Emission(Error, PanicText(name, c.payload))], Notice);
  }

  /** The skip message tells the reason: different reasons, an absent one included, give different messages. */
  lemma SkipTextInjective(area: string, name: string, description: string, r1: string, r2: string)
    requires SkipText(area, name, description, r1) == SkipText(area, name, description, r2)
    ensures r1 == r2
  {
    var base := SkipText(area, name, description, "");
    var t1, t2 := SkipText(area, name, description, r1), SkipText(area, name, description, r2);
    if r1 != "" && r2 != "" {
      assert t1[|base| + 10..] == r1;
      assert t2[|base| + 10..] == r2;
    }
  }

  // ---------------------------------------------------------------------
  // Diagnose

  /** The diagnostic a token "area.name" names: split at the first "."; the name may hold more dots. */
  function Resolve(table: Table, arg: string): (r: Option<(string, string)>)
    ensures r.Some? ==> arg == r.value.0 + "." + r.value.1 && '.' !in r.value.0
    ensures r.Some? ==> r.value.0 in table && r.value.1 in table[r.value.0]
    ensures '.' !in arg ==> r.None?
  {
    match SplitFirst(arg, '.')
    case None => None
    case Some((area, name)) =>
      if area in table && name in table[area] then Some((area, name)) else None
  }

  /** A token made of a known area, a dot and a name is resolved exactly when the area holds that name. */
  lemma ResolveToken(table: Table, area: string, name: string)
    requires '.' !in area
    ensures Resolve(table, area + "." + name)
            == if area in table && name in table[area] then Some((area, name)) else None
  {
    SplitFirstJoin(area, name, '.');
  }

  /** What one token of the list leads to. */
  function TokenOutput(table: Table, env: Environment, arg: string): seq<Emission> {
    match Resolve(table, arg)
    case None => [Emission(Notice, NoSuchDiagText(arg))]
    case Some((area, name)) => DiagnosticOutput(area, name, table[area][name], env)
  }

  /** The tokens of the list, in order. */
  function SelectedOutput(table: Table, env: Environment, args: seq<string>): seq<Emission> {
    Concat(arg => TokenOutput(table, env, arg), args)
  }

  /** A token that names nothing yields one Notice and the list goes on. */
  lemma UnknownTokenNotice(table: Table, env: Environment, before: seq<string>, arg: string, after: seq<string>)
    requires Resolve(table, arg).None?
    ensures SelectedOutput(table, env, before + [arg] + after)
            == SelectedOutput(table, env, before) + [Emission(Notice, NoSuchDiagText(arg))] + SelectedOutput(table, env, after)
  {
    var f := a => TokenOutput(table, env, a);
    ConcatAppend(f, before + [arg], after);
    ConcatAppend(f, before, [arg]);
    assert [arg][..0] == [];
  }

  /**
   * One diagnostic's failure never aborts the batch: whatever a token leads
   * to (a Notice, a skip, a run, a panic), the tokens after it are processed
   * exactly as they would be on their own.
   */
  lemma TokensIsolated(table: Table, env: Environment, before: seq<string>, arg: string, after: seq<string>)
    ensures SelectedOutput(table, env, before + [arg] + after)
            == SelectedOutput(table, env, before) + TokenOutput(table, env, arg) + SelectedOutput(table, env, after)
  {
    var f := a => TokenOutput(table, env, a);
    ConcatAppend(f, before + [arg], after);
    ConcatAppend(f, before, [arg]);
    assert [arg][..0] == [];
  }

  /** A diagnostic whose Run panics is reported by one Error, and the next token still runs its diagnostic. */
  lemma PanicThenNextRuns(table: Table, env: Environment, a1: string, n1: string, a2: string, n2: string)
    requires '.' !in a1 && a1 in table && n1 in table[a1] && table[a1][n1].condition.None?
    requires table[a1][n1].run(env).Panicked?
    requires '.' !in a2 && a2 in table && n2 in table[a2]
    ensures
      var first := DiagnosticOutput(a1, n1, table[a1][n1], env);
      && SelectedOutput(table, env, [a1 + "." + n1, a2 + "." + n2])
         == first + DiagnosticOutput(a2, n2, table[a2][n2], env)
      && first[|first| - 1] == Emission(Error, PanicText(n1, table[a1][n1].run(env).payload))
  {
    ResolveToken(table, a1, n1);
    ResolveToken(table, a2, n2);
    TwoTokens(table, env, a1 + "." + n1, a2 + "." + n2);
    PanicEndsOutput(a1, n1, table[a1][n1], env);
  }

  lemma PanicEndsOutput(area: string, name: string, diag: Diagnostic, env: Environment)
    requires diag.condition.None? && diag.run(env).Panicked?
    ensures
      var out := DiagnosticOutput(area, name, diag, env);
      |out| > 0 && out[|out| - 1] == Emission(Error, PanicText(name, diag.run(env).payload))
  {
    var r := diag.run(env);
    var e := Emission(Error, PanicText(name, r.payload));
    var front := [Emission(Notice, RunningText(area, name, diag.description))] + r.out;
    assert DiagnosticOutput(area, name, diag, env) == front + [e];
  }

  /** A list of two tokens yields the first token's output, then the second's. */
  lemma TwoTokens(table: Table, env: Environment, t1: string, t2: string)
    ensures SelectedOutput(table, env, [t1, t2]) == TokenOutput(table, env, t1) + TokenOutput(table, env, t2)
  {
    ConcatPair(arg => TokenOutput(table, env, arg), t1, t2);
  }

  /** The diagnostics of one area, in the order `names` visits them. */
  function AreaOutput(area: string, diags: map<string, Diagnostic>, env: Environment, names: seq<string>): seq<Emission>
    requires forall k :: 0 <= k < |names| ==> names[k] in diags
  {
    if |names| == 0 then []
    else AreaOutput(area, diags, env, names[..|names| - 1])
         + DiagnosticOutput(area, names[|names| - 1], diags[names[|names| - 1]], env)
  }

  /** Every diagnostic of every area, areas in the order `areas`, names in the order `names[area]`. */
  function AllOutput(table: Table, env: Environment, areas: seq<string>, names: map<string, seq<string>>): seq<Emission>
    requires forall k :: 0 <= k < |areas| ==> areas[k] in table && areas[k] in names
    requires forall a :: a in table && a in names ==> forall k :: 0 <= k < |names[a]| ==> names[a][k] in table[a]
  {
    if |areas| == 0 then []
    else
      var a := areas[|areas| - 1];
      AllOutput(table, env, areas[..|areas| - 1], names) + AreaOutput(a, table[a], env, names[a])
  }

  /**
   * Diagnose: run the diagnostics the list names, in list order, or every
   * registered diagnostic once when the list is empty. Go visits the maps
   * in an unspecified order; `areas` and `names` are the order it took.
   */
  method Diagnose(env: Environment, client: map<string, Diagnostic>, systemd: map<string, Diagnostic>,
                  areas: seq<string>, names: map<string, seq<string>>)
    returns (out: seq<Emission>)
    requires Enumerates(areas, {"client", "systemd"})
    requires "client" in names && Enumerates(names["client"], client.Keys)
    requires "systemd" in names && Enumerates(names["systemd"], systemd.Keys)
    ensures |env.flags.diagnostics| > 0 ==> out == SelectedOutput(AllDiags(client, systemd), env, env.flags.diagnostics)
    ensures |env.flags.diagnostics| == 0 ==> out == AllOutput(AllDiags(client, systemd), env, areas, names)
  {
    var allDiags := AllDiags(client, systemd);
    var list := env.flags.diagnostics;
    if |list| > 0 {
      out := RunSelected(allDiags, env, list);
    } else {
      out := RunAll(allDiags, env, areas, names);
    }
  }

  /** The list branch of Diagnose: each token in turn, a Notice for one that names nothing. */
  method RunSelected(allDiags: Table, env: Environment, list: seq<string>) returns (out: seq<Emission>)
    ensures out == SelectedOutput(allDiags, env, list)
  {
    out := [];
    var i := 0;
    while i < |list|
      invariant 0 <= i <= |list|
      invariant out == SelectedOutput(allDiags, env, list[..i])
    {
      var arg := list[i];
      ConcatStep(a => TokenOutput(allDiags, env, a), list, i);
      var parts := SplitFirst(arg, '.');
      if parts.None? {
        out := out + [Emission(Notice, NoSuchDiagText(arg))];
        i := i + 1;
        continue;
      }
      var (area, name) := parts.value;
      if area !in allDiags {
        out := out + [Emission(Notice, NoSuchDiagText(arg))];
      } else if name !in allDiags[area] {
        out := out + [Emission(Notice, NoSuchDiagText(arg))];
      } else {
        var o := RunDiagnostic(area, name, allDiags[area][name], env);
        out := out + o;
      }
      i := i + 1;
    }
    assert list[..i] == list;
  }

  /** The empty-list branch of Diagnose: every area, and in it every diagnostic. */
  method RunAll(allDiags: Table, env: Environment, areas: seq<string>, names: map<string, seq<string>>)
    returns (out: seq<Emission>)
    requires forall k :: 0 <= k < |areas| ==> areas[k] in allDiags && areas[k] in names
    requires forall a :: a in allDiags && a in names ==> forall k :: 0 <= k < |names[a]| ==> names[a][k] in allDiags[a]
    ensures out == AllOutput(allDiags, env, areas, names)
  {
    out := [];
    var i := 0;
    while i < |areas|
      invariant 0 <= i <= |areas|
      invariant out == AllOutput(allDiags, env, areas[..i], names)
    {
      var area := areas[i];
      var o := RunArea(area, allDiags[area], env, names[area]);
      out := out + o;
      assert areas[..i + 1][..i] == areas[..i];
      i := i + 1;
    }
    assert areas[..i] == areas;
  }

  method RunArea(area: string, diagnostics: map<string, Diagnostic>, env: Environment, order: seq<string>)
    returns (out: seq<Emission>)
    requires forall k :: 0 <= k < |order| ==> order[k] in diagnostics
    ensures out == AreaOutput(area, diagnostics, env, order)
  {
    out := [];
    var j := 0;
    while j < |order|
      invariant 0 <= j <= |order|
      invariant out == AreaOutput(area, diagnostics, env, order[..j])
    {
      var name := order[j];
      var o := RunDiagnostic(area, name, diagnostics[name], env);
      assert order[..j + 1][..j] == order[..j];
      out := out + o;
      j := j + 1;
    }
    assert order[..j] == order;
  }
}
