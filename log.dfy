/**
 * The leveled log of the log package: four numbered levels and a
 * process-wide threshold; a message is printed exactly when its level is at
 * most the threshold.
 */
module Log {
  import opened Report
  /** A log level; lower numbers are more severe. */
  type Level = int

  const ErrorLevel: Level := 0
  const WarnLevel: Level := 1
  const InfoLevel: Level := 2
  const DebugLevel: Level := 3

  /** The lines one call of `log` prints at threshold `threshold`: the message, or nothing. */
  function Printed(threshold: Level, l: Level, msg: string): (r: seq<string>)
    ensures l <= threshold ==> r == [msg]
    ensures threshold < l ==> r == []
  {
    if l <= threshold then [msg] else []
  }

  /** The package state: the threshold `logLevel` and what has been printed, line by line. */
  class Logger {
    var logLevel: Level
    var stdout: seq<string>

    /** The package as initialised: threshold Info, nothing printed. */
    constructor ()
      ensures logLevel == InfoLevel && stdout == []
    {
      logLevel := InfoLevel;
      stdout := [];
    }

    method SetLevel(l: Level)
      modifies this
      ensures logLevel == l && stdout == old(stdout)
    {
      logLevel := l;
    }

    method Log(l: Level, msg: string)
      modifies this
      ensures logLevel == old(logLevel)
      ensures stdout == old(stdout) + Printed(old(logLevel), l, msg)
    {
      if l <= logLevel {
        stdout := stdout + [msg];
      }
    }

    method Error(msg: string)
      modifies this
      ensures logLevel == old(logLevel) && stdout == old(stdout) + Printed(old(logLevel), ErrorLevel, msg)
    {
      Log(ErrorLevel, msg);
    }

    method Warn(msg: string)
      modifies this
      ensures logLevel == old(logLevel) && stdout == old(stdout) + Printed(old(logLevel), WarnLevel, msg)
    {
      Log(WarnLevel, msg);
    }

    method Info(msg: string)
      modifies this
      ensures logLevel == old(logLevel) && stdout == old(stdout) + Printed(old(logLevel), InfoLevel, msg)
    {
      Log(InfoLevel, msg);
    }

    method Debug(msg: string)
      modifies this
      ensures logLevel == old(logLevel) && stdout == old(stdout) + Printed(old(logLevel), DebugLevel, msg)
    {
      Log(DebugLevel, msg);
    }
  }

  /** One call of `log`: its level and its message. */
  datatype Call = Call(level: Level, msg: string)

  /** What a run of calls prints at a fixed threshold, call after call. */
  function Transcript(threshold: Level, calls: seq<Call>): seq<string> {
    if |calls| == 0 then []
    else
      var c := calls[|calls| - 1];
      Transcript(threshold, calls[..|calls| - 1]) + Printed(threshold, c.level, c.msg)
  }

  function Messages(calls: seq<Call>): (ms: seq<string>)
    ensures |ms| == |calls| && forall k :: 0 <= k < |calls| ==> ms[k] == calls[k].msg
  {
    seq(|calls|, k requires 0 <= k < |calls| => calls[k].msg)
  }

  /** The transcript is the messages of the calls whose level is at most the threshold. */
  lemma {:induction false} TranscriptIsFiltered(threshold: Level, calls: seq<Call>)
    ensures Transcript(threshold, calls) == Messages(Filter((c: Call) => c.level <= threshold, calls))
    decreases |calls|
  {
    if |calls| > 0 {
      var init, c := calls[..|calls| - 1], calls[|calls| - 1];
      TranscriptIsFiltered(threshold, init);
      var kept := Filter((c: Call) => c.level <= threshold, init);
      if c.level <= threshold {
        assert Messages(kept + [c]) == Messages(kept) + [c.msg];
      }
    }
  }

  /**
   * A run of calls prints exactly the messages of the calls at or below the
   * threshold, in the order they were made: `idx` are those calls' positions.
   */
  lemma TranscriptPicks(threshold: Level, calls: seq<Call>) returns (idx: seq<nat>)
    ensures Picks(Transcript(threshold, calls), Messages(calls), idx)
    ensures forall k :: 0 <= k < |calls| ==> (k in idx <==> calls[k].level <= threshold)
  {
    var kept := Filter((c: Call) => c.level <= threshold, calls);
    idx := FilterPicks((c: Call) => c.level <= threshold, calls);
    TranscriptIsFiltered(threshold, calls);
    assert forall i :: 0 <= i < |idx| ==> Messages(calls)[idx[i]] == Messages(kept)[i];
  }

  /** Setting the threshold and then making the calls prints their transcript. */
  method Session(threshold: Level, calls: seq<Call>) returns (lines: seq<string>)
    ensures lines == Transcript(threshold, calls)
  {
    var log := new Logger();
    log.SetLevel(threshold);
    var i := 0;
    while i < |calls|
      invariant 0 <= i <= |calls|
      invariant log.logLevel == threshold && log.stdout == Transcript(threshold, calls[..i])
    {
      log.Log(calls[i].level, calls[i].msg);
      assert calls[..i + 1][..i] == calls[..i];
      i := i + 1;
    }
    assert calls[..i] == calls;
    lines := log.stdout;
  }
}
