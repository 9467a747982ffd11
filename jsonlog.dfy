/**
 * The JSON logger: each message is written as one JSON object, and the
 * objects together form one JSON array. "[" opens the array before the first
 * object, "," precedes every later one, and Finish closes the array, or
 * prints an empty array when nothing was written.
 */
module JsonLog {
  /** The object each message is written as: its text and the name of its level. */
  datatype JsonMessage = JsonMessage(message: string, level: string)

  /** json.MarshalIndent of a message, which is not modelled. */
  type Marshal = JsonMessage -> string

  /** What the writes of the objects print: "[" and a newline before the first, "," and a newline before each later one. */
  function Opening(objs: seq<string>): (r: string)
    ensures |objs| > 0 ==> |r| > 0 && r[0] == '['
  {
    if |objs| == 0 then ""
    else Opening(objs[..|objs| - 1]) + (if |objs| == 1 then "[\n" else ",\n") + objs[|objs| - 1]
  }

  /** One more object: its separator, then the object. */
  lemma OpeningSnoc(objs: seq<string>, o: string)
    ensures Opening(objs + [o]) == Opening(objs) + (if |objs| == 0 then "[\n" else ",\n") + o
  {
    assert (objs + [o])[..|objs|] == objs;
  }

  /** The objects one after the other, with `sep` between neighbours. */
  function Interleave(objs: seq<string>, sep: string): string {
    if |objs| == 0 then ""
    else if |objs| == 1 then objs[0]
    else objs[0] + sep + Interleave(objs[1..], sep)
  }

  lemma {:induction false} InterleaveSnoc(objs: seq<string>, o: string, sep: string)
    requires |objs| > 0
    ensures Interleave(objs + [o], sep) == Interleave(objs, sep) + sep + o
    decreases |objs|
  {
    if |objs| > 1 {
      InterleaveSnoc(objs[1..], o, sep);
      assert (objs + [o])[1..] == objs[1..] + [o];
    } else {
      assert (objs + [o])[1..] == [o];
    }
  }

  /** The writes print an array opening, then the objects separated by commas. */
  lemma {:induction false} OpeningFrames(objs: seq<string>)
    requires |objs| > 0
    ensures Opening(objs) == "[\n" + Interleave(objs, ",\n")
    decreases |objs|
  {
    if |objs| > 1 {
      var init := objs[..|objs| - 1];
      OpeningFrames(init);
      InterleaveSnoc(init, objs[|objs| - 1], ",\n");
      assert init + [objs[|objs| - 1]] == objs;
    }
  }

  class JsonLogger {
    var logStarted: bool
    var logFinished: bool
    var jsonMessage: JsonMessage
    var stdout: string
    const marshal: Marshal
    /** The objects written so far. */
    ghost var written: seq<string>

    /** Started exactly when something was written; until Finish, the output is the opening of the array. */
    ghost predicate Valid()
      reads this
    {
      && (logStarted <==> |written| > 0)
      && (!logFinished ==> stdout == Opening(written))
    }

    constructor (marshal: Marshal)
      ensures Valid() && written == [] && stdout == ""
      ensures !logStarted && !logFinished && this.marshal == marshal
    {
      logStarted, logFinished := false, false;
      jsonMessage := JsonMessage("", "");
      stdout := "";
      this.marshal := marshal;
      written := [];
    }

    /** Write: print "[" before the first object and "," before each later one, then the object. */
    method Write(level: string, msg: string)
      requires Valid()
      modifies this
      ensures Valid()
      ensures logStarted && logFinished == old(logFinished)
      ensures jsonMessage == JsonMessage(msg, level)
      ensures written == old(written) + [marshal(JsonMessage(msg, level))]
      ensures stdout == old(stdout) + (if old(logStarted) then ",\n" else "[\n") + marshal(JsonMessage(msg, level))
    {
      var sep := if logStarted then ",\n" else "[\n";
      stdout := stdout + sep;
      logStarted := true;
      jsonMessage := jsonMessage.(message := msg);
      jsonMessage := jsonMessage.(level := level);
      var b := marshal(jsonMessage);
      stdout := stdout + b;
      OpeningSnoc(written, b);
      written := written + [b];
    }

    /**
     * Finish: close the array after at least one object, print an empty
     * array when nothing was written, and print nothing a second time.
     */
    method Finish()
      requires Valid()
      modifies this
      ensures logFinished && logStarted == old(logStarted) && written == old(written)
      ensures stdout == old(stdout) + (if old(logStarted) then "\n]\n" else if !old(logFinished) then "[]\n" else "")
      ensures !old(logFinished) && |written| > 0 ==> stdout == "[\n" + Interleave(written, ",\n") + "\n]\n"
      ensures !old(logFinished) && |written| == 0 ==> stdout == "[]\n"
    {
      if logStarted {
        stdout := stdout + "\n]\n";
        OpeningFrames(written);
      } else if !logFinished {
        stdout := stdout + "[]\n";
      }
      logFinished := true;
    }
  }

  /** Two writes and a Finish print a two-element array. */
  method TwoWrites(marshal: Marshal, a: string, b: string) returns (out: string)
    ensures out == "[\n" + marshal(JsonMessage(a, "info")) + ",\n" + marshal(JsonMessage(b, "warn")) + "\n]\n"
  {
    var j := new JsonLogger(marshal);
    j.Write("info", a);
    j.Write("warn", b);
    j.Finish();
    out := j.stdout;
    var w := j.written;
    assert w == [marshal(JsonMessage(a, "info")), marshal(JsonMessage(b, "warn"))];
    assert Interleave(w, ",\n") == w[0] + ",\n" + Interleave(w[1..], ",\n");
  }

  /** Without writes, Finish prints an empty array once, however often it is called. */
  method NothingWritten(marshal: Marshal) returns (out: string)
    ensures out == "[]\n"
  {
    var j := new JsonLogger(marshal);
    j.Finish();
    j.Finish();
    out := j.stdout;
  }
}
