/** Client-side consequences of the Logger's contracts: situations that
    follow from the logger's documented behaviour, including those the
    repository's tests check, proved from the specifications alone. */
module Scenarios {
  import Levels
  import Logx

  /** `part` occurs somewhere inside `s`. */
  predicate Contains(s: string, part: string) {
    exists i :: 0 <= i <= |s| && OccursAt(s, part, i)
  }

  /** `part` occurs inside `s` starting at index `i`. */
  predicate OccursAt(s: string, part: string, i: int) {
    0 <= i <= |s| - |part| && s[i..i + |part|] == part
  }

  /** An entry written by a UTC logger shows "UTC " directly before the
      message level's tag, and shows the message text. */
  lemma UtcEntryShowsTagAndText(level: Levels.Level, text: string)
    ensures Contains(Logx.Entry("UTC ", level, text), "UTC " + Levels.Label(level))
    ensures Contains(Logx.Entry("UTC ", level, text), text)
  {
    var e := Logx.Entry("UTC ", level, text);
    var header := "UTC " + Levels.Label(level);
    assert OccursAt(e, header, 0);
    assert OccursAt(e, text, |e| - |text|);
  }

  /** Construction fails without a writer, at `Off`, and just outside the
      range of the standard levels; it succeeds at Warn and keeps that level. */
  method NewRejectsAndAccepts(useLocalTime: bool)
    returns (noWriter: Logx.Logger?, off: Logx.Logger?, belowFine: Logx.Logger?, aboveError: Logx.Logger?, atWarn: Logx.Logger?)
    ensures noWriter == null && off == null && belowFine == null && aboveError == null
    ensures atWarn != null && atWarn.level == Levels.Warn
  {
    var sink := new Logx.Sink();
    noWriter := Logx.New(null, Levels.Fine, useLocalTime);
    off := Logx.New(sink, Levels.Off, useLocalTime);
    belowFine := Logx.New(sink, Levels.Fine - 1, useLocalTime);
    aboveError := Logx.New(sink, Levels.Error + 1, useLocalTime);
    atWarn := Logx.New(sink, Levels.Warn, useLocalTime);
  }

  /** A UTC logger at Debug writes an Info message with its tag and drops a
      later Fine message. */
  method DebugLoggerInUtc() returns (entries: seq<string>)
    ensures entries == ["UTC [INFO]  hello world"]
  {
    var sink := new Logx.Sink();
    var l := Logx.New(sink, Levels.Debug, false);
    Logx.Info(l, "hello world");
    Logx.Fine(l, "dropped");
    entries := sink.entries;
    assert "UTC " + Levels.Label(Levels.Info) + "hello world" == "UTC [INFO]  hello world";
  }

  /** A local-time logger at Error drops a Warn message and writes an Error
      message without a "UTC " suffix. */
  method ErrorLoggerInLocalTime() returns (entries: seq<string>)
    ensures entries == ["[ERROR] boom"]
  {
    var sink := new Logx.Sink();
    var l := Logx.New(sink, Levels.Error, true);
    Logx.Warn(l, "ignored");
    Logx.Error(l, "boom");
    entries := sink.entries;
    assert "" + Levels.Label(Levels.Error) + "boom" == "[ERROR] boom";
  }

  /** A message below the threshold never calls its producer, and may even
      come without one; a message at or above the threshold calls it exactly
      once. */
  method LazyMessageCalledOnlyWhenAdmitted() returns (callsAfterFine: nat, callsAfterWarn: nat, entries: seq<string>)
    ensures callsAfterFine == 0 && callsAfterWarn == 1
    ensures entries == ["UTC [WARN]  expensive"]
  {
    var sink := new Logx.Sink();
    var l := Logx.New(sink, Levels.Info, false);
    var fn := new Logx.Producer(n => "expensive");
    Logx.LogWithFn(l, Levels.Fine, fn);
    Logx.LogWithFn(l, Levels.Debug, null);
    callsAfterFine := fn.calls;
    Logx.LogWithFn(l, Levels.Warn, fn);
    callsAfterWarn := fn.calls;
    entries := sink.entries;
    assert "UTC " + Levels.Label(Levels.Warn) + "expensive" == "UTC [WARN]  expensive";
  }

  /** A missing logger is tolerated by `Log` and by every per-level call,
      and by `LogWithFn` at `Off`: nothing is written and `fn` is not called. */
  method NilLoggerWritesNothing(sink: Logx.Sink) returns (calls: nat)
    modifies sink
    ensures sink.entries == old(sink.entries)
    ensures calls == 0
  {
    var l := Logx.New(null, Levels.Info, false);
    Logx.Log(l, Levels.Error, "lost");
    Logx.Error(l, "lost");
    var fn := new Logx.Producer(n => "never");
    Logx.LogWithFn(l, Levels.Off, fn);
    calls := fn.calls;
  }
}
