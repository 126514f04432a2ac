/** The logx Logger: construction with validation, the admission check and
    the write path. The sink a logger prints to is an object holding the
    entries written so far; a logging call appends one entry or none.

    Each entry is the part of a printed line that follows the date and time:
    the logger's time-zone suffix, the level's tag, then the message text. */
module Logx {
  import Levels

  /** The output a logger writes to (the `io.Writer` behind the standard
      `log.Logger`), seen as the list of entries printed to it. */
  class Sink {
    var entries: seq<string>

    constructor ()
      ensures entries == []
    {
      entries := [];
    }

    /** `log.Logger.Print` with a header and a message: both operands are
        strings, so they are printed back to back as one entry. */
    method Print(header: string, text: string)
      modifies this
      ensures entries == old(entries) + [header + text]
    {
      entries := entries + [header + text];
    }
  }

  /** A logger. Its fields are set once, by `New`, and never change. */
  class Logger {
    const out: Sink
    const level: Levels.Level
    /** "UTC " when times are printed in UTC, "" when in local time. */
    const timeSuffix: string

    /** What `New` guarantees of every logger it returns. */
    ghost predicate Valid() {
      Levels.IsStandard(level) && (timeSuffix == "UTC " || timeSuffix == "")
    }

    constructor (out: Sink, level: Levels.Level, timeSuffix: string)
      ensures this.out == out && this.level == level && this.timeSuffix == timeSuffix
    {
      this.out := out;
      this.level := level;
      this.timeSuffix := timeSuffix;
    }
  }

  /** The entry printed for an admitted message: the time-zone suffix and the
      level's tag, then the message text unchanged. */
  function Entry(timeSuffix: string, level: Levels.Level, text: string): (r: string)
    ensures |r| == |timeSuffix| + |Levels.Label(level)| + |text|
    ensures r[..|timeSuffix|] == timeSuffix
    ensures r[|timeSuffix|..|timeSuffix| + |Levels.Label(level)|] == Levels.Label(level)
    ensures r[|r| - |text|..] == text
  {
    timeSuffix + Levels.Label(level) + text
  }

  /** The entries one logging call appends to the sink of a logger with the
      given threshold and time-zone suffix: one entry when the message is
      admitted, none otherwise. */
  function Emitted(threshold: Levels.Level, timeSuffix: string, level: Levels.Level, text: string): (r: seq<string>)
    ensures |r| <= 1
    ensures r != [] <==> Levels.Admits(threshold, level)
    ensures r != [] ==> r[0] == Entry(timeSuffix, level, text)
  {
    if Levels.Admits(threshold, level) then [Entry(timeSuffix, level, text)] else []
  }

  /** `New`: no logger (null) when there is no writer or the level is not
      one of the five standard levels (so in particular for `Off`);
      otherwise a fresh logger that keeps the writer and the level and
      precomputes the time-zone suffix. Nothing is written. */
  method New(out: Sink?, level: Levels.Level, useLocalTime: bool) returns (l: Logger?)
    ensures l == null <==> out == null || !Levels.IsStandard(level)
    ensures l != null ==> fresh(l) && l.Valid()
    ensures l != null ==> l.out == out && l.level == level
    ensures l != null ==> (l.timeSuffix == "UTC " <==> !useLocalTime)
    ensures l != null ==> (l.timeSuffix == "" <==> useLocalTime)
  {
    if out == null {
      return null;
    }
    if !Levels.IsStandard(level) {
      return null;
    }
    var tz := "";
    if !useLocalTime {
      tz := "UTC ";
    }
    l := new Logger(out, level, tz);
  }

  /** The sinks a call on `l` may write to: none when there is no logger. */
  function SinkOf(l: Logger?): set<Sink> {
    if l == null then {} else {l.out}
  }

  /** `Log`: drops the message when its level is `Off`, when there is no
      logger, or when the logger's threshold is above the level; otherwise
      appends exactly one entry for it to the logger's sink. */
  method Log(l: Logger?, level: Levels.Level, text: string)
    modifies SinkOf(l)
    ensures l != null ==> l.out.entries == old(l.out.entries) + Emitted(l.level, l.timeSuffix, level, text)
  {
    if level == Levels.Off || l == null || l.level > level {
      return;
    }
    l.out.Print(l.timeSuffix + Levels.Label(level), text);
  }

  /** `Fine`: `Log` at the Fine level. */
  method Fine(l: Logger?, text: string)
    modifies SinkOf(l)
    ensures l != null ==> l.out.entries == old(l.out.entries) + Emitted(l.level, l.timeSuffix, Levels.Fine, text)
  {
    Log(l, Levels.Fine, text);
  }

  /** `Debug`: `Log` at the Debug level. */
  method Debug(l: Logger?, text: string)
    modifies SinkOf(l)
    ensures l != null ==> l.out.entries == old(l.out.entries) + Emitted(l.level, l.timeSuffix, Levels.Debug, text)
  {
    Log(l, Levels.Debug, text);
  }

  /** `Info`: `Log` at the Info level. */
  method Info(l: Logger?, text: string)
    modifies SinkOf(l)
    ensures l != null ==> l.out.entries == old(l.out.entries) + Emitted(l.level, l.timeSuffix, Levels.Info, text)
  {
    Log(l, Levels.Info, text);
  }

  /** `Warn`: `Log` at the Warn level. */
  method Warn(l: Logger?, text: string)
    modifies SinkOf(l)
    ensures l != null ==> l.out.entries == old(l.out.entries) + Emitted(l.level, l.timeSuffix, Levels.Warn, text)
  {
    Log(l, Levels.Warn, text);
  }

  /** `Error`: `Log` at the Error level. */
  method Error(l: Logger?, text: string)
    modifies SinkOf(l)
    ensures l != null ==> l.out.entries == old(l.out.entries) + Emitted(l.level, l.timeSuffix, Levels.Error, text)
  {
    Log(l, Levels.Error, text);
  }

  /** The message-producing function handed to `LogWithFn`. It keeps count
      of how often it has been called, and the text it returns may depend on
      that count. */
  class Producer {
    var calls: nat
    const produce: nat -> string

    constructor (produce: nat -> string)
      ensures calls == 0 && this.produce == produce
    {
      calls := 0;
      this.produce := produce;
    }

    method Call() returns (text: string)
      modifies this
      ensures calls == old(calls) + 1
      ensures text == produce(old(calls))
    {
      text := produce(calls);
      calls := calls + 1;
    }
  }

  /** The producers a call may invoke: none when there is no function. */
  function ProducerOf(fn: Producer?): set<Producer> {
    if fn == null then {} else {fn}
  }

  /** `LogWithFn`: the admission check of `Log`, made before `fn` is called;
      `fn` is called once when the message is admitted and not at all
      otherwise, and its text is written unchanged. A level of `Off` returns
      before the logger is looked at; any other level reads the logger's
      threshold, so the logger must exist. A missing `fn` is harmless while
      the message is suppressed and must not occur when it is admitted. */
  method LogWithFn(l: Logger?, level: Levels.Level, fn: Producer?)
    requires level != Levels.Off ==> l != null
    requires fn == null ==> level == Levels.Off || (l != null && !Levels.Admits(l.level, level))
    modifies SinkOf(l), ProducerOf(fn)
    ensures fn != null ==>
      fn.calls == old(fn.calls) + (if l != null && Levels.Admits(l.level, level) then 1 else 0)
    ensures l != null ==>
      l.out.entries == old(l.out.entries)
        + Emitted(l.level, l.timeSuffix, level, if fn == null then "" else fn.produce(old(fn.calls)))
  {
    if level == Levels.Off || l.level > level {
      return;
    }
    var text := fn.Call();
    l.out.Print(l.timeSuffix + Levels.Label(level), text);
  }

  /** Every logger `New` returns prints Error messages and never prints an
      `Off` message, and each entry it writes at a standard level starts
      with "UTC [" when it prints UTC time and with "[" when it prints local
      time. */
  lemma ValidLoggerEntries(l: Logger, level: Levels.Level, text: string)
    requires l.Valid()
    ensures Levels.Admits(l.level, Levels.Error)
    ensures !Levels.Admits(l.level, Levels.Off)
    ensures Levels.IsStandard(level) && Levels.Admits(l.level, level) ==>
      var e := Emitted(l.level, l.timeSuffix, level, text)[0];
      if l.timeSuffix == "UTC " then |e| >= 5 && e[..5] == "UTC [" else |e| >= 1 && e[..1] == "["
  {
  }
}
