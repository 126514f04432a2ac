/** What a logger writes over a whole sequence of logging calls, and how
    that output depends on the threshold. */
module Runs {
  import Levels
  import Logx

  /** One logging call: the message level and its text. */
  datatype Call = Call(level: Levels.Level, text: string)

  /** The entries a logger with the given threshold and time-zone suffix
      appends to its sink over a sequence of calls, in call order. */
  function Run(threshold: Levels.Level, timeSuffix: string, calls: seq<Call>): seq<string>
  {
    if calls == [] then []
    else Logx.Emitted(threshold, timeSuffix, calls[0].level, calls[0].text) + Run(threshold, timeSuffix, calls[1..])
  }

  /** The calls a threshold admits, in order: every admitted call is kept,
      no other call is, and the kept calls keep their order and repetitions. */
  function Admitted(threshold: Levels.Level, calls: seq<Call>): (r: seq<Call>)
    ensures forall c :: c in r ==> c in calls && Levels.Admits(threshold, c.level)
    ensures forall c :: c in calls && Levels.Admits(threshold, c.level) ==> c in r
    ensures IsSubsequence(r, calls)
  {
    if calls == [] then []
    else if Levels.Admits(threshold, calls[0].level) then [calls[0]] + Admitted(threshold, calls[1..])
    else Admitted(threshold, calls[1..])
  }

  /** `Admitted` keeps every copy of an admitted call and no copy of any
      other: each admitted call occurs in the result exactly as often as in
      the input. */
  lemma {:induction false} AdmittedKeepsRepetitions(threshold: Levels.Level, calls: seq<Call>)
    ensures forall c :: multiset(Admitted(threshold, calls))[c]
                     == if Levels.Admits(threshold, c.level) then multiset(calls)[c] else 0
  {
    if calls != [] {
      AdmittedKeepsRepetitions(threshold, calls[1..]);
      assert calls == [calls[0]] + calls[1..];
      assert multiset(calls) == multiset{calls[0]} + multiset(calls[1..]);
      if Levels.Admits(threshold, calls[0].level) {
        assert multiset(Admitted(threshold, calls))
            == multiset{calls[0]} + multiset(Admitted(threshold, calls[1..]));
      }
    }
  }

  /** `sub` can be obtained from `s` by deleting elements: either it is
      empty, or it keeps the head of `s`, or it skips it. */
  predicate IsSubsequence<T(==)>(sub: seq<T>, s: seq<T>)
    decreases |s|
  {
    sub == [] ||
    (s != [] && ((sub[0] == s[0] && IsSubsequence(sub[1..], s[1..])) || IsSubsequence(sub, s[1..])))
  }

  /** Logging one more call extends the output by what that call emits:
      the run of a sequence of calls is what successive `Log` calls build. */
  lemma {:induction false} RunSnoc(threshold: Levels.Level, timeSuffix: string, calls: seq<Call>, c: Call)
    ensures Run(threshold, timeSuffix, calls + [c])
         == Run(threshold, timeSuffix, calls) + Logx.Emitted(threshold, timeSuffix, c.level, c.text)
  {
    if calls != [] {
      assert (calls + [c])[1..] == calls[1..] + [c];
      RunSnoc(threshold, timeSuffix, calls[1..], c);
    }
  }

  /** The output holds one entry per admitted call, and that entry is the
      call's text behind the suffix and its level's tag; suppressed calls
      leave no trace. */
  lemma {:induction false} RunIsAdmittedEntries(threshold: Levels.Level, timeSuffix: string, calls: seq<Call>)
    ensures |Run(threshold, timeSuffix, calls)| == |Admitted(threshold, calls)|
    ensures forall i :: 0 <= i < |Admitted(threshold, calls)| ==>
      Run(threshold, timeSuffix, calls)[i]
        == Logx.Entry(timeSuffix, Admitted(threshold, calls)[i].level, Admitted(threshold, calls)[i].text)
  {
    if calls != [] {
      RunIsAdmittedEntries(threshold, timeSuffix, calls[1..]);
    }
  }

  /** When no call is admitted, nothing at all is written. */
  lemma {:induction false} NothingAdmittedNothingWritten(threshold: Levels.Level, timeSuffix: string, calls: seq<Call>)
    requires forall i :: 0 <= i < |calls| ==> !Levels.Admits(threshold, calls[i].level)
    ensures Run(threshold, timeSuffix, calls) == []
  {
    if calls != [] {
      assert !Levels.Admits(threshold, calls[0].level);
      NothingAdmittedNothingWritten(threshold, timeSuffix, calls[1..]);
    }
  }

  /** At the lowest threshold every call at a standard level is admitted. */
  lemma {:induction false} FineAdmitsEveryStandardCall(calls: seq<Call>)
    requires forall i :: 0 <= i < |calls| ==> Levels.IsStandard(calls[i].level)
    ensures Admitted(Levels.Fine, calls) == calls
  {
    if calls != [] {
      FineAdmitsEveryStandardCall(calls[1..]);
    }
  }

  /** A logger at the lowest threshold writes, for every call at a standard
      level, that call's entry, in call order. */
  lemma {:induction false} FineWritesEveryStandardCall(timeSuffix: string, calls: seq<Call>)
    requires forall i :: 0 <= i < |calls| ==> Levels.IsStandard(calls[i].level)
    ensures |Run(Levels.Fine, timeSuffix, calls)| == |calls|
    ensures forall i :: 0 <= i < |calls| ==>
      Run(Levels.Fine, timeSuffix, calls)[i] == Logx.Entry(timeSuffix, calls[i].level, calls[i].text)
  {
    FineAdmitsEveryStandardCall(calls);
    RunIsAdmittedEntries(Levels.Fine, timeSuffix, calls);
  }

  /** Threshold monotonicity over a whole run: a logger with a higher
      threshold writes a subsequence of what a logger with a lower threshold
      writes for the same calls, in the same order. */
  lemma {:induction false} RaisingThresholdThinsRun(low: Levels.Level, high: Levels.Level, timeSuffix: string, calls: seq<Call>)
    requires low <= high
    ensures IsSubsequence(Run(high, timeSuffix, calls), Run(low, timeSuffix, calls))
  {
    if calls != [] {
      var c := calls[0];
      var restHigh := Run(high, timeSuffix, calls[1..]);
      var restLow := Run(low, timeSuffix, calls[1..]);
      RaisingThresholdThinsRun(low, high, timeSuffix, calls[1..]);
      if Levels.Admits(high, c.level) {
        var e := Logx.Entry(timeSuffix, c.level, c.text);
        assert Run(high, timeSuffix, calls) == [e] + restHigh;
        assert Run(low, timeSuffix, calls) == [e] + restLow;
        assert ([e] + restHigh)[1..] == restHigh;
        assert ([e] + restLow)[1..] == restLow;
      } else if Levels.Admits(low, c.level) {
        var e := Logx.Entry(timeSuffix, c.level, c.text);
        assert Run(high, timeSuffix, calls) == restHigh;
        assert Run(low, timeSuffix, calls) == [e] + restLow;
        assert ([e] + restLow)[1..] == restLow;
      } else {
        assert Run(high, timeSuffix, calls) == restHigh;
        assert Run(low, timeSuffix, calls) == restLow;
      }
    }
  }

  /** A client that logs a whole sequence of calls, one `Log` call each, to a
      logger: the sink grows by exactly the run of those calls. */
  method LogAll(l: Logx.Logger, calls: seq<Call>)
    modifies l.out
    ensures l.out.entries == old(l.out.entries) + Run(l.level, l.timeSuffix, calls)
  {
    var i := 0;
    while i < |calls|
      invariant 0 <= i <= |calls|
      invariant l.out.entries == old(l.out.entries) + Run(l.level, l.timeSuffix, calls[..i])
    {
      RunSnoc(l.level, l.timeSuffix, calls[..i], calls[i]);
      assert calls[..i + 1] == calls[..i] + [calls[i]];
      Logx.Log(l, calls[i].level, calls[i].text);
      i := i + 1;
    }
    assert calls[..i] == calls;
  }
}
