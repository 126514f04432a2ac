/** Severity levels of the logx logger: the integer-backed Level, its
    human-readable name, the fixed-width bracketed tag printed in front of
    every message, and the admission rule that compares a message level
    against a logger's threshold. */
module Levels {

  /** Go's `type Level int`. No arithmetic is done on levels, only
      comparisons, so the machine width of `int` plays no part. */
  type Level = int

  const Fine: Level := 10
  const Debug: Level := 20
  const Info: Level := 30
  const Warn: Level := 40
  const Error: Level := 50
  /** Not a message level: as a threshold it means "accept nothing". */
  const Off: Level := 99

  /** The five levels a logger may be configured with and a message may carry. */
  predicate IsStandard(level: Level) {
    level == Fine || level == Debug || level == Info || level == Warn || level == Error
  }

  /** The six named constants. */
  predicate IsNamed(level: Level) {
    IsStandard(level) || level == Off
  }

  /** `Level.String`: the constant's name, or "Unknown" for any other value. */
  function Name(level: Level): (r: string)
    ensures r == "Unknown" <==> !IsNamed(level)
    ensures IsNamed(level) ==> 3 <= |r| <= 5 && 'A' <= r[0] <= 'Z'
  {
    if level == Fine then "Fine"
    else if level == Debug then "Debug"
    else if level == Info then "Info"
    else if level == Warn then "Warn"
    else if level == Error then "Error"
    else if level == Off then "Off"
    else "Unknown"
  }

  /** `label`: the tag written in front of a message. Every standard level
      gets an 8-character tag, so messages line up; every other value,
      `Off` included, gets the empty tag. */
  function Label(level: Level): (r: string)
    ensures IsStandard(level) ==> |r| == 8 && r[0] == '[' && r[|r| - 1] == ' '
    ensures !IsStandard(level) ==> r == ""
  {
    if level == Fine then "[FINE]  "
    else if level == Debug then "[DEBUG] "
    else if level == Info then "[INFO]  "
    else if level == Warn then "[WARN]  "
    else if level == Error then "[ERROR] "
    else ""
  }

  /** The admission test shared by `Log` and `LogWithFn`: a message passes
      when it is not tagged `Off` and is at least as severe as the threshold. */
  predicate Admits(threshold: Level, level: Level) {
    level != Off && threshold <= level
  }

  // ---------------------------------------------------------------------
  // A reference definition of the tags: the level's name in upper case,
  // in brackets, padded with spaces to eight characters.

  function UpperChar(c: char): (r: char)
    ensures 'a' <= c <= 'z' ==> 'A' <= r <= 'Z'
    ensures !('a' <= c <= 'z') ==> r == c
  {
    if 'a' <= c <= 'z' then (c as int - 'a' as int + 'A' as int) as char else c
  }

  function Upper(s: string): (r: string)
    ensures |r| == |s|
  {
    if s == [] then [] else [UpperChar(s[0])] + Upper(s[1..])
  }

  function PadRight(s: string, width: nat): (r: string)
    ensures |r| == if |s| < width then width else |s|
    decreases width - |s|
  {
    if |s| < width then PadRight(s + " ", width) else s
  }

  /** The name of a level, as it appears inside its tag. */
  function Tag(level: Level): string {
    PadRight("[" + Upper(Name(level)) + "]", 8)
  }

  /** Each standard level's tag is its upper-cased name in brackets, padded
      to eight characters: the tags of `label` agree with the names of
      `Level.String`. */
  lemma LabelSpellsName(level: Level)
    requires IsStandard(level)
    ensures Label(level) == Tag(level)
  {
    if level == Fine {
      TagSteps("Fine", "FINE", "[FINE]  ");
    } else if level == Debug {
      TagSteps("Debug", "DEBUG", "[DEBUG] ");
    } else if level == Info {
      TagSteps("Info", "INFO", "[INFO]  ");
    } else if level == Warn {
      TagSteps("Warn", "WARN", "[WARN]  ");
    } else {
      TagSteps("Error", "ERROR", "[ERROR] ");
    }
  }

  lemma TagSteps(name: string, upper: string, tag: string)
    requires 4 <= |name| <= 5 && |upper| == |name| && |tag| == 8
    requires forall i :: 0 <= i < |name| ==> upper[i] == UpperChar(name[i])
    requires tag[0] == '[' && tag[1..|name| + 1] == upper && tag[|name| + 1] == ']'
    requires forall i :: |name| + 2 <= i < 8 ==> tag[i] == ' '
    ensures PadRight("[" + Upper(name) + "]", 8) == tag
  {
    UpperPointwise(name);
    assert Upper(name) == upper;
    var s := "[" + upper + "]";
    assert s == tag[..|name| + 2];
    if |name| == 4 {
      assert s + " " == tag[..7];
      assert s + " " + " " == tag;
      assert PadRight(s, 8) == PadRight(s + " ", 8) == PadRight(s + " " + " ", 8);
    } else {
      assert s + " " == tag;
      assert PadRight(s, 8) == PadRight(s + " ", 8);
    }
  }

  lemma {:induction false} UpperPointwise(s: string)
    ensures forall i :: 0 <= i < |s| ==> Upper(s)[i] == UpperChar(s[i])
  {
    if s != [] {
      UpperPointwise(s[1..]);
    }
  }

  /** Distinct named levels have distinct names. */
  lemma NameInjective(a: Level, b: Level)
    requires IsNamed(a) && IsNamed(b) && a != b
    ensures Name(a) != Name(b)
  {
  }

  /** Distinct standard levels have distinct tags, so a tag identifies the
      level of the message that follows it. */
  lemma LabelInjective(a: Level, b: Level)
    requires IsStandard(a) && IsStandard(b) && a != b
    ensures Label(a) != Label(b)
  {
  }

  /** Threshold monotonicity: a message admitted at some level would also be
      admitted at every higher level other than `Off`. */
  lemma AdmitsUpward(threshold: Level, level: Level, higher: Level)
    requires Admits(threshold, level) && level <= higher && higher != Off
    ensures Admits(threshold, higher)
  {
  }

  /** A threshold admits exactly the standard levels at or above it. */
  lemma ThresholdSelects(threshold: Level, level: Level)
    requires IsStandard(level)
    ensures Admits(threshold, level) <==> threshold <= level
  {
  }

  /** Raising the threshold can only drop messages, never admit new ones. */
  lemma RaisingThresholdDrops(low: Level, high: Level, level: Level)
    requires low <= high && Admits(high, level)
    ensures Admits(low, level)
  {
  }
}
