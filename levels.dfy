/**
 * The logger's five severities and the console-echo threshold test.
 * The enumeration is declared Fatal first, so Fatal has the smallest
 * ordinal and is the most severe.
 */
module Levels {

  datatype Level = Fatal | Error | Warn | Info | Trace

  /** The enumeration's underlying integer: Fatal = 0 … Trace = 4. */
  function Ordinal(l: Level): (n: nat)
    ensures n <= 4
    ensures n == 0 <==> l == Fatal
    ensures n == 4 <==> l == Trace
  {
    match l
    case Fatal => 0
    case Error => 1
    case Warn => 2
    case Info => 3
    case Trace => 4
  }

  /**
   * The name the enumeration prints, as used at the head of a console line.
   * Names are non-empty and hold no space, so the first space of a console
   * line ends the name.
   */
  function LevelName(l: Level): (name: string)
    ensures |name| >= 4 && forall i :: 0 <= i < |name| ==> name[i] != ' '
    ensures l == Fatal <==> name == "Fatal"
    ensures l == Trace <==> name == "Trace"
  {
    match l
    case Fatal => "Fatal"
    case Error => "Error"
    case Warn => "Warn"
    case Info => "Info"
    case Trace => "Trace"
  }

  /**
   * Whether a plain (non-Console) entry point at `level` writes to the console
   * when the threshold is `threshold`: the level must be at least as severe.
   */
  function Echoes(level: Level, threshold: Level): (b: bool)
    ensures level == Fatal ==> b
    ensures threshold == Trace ==> b
    ensures level == threshold ==> b
    ensures level == Trace ==> (b <==> threshold == Trace)
    ensures threshold == Fatal ==> (b <==> level == Fatal)
  {
    Ordinal(level) <= Ordinal(threshold)
  }

  /** Lowering the threshold's severity never silences a level that echoed before. */
  lemma EchoesMonotone(level: Level, threshold: Level, lower: Level)
    requires Echoes(level, threshold)
    requires Ordinal(threshold) <= Ordinal(lower)
    ensures Echoes(level, lower)
  {
  }

  /** Different levels print different names. */
  lemma LevelNameInjective(a: Level, b: Level)
    ensures LevelName(a) == LevelName(b) <==> a == b
  {
  }
}
