/**
 * The caller key that identifies a call site: the source file path with the
 * build machine's code root cut off, followed by "(" line ")".
 * The file and line come from stack inspection in the program; here they are inputs.
 */
module Callers {

  /** The code root on the build machine, baked in at compile time. */
  const BuildMachineCodeRoot: string := @"c:\dev\6\nlogslack\nlogslack\"

  /** The number of characters cut from the front of every file path. */
  const RootLen: nat := |BuildMachineCodeRoot|

  predicate IsDigit(c: char)
  {
    '0' <= c <= '9'
  }

  predicate AllDigits(s: string)
  {
    forall i :: 0 <= i < |s| ==> IsDigit(s[i])
  }

  function DigitChar(d: nat): (c: char)
    requires d < 10
    ensures IsDigit(c) && c as int - '0' as int == d
  {
    ('0' as int + d) as char
  }

  /** Decimal rendering of a natural number, as `int.ToString()` gives it. */
  function NatToString(n: nat): (s: string)
    ensures |s| >= 1 && AllDigits(s)
    decreases n
  {
    if n < 10 then [DigitChar(n)] else NatToString(n / 10) + [DigitChar(n % 10)]
  }

  /** The number a string of decimal digits denotes. */
  function DigitsValue(s: string): nat
    requires AllDigits(s)
    decreases |s|
  {
    if s == [] then 0
    else 10 * DigitsValue(s[..|s| - 1]) + (s[|s| - 1] as int - '0' as int)
  }

  /** Reading back a rendered number gives the number. */
  lemma {:induction false} DigitsRoundTrip(n: nat)
    ensures DigitsValue(NatToString(n)) == n
    decreases n
  {
    var s := NatToString(n);
    if n >= 10 {
      DigitsRoundTrip(n / 10);
      assert s[..|s| - 1] == NatToString(n / 10);
    }
  }

  /** Different numbers render differently. */
  lemma NatToStringInjective(a: nat, b: nat)
    ensures NatToString(a) == NatToString(b) ==> a == b
  {
    DigitsRoundTrip(a);
    DigitsRoundTrip(b);
  }

  /** Decimal rendering of an integer, with a leading '-' when it is negative. */
  function IntToString(i: int): (s: string)
    ensures |s| >= 1
    ensures s[0] == '-' <==> i < 0
    ensures i >= 0 ==> AllDigits(s) && DigitsValue(s) == i
    ensures i < 0 ==> AllDigits(s[1..]) && DigitsValue(s[1..]) == -i
  {
    if i < 0 then
      DigitsRoundTrip(-i);
      assert ("-" + NatToString(-i))[1..] == NatToString(-i);
      "-" + NatToString(-i)
    else
      DigitsRoundTrip(i);
      NatToString(i)
  }

  /** Different context ids render differently. */
  lemma IntToStringInjective(a: int, b: int)
    ensures IntToString(a) == IntToString(b) <==> a == b
  {
  }

  /** The key of the call site at `line` of `file`: `file.Substring(RootLen) + "(" + line + ")"`. */
  function CallerKey(file: string, line: nat): (k: string)
    requires |file| >= RootLen
    ensures |k| >= |file| - RootLen + 3
    ensures k[..|file| - RootLen] == file[RootLen..]
    ensures k[|file| - RootLen] == '(' && k[|k| - 1] == ')'
  {
    file[RootLen..] + "(" + NatToString(line) + ")"
  }

  /** The digits between the parentheses of a caller key read back as the line number. */
  lemma CallerKeyLine(file: string, line: nat)
    requires |file| >= RootLen
    ensures var k := CallerKey(file, line);
            AllDigits(k[|file| - RootLen + 1..|k| - 1]) && DigitsValue(k[|file| - RootLen + 1..|k| - 1]) == line
  {
    var k := CallerKey(file, line);
    DigitsRoundTrip(line);
    assert k[|file| - RootLen + 1..|k| - 1] == NatToString(line);
  }

  /** A key of the shape a + "(" + digits + ")" determines a and the digits. */
  lemma KeySplit(a1: string, d1: string, a2: string, d2: string)
    requires AllDigits(d1) && AllDigits(d2)
    requires a1 + "(" + d1 + ")" == a2 + "(" + d2 + ")"
    ensures a1 == a2 && d1 == d2
  {
    var k := a1 + "(" + d1 + ")";
    assert |k| == |a1| + |d1| + 2 == |a2| + |d2| + 2;
    assert k[|a1|] == '(' && k[|a2|] == '(';
    // The '(' before the digits is the last '(' of the key, in both readings.
    assert forall i :: |a1| < i < |k| ==> k[i] != '(' by {
      forall i | |a1| < i < |k| ensures k[i] != '(' {
        if i < |k| - 1 { assert k[i] == d1[i - |a1| - 1]; }
      }
    }
    assert forall i :: |a2| < i < |k| ==> k[i] != '(' by {
      forall i | |a2| < i < |k| ensures k[i] != '(' {
        if i < |k| - 1 { assert k[i] == d2[i - |a2| - 1]; }
      }
    }
    assert a1 == k[..|a1|] == a2;
    assert d1 == k[|a1| + 1..|a1| + 1 + |d1|] == d2;
  }

  /** Two call sites share a key only when their relative paths and lines are equal. */
  lemma CallerKeyInjective(file1: string, line1: nat, file2: string, line2: nat)
    requires |file1| >= RootLen && |file2| >= RootLen
    ensures CallerKey(file1, line1) == CallerKey(file2, line2)
            <==> file1[RootLen..] == file2[RootLen..] && line1 == line2
  {
    if CallerKey(file1, line1) == CallerKey(file2, line2) {
      KeySplit(file1[RootLen..], NatToString(line1), file2[RootLen..], NatToString(line2));
      NatToStringInjective(line1, line2);
    }
  }
}
