/**
 * The fatal-capping policy of FatalCapped, on values: a map from caller key
 * to a 32-bit signed counter, where a missing key counts as 0. A call emits
 * at Fatal while the count before the call is below the cap and at Error
 * otherwise, and it always bumps its own caller's counter with C#'s
 * unchecked `++`.
 */
module Capping {
  import opened Levels

  const MinInt32: int := -0x8000_0000
  const MaxInt32: int := 0x7fff_ffff

  newtype int32 = x: int | -0x8000_0000 <= x < 0x8000_0000

  /** Unchecked `++` on a C# `int`: the largest value wraps to the smallest. */
  function Increment(c: int32): (r: int32)
    ensures c as int < MaxInt32 ==> r as int == c as int + 1
    ensures c as int == MaxInt32 ==> r as int == MinInt32
  {
    if c == 0x7fff_ffff then -0x8000_0000 else c + 1
  }

  /** The count of a caller, 0 when it has never called. */
  function CountOf(counts: map<string, int32>, key: string): (c: int32)
    ensures key !in counts ==> c == 0
    ensures key in counts ==> c == counts[key]
  {
    if key in counts then counts[key] else 0
  }

  /** The effect of one capped call: the new counters and the level it emits at. */
  datatype Step = Step(counts: map<string, int32>, level: Level)

  /** One FatalCapped call with cap `cap` from the site `key`. */
  function CapStep(counts: map<string, int32>, key: string, cap: int32): (r: Step)
    ensures r.level == Fatal <==> CountOf(counts, key) < cap
    ensures r.level == Fatal || r.level == Error
    ensures r.counts.Keys == counts.Keys + {key}
    ensures CountOf(r.counts, key) == Increment(CountOf(counts, key))
    ensures forall other :: other != key ==> CountOf(r.counts, other) == CountOf(counts, other)
  {
    var before := CountOf(counts, key);
    Step(counts[key := Increment(before)], if before < cap then Fatal else Error)
  }

  /** The effect of `n` consecutive capped calls from one site. */
  datatype Run = Run(counts: map<string, int32>, levels: seq<Level>)

  function CappedRun(counts: map<string, int32>, key: string, cap: int32, n: nat): (r: Run)
    ensures |r.levels| == n
    ensures forall i :: 0 <= i < n ==> r.levels[i] == Fatal || r.levels[i] == Error
    ensures r.counts.Keys == if n == 0 then counts.Keys else counts.Keys + {key}
    decreases n
  {
    if n == 0 then Run(counts, [])
    else
      var first := CapStep(counts, key, cap);
      var rest := CappedRun(first.counts, key, cap, n - 1);
      Run(rest.counts, [first.level] + rest.levels)
  }

  /** A run of n + 1 calls is the run of n calls followed by one more call. */
  lemma {:induction false} SplitLast(counts: map<string, int32>, key: string, cap: int32, n: nat)
    ensures var prefix := CappedRun(counts, key, cap, n);
            var last := CapStep(prefix.counts, key, cap);
            CappedRun(counts, key, cap, n + 1) == Run(last.counts, prefix.levels + [last.level])
    decreases n
  {
    if n > 0 {
      var first := CapStep(counts, key, cap);
      SplitLast(first.counts, key, cap, n - 1);
      var rest := CappedRun(first.counts, key, cap, n - 1);
      var last := CapStep(rest.counts, key, cap);
      assert [first.level] + (rest.levels + [last.level]) == ([first.level] + rest.levels) + [last.level];
    }
  }

  /**
   * While the counter does not wrap, the i-th of n calls from one site emits at
   * Fatal exactly when the count it started from plus i is below the cap; the
   * site's counter ends n higher and every other site's counter is untouched.
   */
  lemma {:induction false} CappedRunLevels(counts: map<string, int32>, key: string, cap: int32, n: nat)
    requires CountOf(counts, key) as int + n <= MaxInt32
    ensures |CappedRun(counts, key, cap, n).levels| == n
    ensures forall i :: 0 <= i < n ==>
              CappedRun(counts, key, cap, n).levels[i]
              == if CountOf(counts, key) as int + i < cap as int then Fatal else Error
    ensures CountOf(CappedRun(counts, key, cap, n).counts, key) as int == CountOf(counts, key) as int + n
    ensures forall other :: other != key ==>
              CountOf(CappedRun(counts, key, cap, n).counts, other) == CountOf(counts, other)
    decreases n
  {
    if n > 0 {
      var first := CapStep(counts, key, cap);
      CappedRunLevels(first.counts, key, cap, n - 1);
      var r := CappedRun(counts, key, cap, n);
      var rest := CappedRun(first.counts, key, cap, n - 1);
      assert r.levels == [first.level] + rest.levels;
      forall i | 0 <= i < n
        ensures r.levels[i] == if CountOf(counts, key) as int + i < cap as int then Fatal else Error
      {
        if i > 0 { assert r.levels[i] == rest.levels[i - 1]; }
      }
    }
  }

  function Repeat(l: Level, n: nat): (r: seq<Level>)
    ensures |r| == n && forall i :: 0 <= i < n ==> r[i] == l
  {
    seq(n, _ => l)
  }

  /**
   * With cap N, N + k calls from a site that has not called before emit N
   * records at Fatal followed by k at Error, and leave its counter at N + k.
   */
  lemma CapFlood(counts: map<string, int32>, key: string, cap: int32, k: nat)
    requires key !in counts
    requires 0 <= cap as int && cap as int + k <= MaxInt32
    ensures CappedRun(counts, key, cap, cap as int + k).levels == Repeat(Fatal, cap as int) + Repeat(Error, k)
    ensures CountOf(CappedRun(counts, key, cap, cap as int + k).counts, key) as int == cap as int + k
  {
    CappedRunLevels(counts, key, cap, cap as int + k);
  }

  /** Any number of capped calls from one site leave another site's counter alone. */
  lemma {:induction false} OtherSiteCountUnchanged(counts: map<string, int32>, a: string, capA: int32, n: nat, b: string)
    requires a != b
    ensures CountOf(CappedRun(counts, a, capA, n).counts, b) == CountOf(counts, b)
    decreases n
  {
    if n > 0 {
      OtherSiteCountUnchanged(CapStep(counts, a, capA).counts, a, capA, n - 1, b);
    }
  }

  /**
   * Independence of sites: however often site a has called, the next call
   * from a different site b emits at the level it would have emitted at anyway.
   */
  lemma SitesIndependent(counts: map<string, int32>, a: string, capA: int32, n: nat, b: string, capB: int32)
    requires a != b
    ensures CapStep(CappedRun(counts, a, capA, n).counts, b, capB).level == CapStep(counts, b, capB).level
  {
    OtherSiteCountUnchanged(counts, a, capA, n, b);
  }

  /**
   * The counter is an unchecked 32-bit int: the call that finds it at the
   * largest value wraps it to the smallest, and the next call from that site
   * emits at Fatal again for every cap above the smallest value.
   */
  lemma CounterWraps(counts: map<string, int32>, key: string, cap: int32)
    requires CountOf(counts, key) as int == MaxInt32
    requires cap as int > MinInt32
    ensures CapStep(counts, key, cap).level == Error
    ensures CountOf(CapStep(counts, key, cap).counts, key) as int == MinInt32
    ensures CapStep(CapStep(counts, key, cap).counts, key, cap).level == Fatal
  {
  }
}
