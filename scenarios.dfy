/**
 * Client code against the logger's contracts: the lifecycle sequence and an
 * end-to-end run at console threshold Warn.
 */
module Scenarios {
  import opened Wrappers
  import opened Levels
  import opened Callers
  import opened Capping
  import opened Logger

  /** The levels of a stretch of records, in order. */
  function LevelsOf(rs: seq<Record>): (ls: seq<Level>)
    ensures |ls| == |rs| && forall i :: 0 <= i < |rs| ==> ls[i] == rs[i].level
  {
    seq(|rs|, i requires 0 <= i < |rs| => rs[i].level)
  }

  /** The levels of a stretch followed by one record. */
  lemma LevelsOfAppend(rs: seq<Record>, r: Record)
    ensures LevelsOf(rs + [r]) == LevelsOf(rs) + [r.level]
  {
  }

  /**
   * Instance before Initialise fails; Initialise succeeds and Instance then
   * returns the same logger; a second Initialise fails; after Shutdown a new
   * Initialise succeeds with a different logger.
   */
  method Lifecycle(s: Singleton)
    returns (early: Result<NRLogger, LifecycleError>, first: Result<NRLogger, LifecycleError>,
             current: Result<NRLogger, LifecycleError>, twice: Result<NRLogger, LifecycleError>,
             again: Result<NRLogger, LifecycleError>)
    requires s.Valid() && s.instance == null
    modifies s`instance, s.backend`flushes
    ensures early == Failure(NotInitialised)
    ensures first.Success? && current == first
    ensures twice == Failure(AlreadyInitialised)
    ensures again.Success? && again.value != first.value
    ensures s.Valid() && s.instance == null
    ensures s.backend.flushes == old(s.backend.flushes) + 2
  {
    early := s.Instance();
    first := s.Initialise();
    current := s.Instance();
    twice := s.Initialise(Level.Trace);
    s.Shutdown();
    again := s.Initialise();
    s.Shutdown();
  }

  /**
   * Threshold Warn: Info writes no console line, ErrorConsole writes one, and
   * three FatalCapped calls with cap 2 from one site give Fatal, Fatal, Error,
   * each echoed, in that order.
   */
  method EndToEnd(s: Singleton, file: string, line: nat)
    requires s.Valid() && s.instance == null && |file| >= RootLen
    modifies s`instance, s.backend`console, s.backend`records
    ensures |s.backend.records| == old(|s.backend.records|) + 5
    ensures LevelsOf(s.backend.records[old(|s.backend.records|)..]) == [Info, Error, Fatal, Fatal, Error]
    ensures |s.backend.console| == old(|s.backend.console|) + 4
    ensures s.backend.console[old(|s.backend.console|)..]
            == [ConsoleLine(Error, s.backend.format("y", [])),
                ConsoleLine(Fatal, s.backend.format("z", [])),
                ConsoleLine(Fatal, s.backend.format("z", [])),
                ConsoleLine(Error, s.backend.format("z", []))]
  {
    ghost var c0 := s.backend.console;
    var r := s.Initialise(Warn);
    var log := r.value;
    ghost var y, z := s.backend.format("y", []), s.backend.format("z", []);
    log.Info(None, "x", Some([]), file, line);
    assert s.backend.console == c0;
    log.ErrorConsole(None, "y", Some([]), file, line + 1);
    ghost var c1 := s.backend.console;
    assert c1 == c0 + [ConsoleLine(Error, y)];
    log.FatalCapped(2, None, "z", Some([]), file, line + 2);
    ghost var c2 := s.backend.console;
    assert c2 == c1 + [ConsoleLine(Fatal, z)];
    log.FatalCapped(2, None, "z", Some([]), file, line + 2);
    ghost var c3 := s.backend.console;
    assert c3 == c2 + [ConsoleLine(Fatal, z)];
    log.FatalCapped(2, None, "z", Some([]), file, line + 2);
    assert s.backend.console == c3 + [ConsoleLine(Error, z)];
  }

  /**
   * n FatalCapped calls from one call site: the logger's counters and the
   * levels of the records it writes are exactly those of CappedRun, so
   * CapFlood and CappedRunLevels describe the records actually written.
   * Every record carries that site's key, the context id, and no parameters.
   */
  method CappedFlood(log: NRLogger, cap: int32, portfolioId: Option<int>, message: string,
                     args: Option<seq<Value>>, file: string, line: nat, n: nat)
    requires |file| >= RootLen
    modifies log`fatalCount, log.backend`console, log.backend`records
    ensures log.fatalCount == CappedRun(old(log.fatalCount), CallerKey(file, line), cap, n).counts
    ensures |log.backend.records| == old(|log.backend.records|) + n
    ensures LevelsOf(log.backend.records[old(|log.backend.records|)..])
            == CappedRun(old(log.fatalCount), CallerKey(file, line), cap, n).levels
    ensures forall j :: old(|log.backend.records|) <= j < |log.backend.records| ==>
              && log.backend.records[j].caller == CallerKey(file, line)
              && log.backend.records[j].parameters == None
              && log.backend.records[j].portfolioId == portfolioId
  {
    ghost var c0 := log.fatalCount;
    ghost var r0 := log.backend.records;
    ghost var key := CallerKey(file, line);
    var i := 0;
    while i < n
      invariant 0 <= i <= n
      invariant log.fatalCount == CappedRun(c0, key, cap, i).counts
      invariant |log.backend.records| == |r0| + i
      invariant LevelsOf(log.backend.records[|r0|..]) == CappedRun(c0, key, cap, i).levels
      invariant forall j :: |r0| <= j < |log.backend.records| ==>
                  && log.backend.records[j].caller == key
                  && log.backend.records[j].parameters == None
                  && log.backend.records[j].portfolioId == portfolioId
    {
      SplitLast(c0, key, cap, i);
      ghost var before := log.backend.records;
      ghost var step := CapStep(log.fatalCount, key, cap);
      log.FatalCapped(cap, portfolioId, message, args, file, line);
      ghost var rec := Record(step.level, message, key, None, portfolioId);
      assert log.backend.records == before + [rec];
      assert log.backend.records[|r0|..] == before[|r0|..] + [rec];
      LevelsOfAppend(before[|r0|..], rec);
      i := i + 1;
    }
  }

  /**
   * With cap N, N + k FatalCapped calls from a call site that has not called
   * before write N records at Fatal followed by k records at Error, and leave
   * that site's counter at N + k.
   */
  method CappedFloodFromNewSite(log: NRLogger, cap: int32, portfolioId: Option<int>, message: string,
                                args: Option<seq<Value>>, file: string, line: nat, k: nat)
    requires |file| >= RootLen
    requires CallerKey(file, line) !in log.fatalCount
    requires 0 <= cap as int && cap as int + k <= MaxInt32
    modifies log`fatalCount, log.backend`console, log.backend`records
    ensures |log.backend.records| == old(|log.backend.records|) + cap as int + k
    ensures LevelsOf(log.backend.records[old(|log.backend.records|)..]) == Repeat(Fatal, cap as int) + Repeat(Error, k)
    ensures CountOf(log.fatalCount, CallerKey(file, line)) as int == cap as int + k
  {
    CapFlood(log.fatalCount, CallerKey(file, line), cap, k);
    CappedFlood(log, cap, portfolioId, message, args, file, line, cap as int + k);
  }
}
