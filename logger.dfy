/**
 * The NRLogger facade: a process-wide logger that echoes messages to the
 * console above a configurable threshold, caps Fatal notifications per call
 * site, tags every record with its caller, and forwards it to the logging
 * backend.
 */
module Logger {
  import opened Wrappers
  import opened Levels
  import opened Callers
  import opened Capping

  /** A positional argument of a message template. */
  datatype Value = Text(s: string) | Number(n: int)

  /** The runtime's composite formatting of a template with its arguments. */
  type Formatter = (string, seq<Value>) -> string

  /**
   * What the backend receives: level, unformatted template, the `caller`
   * property, the positional parameters when any were attached, and the
   * `PortfolioId` property when a context id was given.
   */
  datatype Record = Record(
    level: Level,
    message: string,
    caller: string,
    parameters: Option<seq<Value>>,
    portfolioId: Option<int>)

  datatype LifecycleError = NotInitialised | AlreadyInitialised

  /** The console text of a message: the template itself when args is null, else its formatting. */
  function Rendered(format: Formatter, message: string, args: Option<seq<Value>>): (text: string)
    ensures args == None ==> text == message
    ensures args.Some? ==> text == format(message, args.value)
  {
    match args
    case None => message
    case Some(a) => format(message, a)
  }

  /** A console line: the level's name, " :", and the text. */
  function ConsoleLine(level: Level, text: string): (line: string)
    ensures |line| == |LevelName(level)| + 2 + |text|
    ensures line[..|LevelName(level)|] == LevelName(level)
    ensures line[|LevelName(level)| + 2..] == text
  {
    LevelName(level) + " :" + text
  }

  /** A console line gives back the level and the text it was written from. */
  lemma ConsoleLineInjective(l1: Level, t1: string, l2: Level, t2: string)
    ensures ConsoleLine(l1, t1) == ConsoleLine(l2, t2) <==> l1 == l2 && t1 == t2
  {
    if ConsoleLine(l1, t1) == ConsoleLine(l2, t2) {
      var line := ConsoleLine(l1, t1);
      var n1, n2 := LevelName(l1), LevelName(l2);
      // The first space of the line is right after the name, in both readings.
      assert line[|n1|] == ' ' && line[|n2|] == ' ';
      assert forall i :: 0 <= i < |n1| ==> line[i] == n1[i];
      assert forall i :: 0 <= i < |n2| ==> line[i] == n2[i];
      assert |n1| == |n2|;
      assert n1 == line[..|n1|] == n2;
      LevelNameInjective(l1, l2);
    }
  }

  /** The text with ":" and the context id appended, when one is given. */
  function WithContext(text: string, portfolioId: Option<int>): (s: string)
    ensures portfolioId == None ==> s == text
    ensures portfolioId.Some? ==>
              && |s| > |text| + 1 && s[..|text|] == text && s[|text|] == ':'
              && s[|text| + 1..] == IntToString(portfolioId.value)
  {
    match portfolioId
    case None => text
    case Some(id) => text + ":" + IntToString(id)
  }

  /**
   * The console lines one logging call writes: always one line for a Console
   * entry point (carrying the context id), otherwise one line exactly when
   * the level echoes at the threshold (never carrying it).
   */
  function EchoedLines(format: Formatter, threshold: Level, level: Level, forced: bool,
                       portfolioId: Option<int>, message: string, args: Option<seq<Value>>): (lines: seq<string>)
    ensures |lines| <= 1
    ensures |lines| == 1 <==> forced || Echoes(level, threshold)
    ensures forced ==> lines == [ConsoleLine(level, WithContext(Rendered(format, message, args), portfolioId))]
    ensures !forced && Echoes(level, threshold) ==> lines == [ConsoleLine(level, Rendered(format, message, args))]
  {
    if forced then [ConsoleLine(level, WithContext(Rendered(format, message, args), portfolioId))]
    else if Echoes(level, threshold) then [ConsoleLine(level, Rendered(format, message, args))]
    else []
  }

  /**
   * The world the logger writes to: the console, the backend's record stream,
   * the number of backend flushes, and the runtime's string formatting.
   */
  class Backend {
    var console: seq<string>
    var records: seq<Record>
    var flushes: nat
    const format: Formatter

    constructor (format: Formatter)
      ensures console == [] && records == [] && flushes == 0 && this.format == format
    {
      console := [];
      records := [];
      flushes := 0;
      this.format := format;
    }
  }

  class NRLogger {
    const backend: Backend
    var consoleLevel: Level
    var fatalCount: map<string, int32>

    constructor (backend: Backend, level: Level)
      ensures this.backend == backend && consoleLevel == level && fatalCount == map[]
    {
      this.backend := backend;
      consoleLevel := level;
      fatalCount := map[];
    }

    /** Only the console threshold changes. */
    method SetLogToConsoleLevel(l: Level)
      modifies this`consoleLevel
      ensures consoleLevel == l
    {
      consoleLevel := l;
    }

    method Flush()
      modifies backend`flushes
      ensures backend.flushes == old(backend.flushes) + 1
    {
      backend.flushes := backend.flushes + 1;
    }

    /** Writes "level :text" to the console when the level is at least as severe as the threshold. */
    method LogToConsole(level: Level, message: string, args: Option<seq<Value>>)
      modifies backend`console
      ensures backend.console
              == old(backend.console) + EchoedLines(backend.format, consoleLevel, level, false, None, message, args)
    {
      if Ordinal(level) <= Ordinal(consoleLevel) {
        var m := match args case None => message case Some(a) => backend.format(message, a);
        backend.console := backend.console + [LevelName(level) + " :" + m];
      }
    }

    /** Builds the record and hands it to the backend. */
    method Log(level: Level, message: string, caller: string, arguments: Option<seq<Value>>, portfolioId: Option<int>)
      modifies backend`records
      ensures backend.records == old(backend.records) + [Record(level, message, caller, arguments, portfolioId)]
    {
      backend.records := backend.records + [Record(level, message, caller, arguments, portfolioId)];
    }

    /**
     * Every uncapped entry point: `forced` selects the Console variant, which
     * always echoes and appends the context id; the plain variant echoes by
     * threshold. The record carries the arguments and the context id.
     * There is no Console variant at Fatal.
     */
    method Write(level: Level, forced: bool, portfolioId: Option<int>, message: string,
                 args: Option<seq<Value>>, file: string, line: nat)
      requires |file| >= RootLen
      requires forced ==> level != Level.Fatal
      modifies backend`console, backend`records
      ensures backend.console
              == old(backend.console) + EchoedLines(backend.format, consoleLevel, level, forced, portfolioId, message, args)
      ensures backend.records
              == old(backend.records) + [Record(level, message, CallerKey(file, line), args, portfolioId)]
    {
      var caller := file[RootLen..] + "(" + NatToString(line) + ")";
      if forced {
        var m := match args case None => message case Some(a) => backend.format(message, a);
        var text := match portfolioId case None => m case Some(id) => m + ":" + IntToString(id);
        backend.console := backend.console + [LevelName(level) + " :" + text];
      } else {
        LogToConsole(level, message, args);
      }
      Log(level, message, caller, args, portfolioId);
    }

    method Fatal(portfolioId: Option<int>, message: string, args: Option<seq<Value>>, file: string, line: nat)
      requires |file| >= RootLen
      modifies backend`console, backend`records
      ensures backend.console
              == old(backend.console) + EchoedLines(backend.format, consoleLevel, Level.Fatal, false, portfolioId, message, args)
      ensures backend.records
              == old(backend.records) + [Record(Level.Fatal, message, CallerKey(file, line), args, portfolioId)]
    {
      Write(Level.Fatal, false, portfolioId, message, args, file, line);
    }

    method Error(portfolioId: Option<int>, message: string, args: Option<seq<Value>>, file: string, line: nat)
      requires |file| >= RootLen
      modifies backend`console, backend`records
      ensures backend.console
              == old(backend.console) + EchoedLines(backend.format, consoleLevel, Level.Error, false, portfolioId, message, args)
      ensures backend.records
              == old(backend.records) + [Record(Level.Error, message, CallerKey(file, line), args, portfolioId)]
    {
      Write(Level.Error, false, portfolioId, message, args, file, line);
    }

    method ErrorConsole(portfolioId: Option<int>, message: string, args: Option<seq<Value>>, file: string, line: nat)
      requires |file| >= RootLen
      modifies backend`console, backend`records
      ensures backend.console
              == old(backend.console) + EchoedLines(backend.format, consoleLevel, Level.Error, true, portfolioId, message, args)
      ensures backend.records
              == old(backend.records) + [Record(Level.Error, message, CallerKey(file, line), args, portfolioId)]
    {
      Write(Level.Error, true, portfolioId, message, args, file, line);
    }

    method Warn(portfolioId: Option<int>, message: string, args: Option<seq<Value>>, file: string, line: nat)
      requires |file| >= RootLen
      modifies backend`console, backend`records
      ensures backend.console
              == old(backend.console) + EchoedLines(backend.format, consoleLevel, Level.Warn, false, portfolioId, message, args)
      ensures backend.records
              == old(backend.records) + [Record(Level.Warn, message, CallerKey(file, line), args, portfolioId)]
    {
      Write(Level.Warn, false, portfolioId, message, args, file, line);
    }

    method WarnConsole(portfolioId: Option<int>, message: string, args: Option<seq<Value>>, file: string, line: nat)
      requires |file| >= RootLen
      modifies backend`console, backend`records
      ensures backend.console
              == old(backend.console) + EchoedLines(backend.format, consoleLevel, Level.Warn, true, portfolioId, message, args)
      ensures backend.records
              == old(backend.records) + [Record(Level.Warn, message, CallerKey(file, line), args, portfolioId)]
    {
      Write(Level.Warn, true, portfolioId, message, args, file, line);
    }

    method Info(portfolioId: Option<int>, message: string, args: Option<seq<Value>>, file: string, line: nat)
      requires |file| >= RootLen
      modifies backend`console, backend`records
      ensures backend.console
              == old(backend.console) + EchoedLines(backend.format, consoleLevel, Level.Info, false, portfolioId, message, args)
      ensures backend.records
              == old(backend.records) + [Record(Level.Info, message, CallerKey(file, line), args, portfolioId)]
    {
      Write(Level.Info, false, portfolioId, message, args, file, line);
    }

    method InfoConsole(portfolioId: Option<int>, message: string, args: Option<seq<Value>>, file: string, line: nat)
      requires |file| >= RootLen
      modifies backend`console, backend`records
      ensures backend.console
              == old(backend.console) + EchoedLines(backend.format, consoleLevel, Level.Info, true, portfolioId, message, args)
      ensures backend.records
              == old(backend.records) + [Record(Level.Info, message, CallerKey(file, line), args, portfolioId)]
    {
      Write(Level.Info, true, portfolioId, message, args, file, line);
    }

    method Trace(portfolioId: Option<int>, message: string, args: Option<seq<Value>>, file: string, line: nat)
      requires |file| >= RootLen
      modifies backend`console, backend`records
      ensures backend.console
              == old(backend.console) + EchoedLines(backend.format, consoleLevel, Level.Trace, false, portfolioId, message, args)
      ensures backend.records
              == old(backend.records) + [Record(Level.Trace, message, CallerKey(file, line), args, portfolioId)]
    {
      Write(Level.Trace, false, portfolioId, message, args, file, line);
    }

    method TraceConsole(portfolioId: Option<int>, message: string, args: Option<seq<Value>>, file: string, line: nat)
      requires |file| >= RootLen
      modifies backend`console, backend`records
      ensures backend.console
              == old(backend.console) + EchoedLines(backend.format, consoleLevel, Level.Trace, true, portfolioId, message, args)
      ensures backend.records
              == old(backend.records) + [Record(Level.Trace, message, CallerKey(file, line), args, portfolioId)]
    {
      Write(Level.Trace, true, portfolioId, message, args, file, line);
    }

    /**
     * A Fatal call capped per call site: the counters move as CapStep says,
     * the console line follows the threshold at the level CapStep picks, and
     * the record goes out at that level WITHOUT the positional parameters.
     */
    method FatalCapped(cap: int32, portfolioId: Option<int>, message: string, args: Option<seq<Value>>,
                       file: string, line: nat)
      requires |file| >= RootLen
      modifies this`fatalCount, backend`console, backend`records
      ensures fatalCount == CapStep(old(fatalCount), CallerKey(file, line), cap).counts
      ensures backend.console
              == old(backend.console)
                 + EchoedLines(backend.format, consoleLevel, CapStep(old(fatalCount), CallerKey(file, line), cap).level,
                               false, None, message, args)
      ensures backend.records
              == old(backend.records)
                 + [Record(CapStep(old(fatalCount), CallerKey(file, line), cap).level, message, CallerKey(file, line),
                           None, portfolioId)]
    {
      var caller := file[RootLen..] + "(" + NatToString(line) + ")";
      if caller !in fatalCount {
        fatalCount := fatalCount[caller := 0];
      }
      var before := fatalCount[caller];
      fatalCount := fatalCount[caller := Increment(before)];
      if before < cap {
        LogToConsole(Level.Fatal, message, args);
        Log(Level.Fatal, message, caller, None, portfolioId);
      } else {
        LogToConsole(Level.Error, message, args);
        Log(Level.Error, message, caller, None, portfolioId);
      }
    }
  }

  /**
   * The logger's static part: the single live instance, if any, and the
   * backend every instance writes to.
   */
  class Singleton {
    const backend: Backend
    var instance: NRLogger?

    ghost predicate Valid()
      reads this
    {
      instance != null ==> instance.backend == backend
    }

    constructor (backend: Backend)
      ensures this.backend == backend && instance == null && Valid()
    {
      this.backend := backend;
      instance := null;
    }

    /** The live instance; fails when Initialise has not been called. */
    method Instance() returns (r: Result<NRLogger, LifecycleError>)
      ensures instance == null <==> r == Failure(NotInitialised)
      ensures instance != null ==> r == Success(instance)
    {
      if instance == null {
        return Failure(NotInitialised);
      }
      return Success(instance);
    }

    /**
     * Installs a fresh logger with the given console threshold (Error by
     * default) and no counters; fails and changes nothing when one is live.
     */
    method Initialise(level: Level := Level.Error) returns (r: Result<NRLogger, LifecycleError>)
      requires Valid()
      modifies this`instance
      ensures Valid()
      ensures old(instance) != null ==> r == Failure(AlreadyInitialised) && instance == old(instance)
      ensures old(instance) == null ==>
                && r.Success? && fresh(r.value) && instance == r.value
                && r.value.consoleLevel == level && r.value.fatalCount == map[]
    {
      if instance != null {
        return Failure(AlreadyInitialised);
      }
      instance := new NRLogger(backend, level);
      return Success(instance);
    }

    /** Flushes the live logger's backend, then drops the instance. */
    method Shutdown()
      requires Valid() && instance != null
      modifies this`instance, backend`flushes
      ensures Valid() && instance == null
      ensures backend.flushes == old(backend.flushes) + 1
    {
      instance.Flush();
      instance := null;
    }
  }
}
