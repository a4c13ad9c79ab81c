# NRLogger in Dafny

This project models `NRLogger`, the logging facade in `Lib.Core`. It is a process-wide singleton that wraps an NLog logger and adds three things:

- **Console echo.** A call writes `"<Level> :<message>"` to the console when its level is at least as severe as a threshold that can be changed at run time. The `*Console` entry points always write, and append `":" + portfolioId` when they are given a context id.
- **Fatal capping.** `FatalCapped(cap, …)` keeps a counter for each call site. A call emits at Fatal while the count before the call is below `cap`, and at Error after that. Every call raises its own site's counter by one, whichever branch it takes.
- **Caller tagging.** Every record sent to the backend carries a `caller` property, `<file minus the build-machine root>(<line>)`.

The model has five modules:

- `Levels`: the `Level` enumeration, its ordinals and the echo test.
- `Callers`: the caller key and the decimal rendering of line numbers. It proves that two sites share a key only when their relative path and line are equal.
- `Capping`: the capping policy as pure functions over `map<string, int32>`, with lemmas about runs of calls.
- `Logger`: the `NRLogger` class and the `Singleton` class. `NRLogger` holds `consoleLevel` and `fatalCount` and updates them in place. `Singleton` holds the static `_instance` that `Initialise` and `Shutdown` set and clear. Both write to a `Backend` object, which stands for the outside world: the console as an appended `seq<string>`, the NLog record stream as an appended `seq<Record>`, a flush counter, and the runtime's `string.Format` as a function-valued constant.
- `Scenarios`: client code that uses only the contracts above: the lifecycle, a run of capped calls from one site tied to the pure capping lemmas, and an end-to-end run.

Points where the model is deliberately exact:

- **Counter wrap-around.** The per-site counter is a C# `int` incremented with unchecked `++`, so it is an `int32` that wraps. `Capping.CounterWraps` shows the effect. The call that finds the counter at 2147483647 still emits at Error, but it wraps the counter to -2147483648. The next call from that site emits at Fatal again, for any cap above -2147483648.
- **Parameters on capped records.** `FatalCapped` formats its arguments for the console but forwards its record to the backend without positional parameters. Every other entry point forwards them.
- **Empty argument lists.** C# `params` passes an empty array, not null, when a call gives no arguments. Arguments are therefore `Option<seq<Value>>`, and `None` stands only for an explicit null.

In three places the model keeps the code's behaviour:

- There is no `FatalConsole` entry point. `Write` therefore requires `forced ==> level != Fatal`.
- `Shutdown` on an uninitialised logger dereferences null. It is modelled as a precondition, not as a `NotInitialised` error.
- The capped records carry no parameters (see above).

## Model

| member | source | states |
|---|---|---|
| `Levels.Ordinal` | Lib.Core/NRLogger.cs:28-35 | the declaration order gives Fatal ordinal 0 and Trace ordinal 4, the extremes of the 0..4 range |
| `Levels.Echoes` | Lib.Core/NRLogger.cs:189-196 | the threshold test `(int)level <= (int)threshold`: Fatal always echoes; Trace echoes iff the threshold is Trace; a threshold of Fatal lets only Fatal through; a level always echoes at its own threshold |
| `Levels.LevelName` | Lib.Core/NRLogger.cs:194 | the enumeration's printed name: non-empty and free of spaces, "Fatal" exactly for Fatal and "Trace" exactly for Trace |
| `Levels.LevelNameInjective` | Lib.Core/NRLogger.cs:194 | different levels print different names |
| `Levels.EchoesMonotone` | Lib.Core/NRLogger.cs:117-120 | moving the threshold towards Trace never silences a level that echoed before |
| `Callers.NatToString` | Lib.Core/NRLogger.cs:244 | the line number in the caller key is rendered as a non-empty string of decimal digits |
| `Callers.DigitsRoundTrip` | Lib.Core/NRLogger.cs:244 | reading the rendered line number back as decimal gives the line number |
| `Callers.NatToStringInjective` | Lib.Core/NRLogger.cs:244 | different line numbers render differently |
| `Callers.IntToString` | Lib.Core/NRLogger.cs:355 | the context id appended on a Console line starts with '-' exactly when the id is negative; the digits (after the '-' for a negative id) read back as the id's absolute value |
| `Callers.IntToStringInjective` | Lib.Core/NRLogger.cs:355 | two context ids render the same iff they are equal |
| `Callers.CallerKey` | Lib.Core/NRLogger.cs:242-244 | the caller key starts with the file path minus the code root, followed by '(' and ending in ')' |
| `Callers.CallerKeyLine` | Lib.Core/NRLogger.cs:242-244 | the characters between the parentheses of a caller key are decimal digits that read back as the line number |
| `Callers.KeySplit` | Lib.Core/NRLogger.cs:244 | a string of the shape `a + "(" + digits + ")"` determines both `a` and the digits |
| `Callers.CallerKeyInjective` | Lib.Core/NRLogger.cs:241-244 | two call sites get the same caller key iff their paths minus the code root and their lines are equal |
| `Capping.Increment` | Lib.Core/NRLogger.cs:273 | unchecked `++` on a C# int: adds one below the maximum and wraps the maximum to the minimum |
| `Capping.CountOf` | Lib.Core/NRLogger.cs:268-271 | a caller key missing from the map counts as 0; a present key counts as its stored value |
| `Capping.CapStep` | Lib.Core/NRLogger.cs:268-282 | one capped call emits at Fatal iff the pre-call count (0 for an unseen key) is below the cap, and at Error otherwise; the key is inserted, its counter is incremented, and every other key keeps its count |
| `Capping.CappedRun` | Lib.Core/NRLogger.cs:268-282 | n capped calls from one site emit n levels, each Fatal or Error; after at least one call the site's key is in the map and no other key is added |
| `Capping.SplitLast` | Lib.Core/NRLogger.cs:268-282 | n + 1 capped calls from one site are the n calls followed by one more capped call, in order |
| `Capping.CappedRunLevels` | Lib.Core/NRLogger.cs:268-282 | if the counter does not wrap, the i-th of n calls from one site emits at Fatal iff start + i < cap; the site's counter ends n higher and other sites' counters are unchanged |
| `Capping.CapFlood` | Lib.Core/NRLogger.cs:268-282 | with cap N, N + k calls from a new site emit exactly N Fatal records followed by k Error records, and leave the counter at N + k |
| `Capping.OtherSiteCountUnchanged` | Lib.Core/NRLogger.cs:268-273 | any number of capped calls from one site leave every other site's counter unchanged |
| `Capping.SitesIndependent` | Lib.Core/NRLogger.cs:268-282 | flooding one site never changes the level of the next capped call from another site |
| `Capping.CounterWraps` | Lib.Core/NRLogger.cs:273 | the call that finds the counter at the int maximum emits at Error and wraps the counter to the int minimum; the next call from that site emits at Fatal again, for any cap above the int minimum |
| `Logger.ConsoleLine` | Lib.Core/NRLogger.cs:194 | a console line is the level's name, then " :", then the text, and its length is the sum of those parts |
| `Logger.ConsoleLineInjective` | Lib.Core/NRLogger.cs:194 | two console lines are equal iff they have the same level and text, so a line gives back its level and text |
| `Logger.Rendered` | Lib.Core/NRLogger.cs:193 | the console text is the template itself when args is null, and the runtime's formatting of the template with args otherwise |
| `Logger.WithContext` | Lib.Core/NRLogger.cs:355 | without a context id the text is unchanged; with one, the text is followed by ':' and the id's decimal rendering |
| `Logger.EchoedLines` | Lib.Core/NRLogger.cs:189-196 | one call writes at most one console line. A Console variant always writes one, with the context id appended. A plain variant writes one iff the level echoes at the threshold, without the context id |
| `Logger.NRLogger.constructor` | Lib.Core/NRLogger.cs:98-103 | a new logger has the given console threshold and no fatal counters |
| `Logger.NRLogger.SetLogToConsoleLevel` | Lib.Core/NRLogger.cs:117-120 | only the threshold changes: the frame excludes the counters and the backend |
| `Logger.NRLogger.Flush` | Lib.Core/NRLogger.cs:124-128 | the backend is flushed once; nothing else changes |
| `Logger.NRLogger.LogToConsole` | Lib.Core/NRLogger.cs:189-196 | appends `"<Level> :" + message` (formatted when args are non-null) iff the level's ordinal is at most the threshold's; otherwise the console is unchanged |
| `Logger.NRLogger.Log` | Lib.Core/NRLogger.cs:198-211 | appends exactly one record, which always carries the caller, carries the context id only when one is given, and carries parameters only when arguments are non-null |
| `Logger.NRLogger.Write` | Lib.Core/NRLogger.cs:239-259 | every uncapped entry point appends exactly its echoed lines to the console and one record with its level, template, caller key, arguments and context id to the backend; the frame leaves the fatal counters untouched |
| `Logger.NRLogger.Fatal` | Lib.Core/NRLogger.cs:239-259 | echoes by threshold (so always, since Fatal is the most severe level) and forwards a Fatal record with its arguments and optional context id |
| `Logger.NRLogger.Error` | Lib.Core/NRLogger.cs:313-333 | echoes by threshold and forwards an Error record with its arguments and optional context id |
| `Logger.NRLogger.ErrorConsole` | Lib.Core/NRLogger.cs:335-357 | always echoes, with ":" + the context id when one is given, and forwards an Error record |
| `Logger.NRLogger.Warn` | Lib.Core/NRLogger.cs:363-383 | echoes by threshold and forwards a Warn record |
| `Logger.NRLogger.WarnConsole` | Lib.Core/NRLogger.cs:385-407 | always echoes, with ":" + the context id when one is given, and forwards a Warn record |
| `Logger.NRLogger.Info` | Lib.Core/NRLogger.cs:413-433 | echoes by threshold and forwards an Info record |
| `Logger.NRLogger.InfoConsole` | Lib.Core/NRLogger.cs:435-457 | always echoes, with ":" + the context id when one is given, and forwards an Info record |
| `Logger.NRLogger.Trace` | Lib.Core/NRLogger.cs:463-483 | echoes by threshold (only at threshold Trace) and forwards a Trace record |
| `Logger.NRLogger.TraceConsole` | Lib.Core/NRLogger.cs:485-507 | always echoes, with ":" + the context id when one is given, and forwards a Trace record |
| `Logger.NRLogger.FatalCapped` | Lib.Core/NRLogger.cs:261-307 | the counters become those of `CapStep`. The console line and the record are at CapStep's level (Fatal below the cap, Error from the cap on). The console line follows the threshold and uses the formatted args. The record carries no parameters but keeps the context id |
| `Logger.Singleton.constructor` | Lib.Core/NRLogger.cs:40 | the process starts with no live instance |
| `Logger.Singleton.Instance` | Lib.Core/NRLogger.cs:48-63 | fails with NotInitialised iff there is no live instance, and otherwise returns that instance |
| `Logger.Singleton.Initialise` | Lib.Core/NRLogger.cs:65-76 | fails with AlreadyInitialised and changes nothing when an instance is live. Otherwise it installs and returns a fresh logger with the given threshold (default Error) and no counters |
| `Logger.Singleton.Shutdown` | Lib.Core/NRLogger.cs:78-90 | requires a live instance, flushes the backend once, then clears the instance |
| `Scenarios.Lifecycle` | Lib.Core/NRLogger.cs:48-90 | Instance before Initialise fails. Initialise then Instance return the same logger. A second Initialise fails. After Shutdown, Initialise succeeds again with a new logger |
| `Scenarios.CappedFlood` | Lib.Core/NRLogger.cs:261-283 | n FatalCapped calls from one site leave the logger's counters as CappedRun says and write n records whose levels are CappedRun's levels. Every record carries the site's key and the context id, and no parameters |
| `Scenarios.CappedFloodFromNewSite` | Lib.Core/NRLogger.cs:261-283 | with cap N, N + k FatalCapped calls from a site that has not called before write N records at Fatal followed by k at Error, and leave its counter at N + k |
| `Scenarios.EndToEnd` | Lib.Core/NRLogger.cs:261-283 | at threshold Warn: Info, ErrorConsole and three FatalCapped(2) calls from one site give records at Info, Error, Fatal, Fatal, Error. The console gets exactly four lines, in order: Error for ErrorConsole, then Fatal, Fatal, Error for the capped calls. Info writes none |

## Left out

- `GetLogFileName` (Lib.Core/NRLogger.cs:130-178) is not modelled. It reads NLog's configuration and target types and checks the file system.
- `PreNLogInit` (Lib.Core/NRLogger.cs:105-115) is not modelled. It uses reflection and assembly loading.
- NLog's own handling of a record is not modelled: rendering, targets, rules, the logger name and the timestamp. `Log` ends at "record appended to the backend", and `Flush` ends at "flush count incremented".
- `string.Format` is not modelled. It is the `format` function of the backend, applied when the arguments are non-null. A template whose placeholders do not match the arguments makes .NET throw, and the model does not capture that exception.
- Stack inspection (`new StackFrame(1, true)`) is not modelled. The file and line of the call site are inputs. A file path shorter than the code root makes `Substring` throw, so it is excluded by a precondition. A null file name (no debug symbols) is not modelled.
- Locking (`lock (_syncRoot)`), `volatile`, and the race between `Instance` and `Shutdown` described at Lib.Core/NRLogger.cs:80-84 are not modelled. The model is sequential.
- The commented-out overloads (Lib.Core/NRLogger.cs:217-237) are not compiled in the source, so they are not modelled.
- `Logger.Singleton.Shutdown`: on an uninitialised logger the source throws a `NullReferenceException` at Lib.Core/NRLogger.cs:87. The model makes a live instance a precondition instead of modelling that exception.
- Context ids are unbounded integers. The 32-bit range of a C# `int` only matters for the counters, which are modelled as `int32`.
- NLogSlack/Program.cs is not modelled. It is a demo that only calls the logger.
