# swarm_logger core, modelled in Dafny

This project models the three self-contained parts of the swarm_logger library:

- **The daemon lifecycle controller** (`Lifecycle`, `lifecycle.dfy`).
  - An `Application` holds the option descriptors, the name→callback map, the stop flag and the init, uninit, reinit and terminate callbacks.
  - A `Daemon` bound to it runs the stages. It handles the parsed options, initialises, starts the worker, waits for signals, then shuts down and uninitialises.
  - Signals arrive as a `seq<Signal>`. Callbacks are tagged values, and each invocation appends an `Event` to the application's `trace`.
  - The configuration getters' failure translation (not found or syntax error) is a pure function.
- **The self-healing log sink** (`Logging`, `logging.dfy`).
  - A `Logger` class has the source's fields. Each method is proved equal to a pure transition function on a `LoggerState` value: `AfterOpen`, `AfterClose`, `AfterSetPriority`, `AfterVerify` and `AfterEmit`. The lemmas state the source's promises about those functions.
  - The rest of the world comes in as parameters:
    - the clock is `now`;
    - whether the file exists is `fileExists`;
    - whether the file channel can be built is `channelOk`.
  - The logging library's registry of named channels, restricted to this logger's names, is the field `channels`. The messages handed to channels are the field `lines`.
  - `DefaultLogger` is the process-wide default-instance slot.
- **The exception value type** (`Exceptions`, `exceptions.dfy`).
  - A 45-kind enumeration carries the declared parent relation and the fixed name table.
  - One `Exception` datatype carries the class, the message, the code and the nested cause, which is a recursive `Option<Exception>`.
  - Constructors, copy, assignment, `what()` and `displayText()` are functions on it.
  - An exception is a value with copy semantics (the nested chain is deep-copied on every copy), so it is modelled as a datatype, not a class.

`wrappers.dfy` holds `Option`. It stands for an empty `boost::function`, a null pointer and a missing entry. `decimal.dfy` holds the decimal rendering of the instance count used in internal names.

Where the header and the implementation disagree, the model follows the implementation:

- `addOption` takes the `repeatable` parameter that the header's declarations lack.
- `main` uses a terminate callback that the header does not declare. Nothing sets it, and it is modelled as a field with no setter.

Some behaviour of the code is worth spelling out:

- **No duplicate-name check in `Application`.** Registering the same option name twice is not detected by `addOption`. Both descriptors are kept, and the map keeps the later callback.
- **`willLog` compares with `<=`.** A message passes when its priority value is at most the threshold's, so FATAL always passes. The header comment says `>=`.
- **A second `open` fails and closes the first channel.** The library refuses to create a second channel under the same name, so calling `open` on an open logger without closing it takes the failure path. That path's `close()` also destroys the channel that was already open.
- **The main loop calls the reinit callback directly.** It does not go through `reinitialize()`, so no base reinitialisation happens and no stop-flag check is made there.

## Model

| member | source | states |
|---|---|---|
| `Exceptions.Parent` | include/swarm/Exception.h:263-310 | every kind except the base has exactly one declared parent |
| `Exceptions.ParentIsOneLevelUp` | include/swarm/Exception.h:263-310 | the parent of a kind sits one level closer to the base class |
| `Exceptions.Name` | src/common/Exception.cpp:115-118 | each class has its fixed, non-empty name (the table at Exception.cpp:159-206) |
| `Exceptions.DerivesFromBase` | include/swarm/Exception.h:263-310 | every class derives from `Exception` |
| `Exceptions.IsATransitive` | include/swarm/Exception.h:263-310 | derivation is transitive |
| `Exceptions.IsADepth` | include/swarm/Exception.h:263-310 | a class derives only from classes no deeper than itself, and at equal depth only from itself (no cycles) |
| `Exceptions.DeclaredChains` | include/swarm/Exception.h:275-310 | the declared parents along PathSyntax→Syntax→Data→Runtime→Exception, Net→IO→Runtime and NotFound→Runtime |
| `Exceptions.IsAStep` | include/swarm/Exception.h:263-310 | below the root, a class derives from another class exactly when its parent does |
| `Exceptions.DeclaredDerivations` | include/swarm/Exception.h:275-310 | PathSyntax, Syntax, Net and NotFound are all RuntimeExceptions |
| `Exceptions.SeparateBranches` | include/swarm/Exception.h:275-310 | a Net exception is not a File exception, and a NotFound exception is not a Logic exception |
| `Exceptions.Make` | src/common/Exception.cpp:27-29 | `CLS(code = 0)`: no message, no cause, code as given (0 by default); what() and displayText() are the class name |
| `Exceptions.WithMessage` | src/common/Exception.cpp:32-34 | `CLS(msg, code)`: stores the message as given (an empty one included) and the code, no cause; what() is the message when it is non-empty |
| `Exceptions.WithArgument` | src/common/Exception.cpp:37-44 | message is `msg + ": " + arg` when `arg` is non-empty and `msg` otherwise; no cause |
| `Exceptions.WithNested` | src/common/Exception.cpp:47-49 | stores message and code; the cause is an exact copy of `nested` (whole chain), so the chain is one longer than nested's |
| `Exceptions.Clone` | include/swarm/Exception.h:194-197 | `clone()`: same class, message, code, and a cause exactly when the original has one |
| `Exceptions.CloneIsCopy` | src/common/Exception.cpp:52-58 | copying reproduces the whole nested chain: the clone equals the original |
| `Exceptions.CopyAs` | include/swarm/Exception.h:175-177 | copy construction into a base class that the source's class derives from gives that base class with the same message, code and cause |
| `Exceptions.FromStd` | src/common/Exception.cpp:60-65 | built from a `std::exception`: message is its what(), code 0, no cause |
| `Exceptions.FromSystemError` | src/common/Exception.cpp:67-73 | built from a `system_error`: message is its what(), code is its error value, no cause |
| `Exceptions.Assign` | src/common/Exception.cpp:81-91 | `operator=`: the target keeps its class and takes message, code and the copied cause chain |
| `Exceptions.AssignSelf` | src/common/Exception.cpp:83 | self-assignment changes nothing |
| `Exceptions.AssignStd` | src/common/Exception.cpp:94-104 | assignment from a `std::exception`: unchanged when it is the object itself, otherwise message what(), code 0, no cause, class kept |
| `Exceptions.AssignSystemError` | src/common/Exception.cpp:106-113 | assignment from a `system_error`: message what(), code its value, no cause, class kept |
| `Exceptions.What` | src/common/Exception.cpp:127-132 | `what()` is never empty: the message if there is one, else the class name |
| `Exceptions.DisplayText` | src/common/Exception.cpp:135-144 | the class name, followed by `": " + message` exactly when the message is non-empty |
| `Exceptions.ComposedMessageIgnoresKind` | include/swarm/Exception.h:162-177 | subclasses forward their arguments unchanged: two classes built from the same arguments differ only in class |
| `Exceptions.DisplayTextOfArgument` | src/common/Exception.cpp:37-44 | an exception built from message and argument displays as `name: msg: arg` |
| `Decimal.NatToString` | src/Logger.cpp:68-70 | a count is written as a non-empty string of decimal digits, most significant first, that denotes the count and has no leading zero (one digit exactly below 10) |
| `Decimal.NatToStringInjective` | src/Logger.cpp:298-301 | distinct counts are written differently |
| `Logging.Increment` | src/Logger.cpp:298 | `++` on an `unsigned int`: plus one, wrapping to 0 after 2^32-1 |
| `Logging.Value` | include/swarm/Logger.h:35-45 | each priority's numeric value lies in 1..8 |
| `Logging.PrioritiesConsecutive` | include/swarm/Logger.h:35-45 | FATAL is 1, TRACE is 8, values are distinct and consecutive |
| `Logging.AdmitsMonotone` | src/Logger.cpp:177-180 | a more severe message passes whenever a less severe one does; FATAL always passes; TRACE passes only at TRACE |
| `Logging.InternalNameInjective` | src/Logger.cpp:298-301 | different instance counts give different internal names |
| `Logging.CloseIdempotent` | src/Logger.cpp:161-165 | closing twice equals closing once; afterwards no path is bound and no channel is registered under the internal name |
| `Logging.OpenOutcome` | src/Logger.cpp:103-159 | settings are recorded first; success iff the channel can be built and the name is free; on success exactly one notice `Logger::open(<internal>) path: <path>` is handed to the channel (whose own level filter may drop it) and the channel carries the settings; on failure the sink is closed and nothing is handed on |
| `Logging.ReopenWithoutCloseFails` | src/Logger.cpp:133-156 | opening an open logger fails and destroys the open channel |
| `Logging.OpenAfterClose` | src/Logger.cpp:133-159 | after `close`, `open` succeeds exactly when the channel can be built |
| `Logging.SetPriorityGovernsFilter` | src/Logger.cpp:167-180 | after `setPriority(p)` the filter admits exactly the priorities at least as severe as `p` |
| `Logging.VerifyWithinTtl` | src/Logger.cpp:283-286 | within 5 seconds of the last check, it answers true and changes nothing |
| `Logging.VerifyAfterTtl` | src/Logger.cpp:288-306 | past the window with the file present or no path bound, it records the time and answers whether a path is bound |
| `Logging.VerifyHeals` | src/Logger.cpp:290-303 | file missing past the window: old channel destroyed, count +1, fresh internal name, reopen at the same path with the same priority, format and purge count; answer is whether the reopen succeeded |
| `Logging.HealedNameIsNew` | src/Logger.cpp:298-301 | the regenerated internal name differs from every earlier one |
| `Logging.OperationsKeepConsistent` | include/swarm/Logger.h:190-197 | every operation keeps the name, keeps the internal name minted from the count, and leaves no earlier name registered |
| `Logging.CloseKeepsConsistent` | src/Logger.cpp:161-165 | after `close` no channel is registered under any of the logger's names |
| `Logging.OpenKeepsConsistent` | src/Logger.cpp:103-159 | `open` registers a channel only under the current internal name |
| `Logging.VerifyKeepsConsistent` | src/Logger.cpp:278-307 | the file check, healing included, keeps the internal name minted from the count and registers nothing under an older name |
| `Logging.EmitGate` | src/Logger.cpp:182-276 | a filtered message changes nothing (the file check is not run); otherwise the message is forwarded once exactly when the check succeeds and a channel is registered |
| `Logging.LinesOnlyGrow` | src/Logger.cpp:182-307 | forwarded messages are only appended |
| `Logging.Created` | src/Logger.cpp:63-71 | a new logger's internal name is `name + "-0"` |
| `Logging.WarningThresholdScenario` | src/Logger.cpp:86-92 | opened at WARNING: a DEBUG message hands nothing to the channel and an ERROR message hands it exactly its text |
| `Logging.SelfHealScenario` | src/Logger.cpp:278-307 | after the file is deleted, an emit reopens the path as `SwarmLogger-1` and hands the new channel the open notice and then the message |
| `Logging.Logger.constructor` | src/Logger.cpp:63-71 | count 0, last check time 0, internal name `name-0`, nothing open |
| `Logging.Logger.Open` | src/Logger.cpp:79-84 | `open(path)` is the full open with INFORMATION, `%h-%M-%S.%i: %t` and purge count 0 |
| `Logging.Logger.OpenWithPriority` | src/Logger.cpp:86-92 | `open(path, priority)` uses the default format and purge count |
| `Logging.Logger.OpenWithFormat` | src/Logger.cpp:94-101 | `open(path, priority, format)` uses the default purge count |
| `Logging.Logger.OpenWithPurgeCount` | src/Logger.cpp:103-159 | the full open, as `AfterOpen` |
| `Logging.Logger.Close` | src/Logger.cpp:161-165 | as `AfterClose` |
| `Logging.Logger.SetPriority` | src/Logger.cpp:167-175 | new threshold, also given to the registered channel if any |
| `Logging.Logger.WillLog` | src/Logger.cpp:177-180 | true iff the priority's value is at most the threshold's (at INFORMATION: all but DEBUG and TRACE) |
| `Logging.Logger.VerifyLogFile` | src/Logger.cpp:278-307 | as `AfterVerify` |
| `Logging.Logger.Emit` | src/Logger.cpp:182-192 | the common emit body, as `AfterEmit` |
| `Logging.Logger.LogFatal` | src/Logger.cpp:182-192 | `fatal` emits at FATAL |
| `Logging.Logger.LogCritical` | src/Logger.cpp:194-204 | `critical` emits at CRITICAL |
| `Logging.Logger.LogError` | src/Logger.cpp:206-216 | `error` emits at ERROR |
| `Logging.Logger.LogWarning` | src/Logger.cpp:218-228 | `warning` emits at WARNING |
| `Logging.Logger.LogNotice` | src/Logger.cpp:230-240 | `notice` emits at NOTICE |
| `Logging.Logger.LogInformation` | src/Logger.cpp:242-252 | `information` emits at INFORMATION |
| `Logging.Logger.LogDebug` | src/Logger.cpp:254-264 | `debug` emits at DEBUG |
| `Logging.Logger.LogTrace` | src/Logger.cpp:266-276 | `trace` emits at TRACE |
| `Logging.DefaultLogger.constructor` | src/Logger.cpp:46 | the slot starts empty |
| `Logging.DefaultLogger.Instance` | src/Logger.cpp:48-55 | creates a fresh logger named `SwarmLogger` on first use, then returns the same object until released |
| `Logging.DefaultLogger.ReleaseInstance` | src/Logger.cpp:57-61 | closes the default logger (its destructor calls `close`) and empties the slot; on an empty slot does nothing |
| `Lifecycle.AddOptionKeepsRegistry` | src/application/Application.cpp:183-234 | after any `addOption`, options flagged with a callback and the callback map stay in one-to-one step |
| `Lifecycle.DuplicateNameKeepsBoth` | src/application/Application.cpp:190-196 | registering a name twice keeps both descriptors in order and the later callback; other names are untouched |
| `Lifecycle.DispatchRunsOnce` | src/application/Application.cpp:236-241 | `handleConfig` calls the registered callback exactly once; for an unregistered name it does nothing |
| `Lifecycle.FlaggedOptionsDispatch` | src/application/Application.cpp:183-241 | with descriptors and callbacks kept in step by `addOption`, `handleConfig` runs a callback for a name exactly when an option declared with a callback has that full name |
| `Lifecycle.UnregisteredNamesAreIgnored` | src/application/Application.cpp:236-241 | dispatching only unregistered names changes neither the stop flag nor the trace |
| `Lifecycle.LeadingHangups` | src/application/Application.cpp:142-148 | counts exactly the SIGHUPs before the first other signal |
| `Lifecycle.StopSkipsEverything` | src/application/Application.cpp:64-87 | with the stop flag set, initialize, reinitialize, uninitialize and main do nothing |
| `Lifecycle.StagesRunInOrder` | src/application/Application.cpp:67-91 | config load, then base init, then the init callback; the uninit callback, then base uninit; each callback once if set |
| `Lifecycle.MainShape` | src/application/Application.cpp:138-158 | the worker is started first; one reinit run per leading SIGHUP when a reinit callback is set; the terminate callback (if set) runs right before cancel, and join comes last |
| `Lifecycle.MainCounts` | src/application/Application.cpp:138-148 | the worker is started exactly once, and the reinit callback runs exactly as often as there are leading SIGHUPs |
| `Lifecycle.MainIsOrdered` | src/application/Application.cpp:136-161 | main's events follow the stage order |
| `Lifecycle.RunIsOrdered` | src/application/Application.cpp:62-161 | a whole run's events follow the stage order |
| `Lifecycle.ExampleDaemonScenario` | src/application/Application.cpp:142-148 | with all three callbacks set, SIGHUP, SIGHUP, SIGTERM gives init, worker, two reinit calls, cancel, join, uninit |
| `Lifecycle.RunTask` | src/application/Application.cpp:38-42 | the worker calls its own main callback exactly once, with its own arguments, and nothing when main is empty; the result is dropped |
| `Lifecycle.DefaultOption` | include/swarm/Application.h:56-64 | `Option()`: empty short name, full name, description and argument name; `required`, `argRequired` and `hasCallback` false; `repeatable` left uninitialised (any value) |
| `Lifecycle.Application.constructor` | src/application/Application.cpp:170-175 | no options, no callbacks, stop flag clear, daemon bound to this application |
| `Lifecycle.Application.AddOption` | src/application/Application.cpp:183-197 | appends one descriptor with the given names, description and `repeatable`, `required` false, no argument; map updated only when a callback is given |
| `Lifecycle.Application.AddRequiredOption` | src/application/Application.cpp:199-214 | as `AddOption`, also recording `required` |
| `Lifecycle.Application.AddArgumentOption` | src/application/Application.cpp:216-234 | as `AddRequiredOption`, also recording the argument name and whether it is required |
| `Lifecycle.Application.SetInitCallback` | include/swarm/Application.h:155-158 | replaces only the init callback |
| `Lifecycle.Application.SetUninitCallback` | include/swarm/Application.h:160-163 | replaces only the uninit callback |
| `Lifecycle.Application.SetReinitCallback` | include/swarm/Application.h:165-168 | replaces only the reinit callback |
| `Lifecycle.Application.HandleConfig` | src/application/Application.cpp:236-241 | as `Dispatch`: touches only the stop flag and the trace |
| `Lifecycle.Application.Run` | src/application/Application.cpp:243-247 | stores the main callback, dispatches the options, runs the stages; the exit code is EXIT_OK (for options that parsed); the signal stream needs to end the wait only when the options leave the stop flag clear |
| `Lifecycle.Daemon.constructor` | src/application/Application.cpp:52-55 | binds the daemon to its application |
| `Lifecycle.Daemon.Initialize` | src/application/Application.cpp:62-72 | as `InitializeEvents` |
| `Lifecycle.Daemon.Reinitialize` | src/application/Application.cpp:74-82 | as `ReinitializeEvents` |
| `Lifecycle.Daemon.Uninitialize` | src/application/Application.cpp:84-92 | as `UninitializeEvents` |
| `Lifecycle.Daemon.DefineOptions` | src/application/Application.cpp:94-112 | the base options unchanged, then one parser option per descriptor in order, carrying its fields and bound to `handleConfig` iff it has a callback |
| `Lifecycle.Daemon.Serve` | src/application/Application.cpp:133-162 | `main`: always EXIT_OK; with the stop flag set no worker and no events; otherwise the worker for the main callback and arguments, the events of `MainEvents`, and the signals taken: the leading SIGHUPs plus the one that ends the loop, or just one when no reinit callback is set |
| `Lifecycle.Daemon.AwaitTermination` | src/application/Application.cpp:142-148 | the wait loop runs the reinit callback once per leading SIGHUP and takes the leading SIGHUPs plus the signal that ends it (one signal when no reinit callback is set) |
| `Lifecycle.Daemon.Shutdown` | src/application/Application.cpp:151-157 | the terminate callback if set, then cancel, then join |
| `Lifecycle.Daemon.Run` | src/application/Application.cpp:243-247 | option dispatches, then initialize, main, uninitialize, with the stop flag the options left; when that flag is set, any signal stream (even an empty one) is accepted, since main never waits |
| `Lifecycle.Daemon.HandleOptions` | src/application/Application.cpp:236-241 | each parsed option is dispatched in order |
| `Lifecycle.ThrownByGetter` | src/application/Application.cpp:269-441 | the exceptions a getter throws are RuntimeExceptions with no message, code 0 and no cause |
| `Lifecycle.FailureTranslation` | src/application/Application.cpp:269-441 | only the defaulted string getters pass the store's failure through; the rest throw NotFound (string getters without default, or a missing key for the typed getters without default) or Syntax (otherwise), always a RuntimeException with no message (so what() is the class name), code 0 and no cause |

## Left out

- Signal plumbing and threads are not modelled: `sigprocmask`/`sigwait`, the task manager's threads, and what `cancelAll`/`joinAll` do. The input `signals` is the sequence of results `sigwait` returns, not the sequence of signals sent: standard signals do not queue, so SIGHUPs arriving while the reinit callback runs collapse into one result. Starting, cancelling and joining are trace events. The worker's own run (`RunTask`) happens on another thread and is not interleaved into the trace.
- The non-Unix branch of `main`, which waits for one request without a loop, is left out because it is a different build.
- Lifecycle.Daemon.Serve, Lifecycle.Daemon.Run and Lifecycle.Application.Run require that the signal stream eventually ends the wait loop whenever main waits (stop flag clear after the options). Otherwise the real daemon blocks for ever.
- Lifecycle.Application.Run, Lifecycle.Daemon.Run: the exit code is stated only for runs whose command line the server application library parsed. `run` returns that library's exit code, which is not EXIT_OK when parsing fails (an unknown option, a missing required option, a non-repeatable option given twice); the parser is not part of this model, so those failures are not modelled.
- Whether the server application library's option set refuses a second option with the same full name (which would make `run` fail after a duplicate `addOption`) is not modelled; the library is not part of this model.
- Exceptions thrown by the logging library are not modelled: when the open notice is filtered out by the threshold, the file is first created at the first forwarded message, and a file that cannot be created then throws out of the emit call; the model treats that as a channel that cannot be built.
- Exceptions thrown by the option, init, reinit, uninit or terminate callbacks are not modelled. The source catches none of them in `handleConfig`, `initialize`, `reinitialize`, `uninitialize` or `main`, so they propagate out of `run`; in the model callbacks never throw.
- The server application library is not part of this model:
  - the order in which it dispatches parsed options and then calls initialize, main and uninitialize is taken from that library's documented behaviour;
  - its command-line parser is replaced by the list of (name, value) pairs it dispatches;
  - loading configuration and base (re/un)initialisation are single events;
  - help formatting (`formatHelp`), `loadConfiguration(path)`, `hasProperty`, the `set*` and `keys` pass-throughs, and the values the getters return (parsing, `${}` expansion, floating point in `getDouble`) are left out; only the getters' failure translation is modelled.
- The application's callbacks are modelled as events with no effect on the application, except that an option callback may change the stop flag. The terminate callback has no setter in the source, and none in the model.
- Memory management is not modelled: the `Application` destructor deleting the daemon, the assertion that only one daemon exists, and the raw-pointer ownership of nested exceptions.
- Exceptions.Assign: exceptions are values here, so aliasing is not captured. In the source (src/common/Exception.cpp:81-91) `e = *e.nested()` deletes `_pNested` before reading the message and cause of the object it is copying from, which is then freed memory; the model's assignment from a cause is well defined.
- The logging library's objects are not modelled: the file channel, the pattern formatter, the channel's own level filter and the log file's contents. A forwarded message is a `Line` recorded by channel name. The error messages written to standard error on a failed open are also left out.
- The library registry is global, so two loggers with the same name would share internal names. The model keeps one registry per logger.
- The branch where the registry finds no channel right after creating one is left out, because it cannot happen.
- The log-rotation settings in `open` are guarded by a constant that is 0, so they are never applied. The unused fields `_enableCompression` and `_enableVerfication` are also left out.
- Logging.HealedNameIsNew: proved only while the instance count is below 2^32-1. At that point `++` wraps to 0 and `SwarmLogger-0` comes back.
- Arithmetic overflow of `now - _lastVerifyTime` on `time_t` is not modelled; time is an unbounded integer.
- The logger getters (`getName`, `getPath`, `getPriority`, `getLogFormat`, `getPurgeCount`) are the `Logger` fields themselves. `name` is a `const`, so it never changes. The application accessors (`options`, `optionCallbacks`, `mainCallback`, `stopProcessing`) are likewise the `Application` fields.
- Exceptions: `className()` depends on the compiler's `typeid` names, and `rethrow()` is control flow, so both are left out. `SWARM_CREATE_INLINE_EXCEPTION` declares no class of this hierarchy.
- Exceptions: the exact name-to-class lookup (the inverse of `Name`) is not proved.
