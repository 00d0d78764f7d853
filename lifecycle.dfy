/** The daemon lifecycle controller and its option registry.

    An `Application` collects option descriptors and callbacks; the `Daemon`
    it owns is the server application that the option parser, the
    initialisation stages and the signal loop run in. Signals arrive as an
    input sequence, the callbacks are tagged values whose invocations are
    appended as events to the application's `trace`, and the worker thread is
    the `Worker` value that `main` starts. */
module Lifecycle {

  import opened Wrappers
  import Exceptions

  /** `Daemon::EXIT_OK`. */
  const ExitOk := 0

  /** The signals the daemon waits for. */
  datatype Signal = SIGHUP | SIGINT | SIGQUIT | SIGTERM

  /** `Application::Option`: one command-line option as the application
      describes it. */
  datatype OptionDesc = OptionDesc(
    shortName: string,
    fullName: string,
    description: string,
    argName: string,
    required: bool,
    repeatable: bool,
    argRequired: bool,
    hasCallback: bool)

  /** `Option()`: empty strings and false flags, except `_repeatable`, which
      the constructor leaves uninitialised: it holds whatever `garbage` is. */
  function DefaultOption(garbage: bool): (o: OptionDesc)
    ensures o.shortName == [] && o.fullName == [] && o.description == [] && o.argName == []
    ensures !o.required && !o.argRequired && !o.hasCallback
    ensures o.repeatable == garbage
  {
    OptionDesc([], [], [], [], false, garbage, false, false)
  }

  /** A non-empty `OptionCallback`: called with the option's name, its value
      and the stop flag, which `effect` says what the callback leaves it as. */
  datatype OptionCallback = OptionCallback(tag: nat, effect: (string, string, bool) -> bool)

  /** A non-empty `InitCallback` (init, uninit, reinit and terminate). */
  datatype Hook = Hook(tag: nat)

  /** A non-empty `MainCallback`. */
  datatype MainCallback = MainCallback(tag: nat, body: seq<string> -> int)

  /** What the controller does, in the order it does it. */
  datatype Event =
    | OptionHandled(tag: nat, name: string, value: string)
    | ConfigurationLoaded
    | BaseInitialized
    | InitHookRan(tag: nat)
    | BaseReinitialized
    | ReinitHookRan(tag: nat)
    | WorkerStarted(args: seq<string>)
    | MainRan(tag: nat, args: seq<string>)
    | TerminateHookRan(tag: nat)
    | WorkersCancelled
    | WorkersJoined
    | UninitHookRan(tag: nat)
    | BaseUninitialized

  /** The descriptor an `addOption` call appends (`required`, `argName` and
      `argRequired` keep the `Option()` defaults in the shorter overloads). */
  function Described(fullName: string, shortName: string, description: string, repeatable: bool,
                     required: bool, argName: string, argRequired: bool,
                     callback: Option<OptionCallback>): OptionDesc
  {
    OptionDesc(shortName, fullName, description, argName, required, repeatable, argRequired, callback.Some?)
  }

  /** The callback map after an `addOption` call. */
  function Registered(callbacks: map<string, OptionCallback>, fullName: string,
                      callback: Option<OptionCallback>): map<string, OptionCallback>
  {
    if callback.Some? then callbacks[fullName := callback.value] else callbacks
  }

  /** Every option flagged with a callback has one in the map, and every
      callback in the map belongs to an option flagged with one. */
  ghost predicate CallbacksRegistered(options: seq<OptionDesc>, callbacks: map<string, OptionCallback>)
  {
    && (forall i :: 0 <= i < |options| && options[i].hasCallback ==> options[i].fullName in callbacks)
    && (forall name :: name in callbacks ==>
          exists i :: 0 <= i < |options| && options[i].hasCallback && options[i].fullName == name)
  }

  /** An `addOption` call keeps options and callbacks in step, whatever the
      name, including one registered before. */
  lemma {:induction false} AddOptionKeepsRegistry(options: seq<OptionDesc>, callbacks: map<string, OptionCallback>,
                                                  desc: OptionDesc, callback: Option<OptionCallback>)
    requires CallbacksRegistered(options, callbacks)
    requires desc.hasCallback == callback.Some?
    ensures CallbacksRegistered(options + [desc], Registered(callbacks, desc.fullName, callback))
  {
    var o := options + [desc];
    var m := Registered(callbacks, desc.fullName, callback);
    forall name | name in m
      ensures exists i :: 0 <= i < |o| && o[i].hasCallback && o[i].fullName == name
    {
      if callback.Some? && name == desc.fullName {
        assert o[|options|] == desc;
      } else {
        var i :| 0 <= i < |options| && options[i].hasCallback && options[i].fullName == name;
        assert o[i] == options[i];
      }
    }
    forall i | 0 <= i < |o| && o[i].hasCallback
      ensures o[i].fullName in m
    {
      if i < |options| {
        assert o[i] == options[i];
      }
    }
  }

  /** Registering the same full name twice keeps both descriptors, in order,
      and the map keeps the later callback (the earlier one if the later call
      gives none): there is no collision check. */
  lemma DuplicateNameKeepsBoth(options: seq<OptionDesc>, callbacks: map<string, OptionCallback>,
                               fullName: string, first: OptionDesc, second: OptionDesc,
                               cb1: Option<OptionCallback>, cb2: Option<OptionCallback>)
    requires first.fullName == fullName && second.fullName == fullName
    ensures var o := options + [first] + [second];
      |o| == |options| + 2 && o[|options|] == first && o[|options| + 1] == second
    ensures var m := Registered(Registered(callbacks, fullName, cb1), fullName, cb2);
      && (cb2.Some? ==> m[fullName] == cb2.value)
      && (cb2.None? && cb1.Some? ==> m[fullName] == cb1.value)
      && (cb1.None? && cb2.None? ==> m == callbacks)
      && m.Keys - {fullName} == callbacks.Keys - {fullName}
  {
  }

  /** What `handleConfig(name, value)` does to the stop flag and the trace:
      the registered callback runs once with the flag; an unregistered name
      changes nothing. */
  function Dispatch(callbacks: map<string, OptionCallback>, name: string, value: string,
                    stop: bool): (bool, seq<Event>)
  {
    if name in callbacks then
      (callbacks[name].effect(name, value, stop), [OptionHandled(callbacks[name].tag, name, value)])
    else
      (stop, [])
  }

  /** A dispatch records at most one event, exactly when a callback is
      registered under the name, and only the callback can change the flag. */
  lemma DispatchRunsOnce(callbacks: map<string, OptionCallback>, name: string, value: string, stop: bool)
    ensures |Dispatch(callbacks, name, value, stop).1| <= 1
    ensures Dispatch(callbacks, name, value, stop).1 == [] <==> name !in callbacks
    ensures name !in callbacks ==> Dispatch(callbacks, name, value, stop).0 == stop
    ensures name in callbacks ==>
      multiset(Dispatch(callbacks, name, value, stop).1)[OptionHandled(callbacks[name].tag, name, value)] == 1
  {
  }

  /** With options and callbacks in step, `handleConfig` runs a callback for
      a name exactly when some option declared with a callback has that full
      name. */
  lemma FlaggedOptionsDispatch(options: seq<OptionDesc>, callbacks: map<string, OptionCallback>,
                               name: string, value: string, stop: bool)
    requires CallbacksRegistered(options, callbacks)
    ensures (exists i :: 0 <= i < |options| && options[i].hasCallback && options[i].fullName == name)
      <==> |Dispatch(callbacks, name, value, stop).1| == 1
  {
    if name in callbacks {
      assert |Dispatch(callbacks, name, value, stop).1| == 1;
    } else {
      assert Dispatch(callbacks, name, value, stop).1 == [];
    }
  }

  /** The stop flag after the option parser dispatches `given` in order. */
  function StopAfter(callbacks: map<string, OptionCallback>, given: seq<(string, string)>, stop: bool): bool
  {
    if given == [] then stop
    else
      var last := given[|given| - 1];
      Dispatch(callbacks, last.0, last.1, StopAfter(callbacks, given[..|given| - 1], stop)).0
  }

  /** The events of those dispatches. */
  function Handled(callbacks: map<string, OptionCallback>, given: seq<(string, string)>, stop: bool): seq<Event>
  {
    if given == [] then []
    else
      var last := given[|given| - 1];
      Handled(callbacks, given[..|given| - 1], stop)
        + Dispatch(callbacks, last.0, last.1, StopAfter(callbacks, given[..|given| - 1], stop)).1
  }

  /** Dispatching names no callback is registered under leaves the flag and
      the trace alone. */
  lemma {:induction false} UnregisteredNamesAreIgnored(callbacks: map<string, OptionCallback>,
                                                       given: seq<(string, string)>, stop: bool)
    requires forall i :: 0 <= i < |given| ==> given[i].0 !in callbacks
    ensures StopAfter(callbacks, given, stop) == stop
    ensures Handled(callbacks, given, stop) == []
  {
    if given != [] {
      UnregisteredNamesAreIgnored(callbacks, given[..|given| - 1], stop);
    }
  }

  /** `n` copies of `e`. */
  function Repeat(e: Event, n: nat): (r: seq<Event>)
    ensures |r| == n
    ensures forall i :: 0 <= i < n ==> r[i] == e
  {
    if n == 0 then [] else Repeat(e, n - 1) + [e]
  }

  lemma {:induction false} RepeatCount(e: Event, n: nat, x: Event)
    ensures multiset(Repeat(e, n))[x] == if x == e then n else 0
  {
    if n > 0 {
      RepeatCount(e, n - 1, x);
    }
  }

  /** The number of SIGHUPs at the head of the stream. */
  function LeadingHangups(signals: seq<Signal>): (n: nat)
    ensures n <= |signals|
    ensures forall i :: 0 <= i < n ==> signals[i] == SIGHUP
    ensures n < |signals| ==> signals[n] != SIGHUP
  {
    if signals == [] || signals[0] != SIGHUP then 0 else 1 + LeadingHangups(signals[1..])
  }

  /** The stream holds a signal that ends the wait loop: any signal when no
      reinit callback is set, otherwise one other than SIGHUP. */
  predicate WaitEnds(signals: seq<Signal>, reinit: Option<Hook>)
  {
    |signals| > 0 && (reinit.None? || LeadingHangups(signals) < |signals|)
  }

  /** The reinit callback runs for each leading SIGHUP while it is set. */
  function ReinitRuns(reinit: Option<Hook>, n: nat): seq<Event>
  {
    match reinit
    case None => []
    case Some(h) => Repeat(ReinitHookRan(h.tag), n)
  }

  /** How many signals `main` waits for: the leading SIGHUPs it answers with
      the reinit callback and the one that ends the loop. */
  function Waits(signals: seq<Signal>, reinit: Option<Hook>): nat
  {
    if reinit.None? then 1 else LeadingHangups(signals) + 1
  }

  function HookRun(hook: Option<Hook>, event: Event): seq<Event>
  {
    if hook.Some? then [event] else []
  }

  /** `Daemon::initialize`. */
  function InitializeEvents(stop: bool, init: Option<Hook>): seq<Event>
  {
    if stop then []
    else [ConfigurationLoaded, BaseInitialized] + HookRun(init, InitHookRan(if init.Some? then init.value.tag else 0))
  }

  /** `Daemon::reinitialize`. */
  function ReinitializeEvents(stop: bool, reinit: Option<Hook>): seq<Event>
  {
    if stop then []
    else [BaseReinitialized] + HookRun(reinit, ReinitHookRan(if reinit.Some? then reinit.value.tag else 0))
  }

  /** `Daemon::uninitialize`. */
  function UninitializeEvents(stop: bool, uninit: Option<Hook>): seq<Event>
  {
    if stop then []
    else HookRun(uninit, UninitHookRan(if uninit.Some? then uninit.value.tag else 0)) + [BaseUninitialized]
  }

  /** `Daemon::main` on the Unix build. */
  function MainEvents(stop: bool, reinit: Option<Hook>, terminate: Option<Hook>,
                      args: seq<string>, signals: seq<Signal>): seq<Event>
  {
    if stop then []
    else
      [WorkerStarted(args)]
        + ReinitRuns(reinit, LeadingHangups(signals))
        + HookRun(terminate, TerminateHookRan(if terminate.Some? then terminate.value.tag else 0))
        + [WorkersCancelled, WorkersJoined]
  }

  /** A run of the server application once the options are handled:
      initialize, main, uninitialize. */
  function RunEvents(stop: bool, init: Option<Hook>, uninit: Option<Hook>, reinit: Option<Hook>,
                     terminate: Option<Hook>, args: seq<string>, signals: seq<Signal>): seq<Event>
  {
    InitializeEvents(stop, init) + MainEvents(stop, reinit, terminate, args, signals)
      + UninitializeEvents(stop, uninit)
  }

  /** With the stop flag set, no stage does anything. */
  lemma StopSkipsEverything(init: Option<Hook>, uninit: Option<Hook>, reinit: Option<Hook>,
                            terminate: Option<Hook>, args: seq<string>, signals: seq<Signal>)
    ensures InitializeEvents(true, init) == [] && ReinitializeEvents(true, reinit) == []
    ensures UninitializeEvents(true, uninit) == []
    ensures MainEvents(true, reinit, terminate, args, signals) == []
    ensures RunEvents(true, init, uninit, reinit, terminate, args, signals) == []
  {
  }

  /** In `initialize` the configuration is loaded and the base initialised
      before the init callback; in `uninitialize` the uninit callback runs
      before the base is uninitialised; each callback runs once if set. */
  lemma StagesRunInOrder(init: Option<Hook>, uninit: Option<Hook>)
    ensures InitializeEvents(false, init)[..2] == [ConfigurationLoaded, BaseInitialized]
    ensures init.Some? <==> |InitializeEvents(false, init)| == 3
    ensures init.Some? ==> InitializeEvents(false, init)[2] == InitHookRan(init.value.tag)
    ensures var u := UninitializeEvents(false, uninit);
      && u[|u| - 1] == BaseUninitialized
      && (uninit.Some? <==> |u| == 2)
      && (uninit.Some? ==> u[0] == UninitHookRan(uninit.value.tag))
  {
  }

  /** The worker starts first; the terminate callback, if set, runs right
      before the workers are cancelled, and they are joined last; in between
      come the reinit calls, one per leading SIGHUP when a reinit callback is
      set and none otherwise. */
  lemma {:induction false} MainShape(reinit: Option<Hook>, terminate: Option<Hook>, args: seq<string>, signals: seq<Signal>)
    ensures var m := MainEvents(false, reinit, terminate, args, signals);
      && |m| == 3 + (if reinit.Some? then LeadingHangups(signals) else 0) + (if terminate.Some? then 1 else 0)
      && m[0] == WorkerStarted(args)
      && m[|m| - 2..] == [WorkersCancelled, WorkersJoined]
      && (terminate.Some? ==> m[|m| - 3] == TerminateHookRan(terminate.value.tag))
  {
    var w := [WorkerStarted(args)];
    var r := ReinitRuns(reinit, LeadingHangups(signals));
    var t := HookRun(terminate, TerminateHookRan(if terminate.Some? then terminate.value.tag else 0));
    var e := [WorkersCancelled, WorkersJoined];
    var m := MainEvents(false, reinit, terminate, args, signals);
    assert m == w + r + t + e;
    assert |r| == if reinit.Some? then LeadingHangups(signals) else 0;
    assert m[|m| - 2..] == e;
  }

  /** The worker starts exactly once, and the reinit callback runs exactly
      once per leading SIGHUP. */
  lemma {:induction false} MainCounts(reinit: Option<Hook>, terminate: Option<Hook>, args: seq<string>, signals: seq<Signal>)
    ensures multiset(MainEvents(false, reinit, terminate, args, signals))[WorkerStarted(args)] == 1
    ensures reinit.Some? ==>
      multiset(MainEvents(false, reinit, terminate, args, signals))[ReinitHookRan(reinit.value.tag)] == LeadingHangups(signals)
  {
    var n := LeadingHangups(signals);
    var w := [WorkerStarted(args)];
    var r := ReinitRuns(reinit, n);
    var t := HookRun(terminate, TerminateHookRan(if terminate.Some? then terminate.value.tag else 0));
    var e := [WorkersCancelled, WorkersJoined];
    assert MainEvents(false, reinit, terminate, args, signals) == w + r + t + e;
    assert multiset(w + r + t + e) == multiset(w) + multiset(r) + multiset(t) + multiset(e);
    if reinit.Some? {
      RepeatCount(ReinitHookRan(reinit.value.tag), n, WorkerStarted(args));
      RepeatCount(ReinitHookRan(reinit.value.tag), n, ReinitHookRan(reinit.value.tag));
    }
    assert multiset(r)[WorkerStarted(args)] == 0;
    assert multiset(t)[WorkerStarted(args)] == 0 && multiset(e)[WorkerStarted(args)] == 0;
    if reinit.Some? {
      var x := ReinitHookRan(reinit.value.tag);
      assert multiset(w)[x] == 0 && multiset(t)[x] == 0 && multiset(e)[x] == 0;
    }
  }

  /** Where an event sits in the life of the daemon. */
  function Stage(e: Event): nat
  {
    match e
    case OptionHandled(_, _, _) => 0
    case ConfigurationLoaded => 1
    case BaseInitialized => 2
    case InitHookRan(_) => 3
    case WorkerStarted(_) => 4
    case MainRan(_, _) => 4
    case BaseReinitialized => 5
    case ReinitHookRan(_) => 5
    case TerminateHookRan(_) => 6
    case WorkersCancelled => 7
    case WorkersJoined => 8
    case UninitHookRan(_) => 9
    case BaseUninitialized => 10
  }

  /** The events follow the stages in order. */
  predicate Ordered(t: seq<Event>)
  {
    forall i, j :: 0 <= i < j < |t| ==> Stage(t[i]) <= Stage(t[j])
  }

  predicate Within(t: seq<Event>, lo: nat, hi: nat)
  {
    forall i :: 0 <= i < |t| ==> lo <= Stage(t[i]) <= hi
  }

  lemma OrderedConcat(a: seq<Event>, b: seq<Event>, lo: nat, mid: nat, hi: nat)
    requires lo <= mid <= hi
    requires Ordered(a) && Ordered(b) && Within(a, lo, mid) && Within(b, mid, hi)
    ensures Ordered(a + b) && Within(a + b, lo, hi)
  {
    var t := a + b;
    forall i | 0 <= i < |t|
      ensures lo <= Stage(t[i]) <= hi
    {
      if i < |a| {
        assert t[i] == a[i];
      } else {
        assert t[i] == b[i - |a|];
      }
    }
    forall i, j | 0 <= i < j < |t|
      ensures Stage(t[i]) <= Stage(t[j])
    {
      if j < |a| {
        assert t[i] == a[i] && t[j] == a[j];
      } else if i >= |a| {
        assert t[i] == b[i - |a|] && t[j] == b[j - |a|];
      } else {
        assert t[i] == a[i] && t[j] == b[j - |a|];
      }
    }
  }

  lemma RunsOrdered(reinit: Option<Hook>, n: nat)
    ensures Ordered(ReinitRuns(reinit, n)) && Within(ReinitRuns(reinit, n), 5, 5)
  {
  }

  lemma WorkerStartOrdered(args: seq<string>)
    ensures Ordered([WorkerStarted(args)]) && Within([WorkerStarted(args)], 4, 4)
  {
  }

  lemma TerminateOrdered(terminate: Option<Hook>)
    ensures var t := HookRun(terminate, TerminateHookRan(if terminate.Some? then terminate.value.tag else 0));
      Ordered(t) && Within(t, 5, 6)
  {
  }

  lemma WorkersStoppedOrdered()
    ensures Ordered([WorkersCancelled, WorkersJoined]) && Within([WorkersCancelled, WorkersJoined], 7, 8)
  {
  }

  lemma {:induction false} MainIsOrdered(stop: bool, reinit: Option<Hook>, terminate: Option<Hook>,
                                         args: seq<string>, signals: seq<Signal>)
    ensures Ordered(MainEvents(stop, reinit, terminate, args, signals))
    ensures Within(MainEvents(stop, reinit, terminate, args, signals), 4, 8)
  {
    if !stop {
      var w := [WorkerStarted(args)];
      var r := ReinitRuns(reinit, LeadingHangups(signals));
      var t := HookRun(terminate, TerminateHookRan(if terminate.Some? then terminate.value.tag else 0));
      var e := [WorkersCancelled, WorkersJoined];
      WorkerStartOrdered(args);
      RunsOrdered(reinit, LeadingHangups(signals));
      TerminateOrdered(terminate);
      WorkersStoppedOrdered();
      OrderedConcat(w, r, 4, 5, 5);
      OrderedConcat(w + r, t, 4, 5, 6);
      OrderedConcat(w + r + t, e, 4, 7, 8);
      assert MainEvents(stop, reinit, terminate, args, signals) == w + r + t + e;
    }
  }

  lemma InitializeOrdered(stop: bool, init: Option<Hook>)
    ensures Ordered(InitializeEvents(stop, init)) && Within(InitializeEvents(stop, init), 1, 3)
  {
  }

  lemma UninitializeOrdered(stop: bool, uninit: Option<Hook>)
    ensures Ordered(UninitializeEvents(stop, uninit)) && Within(UninitializeEvents(stop, uninit), 9, 10)
  {
  }

  /** Everything a run records follows the stages in order. */
  lemma {:induction false} RunIsOrdered(stop: bool, init: Option<Hook>, uninit: Option<Hook>, reinit: Option<Hook>,
                                        terminate: Option<Hook>, args: seq<string>, signals: seq<Signal>)
    ensures Ordered(RunEvents(stop, init, uninit, reinit, terminate, args, signals))
    ensures Within(RunEvents(stop, init, uninit, reinit, terminate, args, signals), 1, 10)
  {
    var i := InitializeEvents(stop, init);
    var u := UninitializeEvents(stop, uninit);
    var m := MainEvents(stop, reinit, terminate, args, signals);
    InitializeOrdered(stop, init);
    UninitializeOrdered(stop, uninit);
    MainIsOrdered(stop, reinit, terminate, args, signals);
    OrderedConcat(i, m, 1, 4, 8);
    OrderedConcat(i + m, u, 1, 9, 10);
    assert RunEvents(stop, init, uninit, reinit, terminate, args, signals) == i + m + u;
  }

  /** The example daemon: init, uninit and reinit callbacks set, two
      SIGHUPs and then SIGTERM. */
  lemma ExampleDaemonScenario(args: seq<string>)
    ensures RunEvents(false, Some(Hook(1)), Some(Hook(2)), Some(Hook(3)), None, args, [SIGHUP, SIGHUP, SIGTERM])
      == [ConfigurationLoaded, BaseInitialized, InitHookRan(1), WorkerStarted(args),
          ReinitHookRan(3), ReinitHookRan(3), WorkersCancelled, WorkersJoined,
          UninitHookRan(2), BaseUninitialized]
    ensures Waits([SIGHUP, SIGHUP, SIGTERM], Some(Hook(3))) == 3
    ensures Waits([SIGHUP, SIGHUP, SIGTERM], None) == 1
  {
    assert LeadingHangups([SIGTERM]) == 0;
    assert [SIGHUP, SIGTERM][1..] == [SIGTERM];
    assert LeadingHangups([SIGHUP, SIGTERM]) == 1;
    assert [SIGHUP, SIGHUP, SIGTERM][1..] == [SIGHUP, SIGTERM];
    assert LeadingHangups([SIGHUP, SIGHUP, SIGTERM]) == 2;
  }

  lemma AppendAssociative(a: seq<Event>, b: seq<Event>, c: seq<Event>, d: seq<Event>)
    ensures a + b + c + d == a + (b + c + d)
  {
  }

  /** The trace `main` leaves, appended step by step, is the one MainEvents
      describes. */
  lemma MainTrace(start: seq<Event>, reinit: Option<Hook>, terminate: Option<Hook>,
                  args: seq<string>, signals: seq<Signal>)
    ensures start + [WorkerStarted(args)] + ReinitRuns(reinit, LeadingHangups(signals))
        + HookRun(terminate, TerminateHookRan(if terminate.Some? then terminate.value.tag else 0))
        + [WorkersCancelled, WorkersJoined]
      == start + MainEvents(false, reinit, terminate, args, signals)
  {
    AppendAssociative(start, [WorkerStarted(args)] + ReinitRuns(reinit, LeadingHangups(signals)),
      HookRun(terminate, TerminateHookRan(if terminate.Some? then terminate.value.tag else 0)),
      [WorkersCancelled, WorkersJoined]);
  }

  /** The task `main` starts. */
  datatype Worker = Worker(main: Option<MainCallback>, args: seq<string>)

  /** `Worker::runTask`: calls the main callback, if set, once with the
      worker's arguments; its return value goes nowhere. */
  function RunTask(w: Worker): (events: seq<Event>)
    ensures |events| <= 1
    ensures events == [] <==> w.main.None?
    ensures forall e :: e in events ==> e.MainRan? && e.args == w.args
    ensures w.main.Some? ==> events == [MainRan(w.main.value.tag, w.args)]
  {
    match w.main
    case None => []
    case Some(m) => [MainRan(m.tag, w.args)]
  }

  /** An option as the option parser of the server application receives it;
      `handled` says whether parsing it calls `handleConfig`. */
  datatype ParserOption = ParserOption(
    fullName: string,
    shortName: string,
    description: string,
    required: bool,
    repeatable: bool,
    argName: string,
    argRequired: bool,
    handled: bool)

  /** The parser option carries the descriptor's names, description and
      flags, and is handled by `handleConfig` exactly when the descriptor has
      a callback. */
  predicate Translates(o: OptionDesc, p: ParserOption)
  {
    && p.fullName == o.fullName && p.shortName == o.shortName && p.description == o.description
    && p.required == o.required && p.repeatable == o.repeatable
    && p.argName == o.argName && p.argRequired == o.argRequired
    && p.handled == o.hasCallback
  }

  class Application {
    var options: seq<OptionDesc>
    var optionCallbacks: map<string, OptionCallback>
    var mainCallback: Option<MainCallback>
    var stopProcessing: bool
    var initCallback: Option<Hook>
    var uninitCallback: Option<Hook>
    var reinitCallback: Option<Hook>
    /** Called by `main`; nothing sets it. */
    var terminateCallback: Option<Hook>
    /** What the daemon has done so far. */
    var trace: seq<Event>
    var daemon: Daemon?

    /** The daemon is bound back to this application, and the descriptors
        and the callback map stay in step (`CallbacksRegistered`), which is
        what makes `FlaggedOptionsDispatch` apply to `HandleConfig`. */
    ghost predicate Valid()
      reads this
    {
      daemon != null && daemon.app == this && CallbacksRegistered(options, optionCallbacks)
    }

    /** `Application()`: no options, no callbacks, the stop flag clear, and
        the daemon bound to this application. */
    constructor ()
      ensures Valid() && fresh(daemon)
      ensures options == [] && optionCallbacks == map[] && mainCallback.None? && !stopProcessing
      ensures initCallback.None? && uninitCallback.None? && reinitCallback.None? && terminateCallback.None?
      ensures trace == []
    {
      options, optionCallbacks, mainCallback, stopProcessing := [], map[], None, false;
      initCallback, uninitCallback, reinitCallback, terminateCallback := None, None, None, None;
      trace := [];
      new;
      daemon := new Daemon(this);
    }

    /** `addOption(fullName, shortName, description, repeatable, callback)`. */
    method AddOption(fullName: string, shortName: string, description: string, repeatable: bool,
                     callback: Option<OptionCallback>)
      requires Valid()
      modifies this`options, this`optionCallbacks
      ensures Valid()
      ensures options == old(options) + [Described(fullName, shortName, description, repeatable, false, [], false, callback)]
      ensures optionCallbacks == Registered(old(optionCallbacks), fullName, callback)
    {
      var garbage: bool := *;
      var option := DefaultOption(garbage);
      option := option.(fullName := fullName, shortName := shortName, description := description,
                        repeatable := repeatable);
      AddOptionKeepsRegistry(options, optionCallbacks, option.(hasCallback := callback.Some?), callback);
      if callback.Some? {
        option := option.(hasCallback := true);
        optionCallbacks := optionCallbacks[fullName := callback.value];
      }
      options := options + [option];
    }

    /** `addOption(fullName, shortName, description, repeatable, required, callback)`. */
    method AddRequiredOption(fullName: string, shortName: string, description: string, repeatable: bool,
                             required: bool, callback: Option<OptionCallback>)
      requires Valid()
      modifies this`options, this`optionCallbacks
      ensures Valid()
      ensures options == old(options) + [Described(fullName, shortName, description, repeatable, required, [], false, callback)]
      ensures optionCallbacks == Registered(old(optionCallbacks), fullName, callback)
    {
      var garbage: bool := *;
      var option := DefaultOption(garbage);
      option := option.(fullName := fullName, shortName := shortName, description := description,
                        repeatable := repeatable, required := required);
      AddOptionKeepsRegistry(options, optionCallbacks, option.(hasCallback := callback.Some?), callback);
      if callback.Some? {
        option := option.(hasCallback := true);
        optionCallbacks := optionCallbacks[fullName := callback.value];
      }
      options := options + [option];
    }

    /** `addOption(fullName, shortName, description, repeatable, required,
        argName, argRequired, callback)`. */
    method AddArgumentOption(fullName: string, shortName: string, description: string, repeatable: bool,
                             required: bool, argName: string, argRequired: bool,
                             callback: Option<OptionCallback>)
      requires Valid()
      modifies this`options, this`optionCallbacks
      ensures Valid()
      ensures options == old(options) + [Described(fullName, shortName, description, repeatable, required, argName, argRequired, callback)]
      ensures optionCallbacks == Registered(old(optionCallbacks), fullName, callback)
    {
      var garbage: bool := *;
      var option := DefaultOption(garbage);
      option := option.(fullName := fullName, shortName := shortName, description := description,
                        repeatable := repeatable, required := required, argName := argName,
                        argRequired := argRequired);
      AddOptionKeepsRegistry(options, optionCallbacks, option.(hasCallback := callback.Some?), callback);
      if callback.Some? {
        option := option.(hasCallback := true);
        optionCallbacks := optionCallbacks[fullName := callback.value];
      }
      options := options + [option];
    }

    /** `setInitCallback`. */
    method SetInitCallback(callback: Option<Hook>)
      modifies this`initCallback
      ensures initCallback == callback
    {
      initCallback := callback;
    }

    /** `setUninitCallback`. */
    method SetUninitCallback(callback: Option<Hook>)
      modifies this`uninitCallback
      ensures uninitCallback == callback
    {
      uninitCallback := callback;
    }

    /** `setReinitCallback`. */
    method SetReinitCallback(callback: Option<Hook>)
      modifies this`reinitCallback
      ensures reinitCallback == callback
    {
      reinitCallback := callback;
    }

    /** `handleConfig(name, value)`. */
    method HandleConfig(name: string, value: string)
      modifies this`stopProcessing, this`trace
      ensures stopProcessing == Dispatch(optionCallbacks, name, value, old(stopProcessing)).0
      ensures trace == old(trace) + Dispatch(optionCallbacks, name, value, old(stopProcessing)).1
    {
      if name in optionCallbacks {
        var callback := optionCallbacks[name];
        trace := trace + [OptionHandled(callback.tag, name, value)];
        stopProcessing := callback.effect(name, value, stopProcessing);
      }
    }

    /** `run(callback, argc, argv)`: the server application dispatches the
        parsed options in `given`, then initialises, runs `main` on the
        remaining arguments `args` and uninitialises. */
    method Run(callback: Option<MainCallback>, args: seq<string>, given: seq<(string, string)>,
               signals: seq<Signal>) returns (code: int)
      requires Valid()
      requires StopAfter(optionCallbacks, given, stopProcessing) || WaitEnds(signals, reinitCallback)
      modifies this`mainCallback, this`stopProcessing, this`trace
      ensures code == ExitOk
      ensures mainCallback == callback
      ensures stopProcessing == StopAfter(optionCallbacks, given, old(stopProcessing))
      ensures trace == old(trace) + Handled(optionCallbacks, given, old(stopProcessing))
        + RunEvents(stopProcessing, initCallback, uninitCallback, reinitCallback, terminateCallback, args, signals)
    {
      mainCallback := callback;
      code := daemon.Run(args, given, signals);
    }
  }

  /** The server application bound to an `Application`. */
  class Daemon {
    const app: Application

    constructor (app: Application)
      ensures this.app == app
    {
      this.app := app;
    }

    /** `initialize`. */
    method Initialize()
      modifies app`trace
      ensures app.trace == old(app.trace) + InitializeEvents(app.stopProcessing, app.initCallback)
    {
      if app.stopProcessing {
        return;
      }
      app.trace := app.trace + [ConfigurationLoaded, BaseInitialized];
      if app.initCallback.Some? {
        app.trace := app.trace + [InitHookRan(app.initCallback.value.tag)];
      }
    }

    /** `reinitialize`. */
    method Reinitialize()
      modifies app`trace
      ensures app.trace == old(app.trace) + ReinitializeEvents(app.stopProcessing, app.reinitCallback)
    {
      if app.stopProcessing {
        return;
      }
      app.trace := app.trace + [BaseReinitialized];
      if app.reinitCallback.Some? {
        app.trace := app.trace + [ReinitHookRan(app.reinitCallback.value.tag)];
      }
    }

    /** `uninitialize`. */
    method Uninitialize()
      modifies app`trace
      ensures app.trace == old(app.trace) + UninitializeEvents(app.stopProcessing, app.uninitCallback)
    {
      if app.stopProcessing {
        return;
      }
      if app.uninitCallback.Some? {
        app.trace := app.trace + [UninitHookRan(app.uninitCallback.value.tag)];
      }
      app.trace := app.trace + [BaseUninitialized];
    }

    /** `defineOptions`: the server application's own options, then one
        parser option per descriptor, in order, handled by `handleConfig`
        exactly when the descriptor has a callback. */
    method DefineOptions(base: seq<ParserOption>) returns (defined: seq<ParserOption>)
      ensures |defined| == |base| + |app.options|
      ensures defined[..|base|] == base
      ensures forall i :: 0 <= i < |app.options| ==> Translates(app.options[i], defined[|base| + i])
    {
      defined := base;
      var i := 0;
      while i < |app.options|
        invariant 0 <= i <= |app.options|
        invariant |defined| == |base| + i
        invariant defined[..|base|] == base
        invariant forall k :: 0 <= k < i ==> Translates(app.options[k], defined[|base| + k])
      {
        var o := app.options[i];
        var item := ParserOption(o.fullName, o.shortName, o.description, false, false, [], false, false);
        item := item.(required := o.required, repeatable := o.repeatable, argName := o.argName,
                      argRequired := o.argRequired);
        if o.hasCallback {
          item := item.(handled := true);
        }
        defined := defined + [item];
        i := i + 1;
      }
    }

    /** `main(args)` on the Unix build: unless the stop flag is set, starts
        the worker, answers each SIGHUP with the reinit callback while one is
        set, stops waiting on any other signal (or on SIGHUP without a reinit
        callback), runs the terminate callback if set, cancels and joins the
        workers; always exits with EXIT_OK. `waited` counts the signals
        taken from the stream. */
    method Serve(args: seq<string>, signals: seq<Signal>) returns (code: int, worker: Option<Worker>, waited: nat)
      requires app.stopProcessing || WaitEnds(signals, app.reinitCallback)
      modifies app`trace
      ensures code == ExitOk
      ensures worker == if app.stopProcessing then None else Some(Worker(app.mainCallback, args))
      ensures waited == if app.stopProcessing then 0 else Waits(signals, app.reinitCallback)
      ensures app.trace == old(app.trace)
        + MainEvents(app.stopProcessing, app.reinitCallback, app.terminateCallback, args, signals)
    {
      code, worker, waited := ExitOk, None, 0;
      if app.stopProcessing {
        return;
      }
      ghost var start := app.trace;
      worker := Some(Worker(app.mainCallback, args));
      app.trace := app.trace + [WorkerStarted(args)];
      waited := AwaitTermination(signals);
      Shutdown();
      MainTrace(start, app.reinitCallback, app.terminateCallback, args, signals);
    }

    /** The end of `main`: the terminate callback, if set, then cancelling
        and joining the workers. */
    method Shutdown()
      modifies app`trace
      ensures app.trace == old(app.trace)
        + HookRun(app.terminateCallback,
                  TerminateHookRan(if app.terminateCallback.Some? then app.terminateCallback.value.tag else 0))
        + [WorkersCancelled, WorkersJoined]
    {
      if app.terminateCallback.Some? {
        app.trace := app.trace + [TerminateHookRan(app.terminateCallback.value.tag)];
      }
      app.trace := app.trace + [WorkersCancelled, WorkersJoined];
    }

    /** The wait loop of `main`: answers each SIGHUP with the reinit callback
        while one is set and returns once another signal arrives (or a SIGHUP
        with no reinit callback), saying how many signals it took. */
    method AwaitTermination(signals: seq<Signal>) returns (waited: nat)
      requires WaitEnds(signals, app.reinitCallback)
      modifies app`trace
      ensures waited == Waits(signals, app.reinitCallback)
      ensures app.trace == old(app.trace) + ReinitRuns(app.reinitCallback, LeadingHangups(signals))
    {
      var reinit := app.reinitCallback;
      ghost var hangups := LeadingHangups(signals);
      var sig := signals[0];
      waited := 1;
      while sig == SIGHUP
        invariant 1 <= waited <= |signals| && sig == signals[waited - 1]
        invariant waited - 1 <= hangups
        invariant reinit.None? ==> waited == 1
        invariant app.trace == old(app.trace) + ReinitRuns(reinit, waited - 1)
        decreases |signals| - waited
      {
        if reinit.None? {
          break;
        }
        assert waited - 1 < hangups;
        app.trace := app.trace + [ReinitHookRan(reinit.value.tag)];
        sig := signals[waited];
        waited := waited + 1;
      }
      assert reinit.Some? ==> waited - 1 == hangups;
    }

    /** The server application's `run`: dispatch the parsed options,
        initialize, main, uninitialize. */
    method Run(args: seq<string>, given: seq<(string, string)>, signals: seq<Signal>) returns (code: int)
      requires StopAfter(app.optionCallbacks, given, app.stopProcessing) || WaitEnds(signals, app.reinitCallback)
      modifies app`stopProcessing, app`trace
      ensures code == ExitOk
      ensures app.stopProcessing == StopAfter(app.optionCallbacks, given, old(app.stopProcessing))
      ensures app.trace == old(app.trace) + Handled(app.optionCallbacks, given, old(app.stopProcessing))
        + RunEvents(app.stopProcessing, app.initCallback, app.uninitCallback, app.reinitCallback,
                    app.terminateCallback, args, signals)
    {
      HandleOptions(given);
      ghost var handled := app.trace;
      ghost var i := InitializeEvents(app.stopProcessing, app.initCallback);
      ghost var m := MainEvents(app.stopProcessing, app.reinitCallback, app.terminateCallback, args, signals);
      ghost var u := UninitializeEvents(app.stopProcessing, app.uninitCallback);
      Initialize();
      var worker, waited;
      code, worker, waited := Serve(args, signals);
      assert app.trace == handled + i + m;
      Uninitialize();
      AppendAssociative(handled, i, m, u);
    }

    /** The option parser calling `handleConfig` for each parsed option. */
    method HandleOptions(given: seq<(string, string)>)
      modifies app`stopProcessing, app`trace
      ensures app.stopProcessing == StopAfter(app.optionCallbacks, given, old(app.stopProcessing))
      ensures app.trace == old(app.trace) + Handled(app.optionCallbacks, given, old(app.stopProcessing))
    {
      var i := 0;
      while i < |given|
        invariant 0 <= i <= |given|
        invariant app.stopProcessing == StopAfter(app.optionCallbacks, given[..i], old(app.stopProcessing))
        invariant app.trace == old(app.trace) + Handled(app.optionCallbacks, given[..i], old(app.stopProcessing))
      {
        assert given[..i + 1][..i] == given[..i] && given[..i + 1][i] == given[i];
        app.HandleConfig(given[i].0, given[i].1);
        i := i + 1;
      }
      assert given[..i] == given;
    }
  }

  /** The configuration getters of `Application`. */
  datatype Getter =
    | GetString | GetStringOr | GetRawString | GetRawStringOr
    | GetInt | GetIntOr | GetDouble | GetDoubleOr | GetBool | GetBoolOr

  /** The overloads that take a default value. */
  predicate Defaulted(g: Getter)
  {
    g.GetStringOr? || g.GetRawStringOr? || g.GetIntOr? || g.GetDoubleOr? || g.GetBoolOr?
  }

  /** The overloads that convert the stored string. */
  predicate Converting(g: Getter)
  {
    !(g.GetString? || g.GetStringOr? || g.GetRawString? || g.GetRawStringOr?)
  }

  /** How the configuration store can fail a lookup. */
  datatype StoreFailure = KeyNotFound | NotConvertible | OtherFailure

  /** What a getter lets escape when the store fails: one of this library's
      exceptions, or the store's own failure unchanged. */
  datatype Raised = Thrown(e: Exceptions.Exception) | Propagated(failure: StoreFailure)

  /** The failure translation of the configuration getters. */
  function TranslateFailure(g: Getter, f: StoreFailure): Raised
  {
    match g
    case GetString | GetRawString => Thrown(Exceptions.Make(Exceptions.NotFoundException))
    case GetStringOr | GetRawStringOr => Propagated(f)
    case GetInt | GetDouble | GetBool =>
      Thrown(Exceptions.Make(if f == KeyNotFound then Exceptions.NotFoundException else Exceptions.SyntaxException))
    case GetIntOr | GetDoubleOr | GetBoolOr => Thrown(Exceptions.Make(Exceptions.SyntaxException))
  }

  /** Only the defaulted string getters let the store's failure through;
      every other failure becomes a fresh NotFoundException or
      SyntaxException: a not-found one exactly for the string getters without
      default and for a missing key in the converting getters without
      default. Either is a RuntimeException whose what() is its class name. */
  lemma {:induction false} FailureTranslation(g: Getter, f: StoreFailure)
    ensures TranslateFailure(g, f).Propagated? <==> Defaulted(g) && !Converting(g)
    ensures TranslateFailure(g, f).Propagated? ==> TranslateFailure(g, f).failure == f
    ensures TranslateFailure(g, f).Thrown? ==>
      var e := TranslateFailure(g, f).e;
      && (e.kind == Exceptions.NotFoundException || e.kind == Exceptions.SyntaxException)
      && (e.kind == Exceptions.NotFoundException <==> !Defaulted(g) && (!Converting(g) || f == KeyNotFound))
      && Exceptions.IsA(e.kind, Exceptions.RuntimeException)
      && e.msg == [] && Exceptions.What(e) == Exceptions.Name(e.kind)
      && e.code == 0 && e.nested.None?
  {
    if TranslateFailure(g, f).Thrown? {
      var k := if !Defaulted(g) && (!Converting(g) || f == KeyNotFound)
        then Exceptions.NotFoundException else Exceptions.SyntaxException;
      assert TranslateFailure(g, f).e == Exceptions.Make(k);
      ThrownByGetter(k);
    }
  }

  /** The two classes a getter throws are runtime errors, made without a
      message, code or cause. */
  lemma ThrownByGetter(k: Exceptions.Kind)
    requires k == Exceptions.NotFoundException || k == Exceptions.SyntaxException
    ensures Exceptions.IsA(k, Exceptions.RuntimeException)
    ensures var e := Exceptions.Make(k);
      e.msg == [] && Exceptions.What(e) == Exceptions.Name(k) && e.code == 0 && e.nested.None?
  {
    Exceptions.DeclaredDerivations();
  }

}
