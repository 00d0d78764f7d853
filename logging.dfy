/** The self-healing log sink: a named logger bound to one file through a
    channel registered, under the logger's internal name, in the logging
    library's registry of named channels. Emitting is filtered by priority and
    gated by a rate-limited check that the file still exists; when it has
    vanished the sink closes, takes a new internal name and reopens at the
    same path with the same settings.

    The file system, the clock and the success of channel creation are
    parameters of the operations (`fileExists`, `now`, `channelOk`). The part
    of the library's registry that the logger's names occupy is the field
    `channels`, and the messages handed to the channel are the field `lines`. */
module Logging {

  import Decimal

  /** A C++ `unsigned int`. */
  newtype uint32 = x: int | 0 <= x < 0x1_0000_0000

  const MaxUint32: uint32 := 0xFFFF_FFFF

  /** `++` on an `unsigned int`: wraps around to 0 after the largest value. */
  function Increment(c: uint32): (r: uint32)
    ensures c < MaxUint32 ==> r as int == c as int + 1
    ensures c == MaxUint32 ==> r == 0
  {
    if c == MaxUint32 then 0 else c + 1
  }

  /** Message priorities; a lower value is more severe. */
  datatype Priority = Fatal | Critical | Error | Warning | Notice | Information | Debug | Trace

  /** The numeric value of each priority in the enumeration. */
  function Value(p: Priority): (v: int)
    ensures 1 <= v <= 8
  {
    match p
    case Fatal => 1
    case Critical => 2
    case Error => 3
    case Warning => 4
    case Notice => 5
    case Information => 6
    case Debug => 7
    case Trace => 8
  }

  /** The priorities run consecutively from FATAL = 1 to TRACE = 8, so the
      numeric value determines the priority. */
  lemma PrioritiesConsecutive(p: Priority, q: Priority)
    ensures Value(Fatal) == 1 && Value(Trace) == 8
    ensures Value(p) == Value(q) ==> p == q
    ensures p != Trace ==> exists r :: Value(r) == Value(p) + 1
  {
    if p != Trace {
      var next := match p
        case Fatal => Critical case Critical => Error case Error => Warning
        case Warning => Notice case Notice => Information case Information => Debug
        case Debug => Trace case Trace => Trace;
      assert Value(next) == Value(p) + 1;
    }
  }

  const DefaultName := "SwarmLogger"
  const DefaultFormat := "%h-%M-%S.%i: %t"
  const DefaultPriority := Information
  const DefaultPurgeCount: uint32 := 0
  /** Seconds during which a verified file is not checked again. */
  const VerifyTtl := 5

  /** A message at priority `p` passes a logger set to `threshold` when it is
      at least as severe. */
  predicate Admits(threshold: Priority, p: Priority)
  {
    Value(p) <= Value(threshold)
  }

  /** Lowering the severity of a message never lets it through where a more
      severe one is stopped; FATAL always passes and TRACE passes only at TRACE. */
  lemma AdmitsMonotone(threshold: Priority, p: Priority, q: Priority)
    ensures Admits(threshold, p) && Value(q) <= Value(p) ==> Admits(threshold, q)
    ensures Admits(threshold, Fatal)
    ensures Admits(threshold, Trace) <==> threshold == Trace
  {
  }

  /** What the channel registered under a name was created with. */
  datatype Channel = Channel(path: string, format: string, level: Priority)

  /** A message handed to the channel registered under `channel`. */
  datatype Line = Line(channel: string, level: Priority, text: string)

  /** The internal name for the `count`-th channel of logger `name`. */
  function InternalName(name: string, count: uint32): string
  {
    name + "-" + Decimal.NatToString(count as int)
  }

  /** Different counts give different internal names. */
  lemma {:induction false} InternalNameInjective(name: string, i: uint32, j: uint32)
    requires InternalName(name, i) == InternalName(name, j)
    ensures i == j
  {
    var k := |name| + 1;
    assert Decimal.NatToString(i as int) == InternalName(name, i)[k..];
    assert Decimal.NatToString(j as int) == InternalName(name, j)[k..];
    Decimal.NatToStringInjective(i as int, j as int);
  }

  /** The notice written through a freshly opened channel. */
  function OpenNotice(internalName: string, path: string): string
  {
    "Logger::open(" + internalName + ") path: " + path
  }

  /** The whole observable state of a logger. */
  datatype LoggerState = LoggerState(
    name: string,
    path: string,
    priority: Priority,
    format: string,
    purgeCount: uint32,
    instanceCount: uint32,
    internalName: string,
    lastVerifyTime: int,
    channels: map<string, Channel>,
    lines: seq<Line>)

  /** The internal name is the one minted from the name and the instance
      count, and no channel is left registered under an earlier one. */
  predicate Consistent(s: LoggerState)
  {
    && s.internalName == InternalName(s.name, s.instanceCount)
    && s.channels.Keys <= {s.internalName}
  }

  /** `close()`: destroys the channel of the internal name and unbinds the path. */
  function AfterClose(s: LoggerState): LoggerState
  {
    s.(channels := s.channels - {s.internalName}, path := [])
  }

  /** The four-argument `open()`: records the settings, then creates the
      channel; on success writes one notice through it and answers true. The
      channel cannot be created when the file channel fails (`channelOk`
      false) or when a channel is already registered under the internal name
      (the registry refuses a second one with that name); then it closes and
      answers false. */
  function AfterOpen(s: LoggerState, path: string, priority: Priority, format: string,
                     purgeCount: uint32, channelOk: bool): (LoggerState, bool)
  {
    var t := s.(path := path, priority := priority, format := format, purgeCount := purgeCount);
    if channelOk && t.internalName !in t.channels then
      (t.(channels := t.channels[t.internalName := Channel(path, format, priority)],
          lines := t.lines + [Line(t.internalName, Notice, OpenNotice(t.internalName, path))]),
       true)
    else
      (AfterClose(t), false)
  }

  /** `setPriority()`: the new threshold, also given to the channel if one is
      registered under the internal name. */
  function AfterSetPriority(s: LoggerState, p: Priority): LoggerState
  {
    s.(priority := p,
       channels := if s.internalName in s.channels
                   then s.channels[s.internalName := s.channels[s.internalName].(level := p)]
                   else s.channels)
  }

  /** `verifyLogFile()`: see VerifyWithinTtl, VerifyAfterTtl and VerifyHeals. */
  function AfterVerify(s: LoggerState, now: int, fileExists: bool, channelOk: bool): (LoggerState, bool)
  {
    if now - s.lastVerifyTime < VerifyTtl then
      (s, true)
    else
      var t := s.(lastVerifyTime := now);
      if t.path != [] && !fileExists then
        var closed := AfterClose(t);
        var n := Increment(t.instanceCount);
        var renamed := closed.(instanceCount := n, internalName := InternalName(t.name, n));
        AfterOpen(renamed, t.path, t.priority, t.format, t.purgeCount, channelOk)
      else
        (t, t.path != [])
  }

  /** Each of the eight emit operations at priority `level`. */
  function AfterEmit(s: LoggerState, level: Priority, text: string, now: int,
                     fileExists: bool, channelOk: bool): LoggerState
  {
    if !Admits(s.priority, level) then
      s
    else
      var v := AfterVerify(s, now, fileExists, channelOk);
      if v.1 && v.0.internalName in v.0.channels then
        v.0.(lines := v.0.lines + [Line(v.0.internalName, level, text)])
      else
        v.0
  }

  /** Closing twice is the same as closing once; afterwards no path is bound
      and no channel is registered under the internal name. */
  lemma CloseIdempotent(s: LoggerState)
    ensures AfterClose(AfterClose(s)) == AfterClose(s)
    ensures AfterClose(s).path == [] && s.internalName !in AfterClose(s).channels
    ensures AfterClose(s).lines == s.lines
  {
  }

  /** `open()` records path, priority, format and purge count whatever
      happens; it succeeds exactly when the channel can be created and none
      is registered under the internal name yet; on success the channel
      carries those settings and exactly one notice naming the internal name
      and the path is written; on failure the sink is left closed and nothing
      is written. */
  lemma OpenOutcome(s: LoggerState, path: string, priority: Priority, format: string,
                    purgeCount: uint32, channelOk: bool)
    ensures var (t, ok) := AfterOpen(s, path, priority, format, purgeCount, channelOk);
      && ok == (channelOk && s.internalName !in s.channels)
      && t.priority == priority && t.format == format && t.purgeCount == purgeCount
      && t.name == s.name && t.internalName == s.internalName && t.instanceCount == s.instanceCount
      && (ok ==> t.path == path && t.channels[s.internalName] == Channel(path, format, priority)
                 && t.lines == s.lines + [Line(s.internalName, Notice, OpenNotice(s.internalName, path))])
      && (!ok ==> t.path == [] && s.internalName !in t.channels && t.lines == s.lines)
  {
  }

  /** Opening a logger that is already open fails, and the failure path's
      `close()` also destroys the channel that was open. */
  lemma ReopenWithoutCloseFails(s: LoggerState, path: string, priority: Priority, format: string,
                                purgeCount: uint32, channelOk: bool)
    requires s.internalName in s.channels
    ensures var (t, ok) := AfterOpen(s, path, priority, format, purgeCount, channelOk);
      !ok && t.path == [] && t.channels == s.channels - {s.internalName} && t.lines == s.lines
  {
  }

  /** Opening after closing succeeds whenever the channel can be created. */
  lemma OpenAfterClose(s: LoggerState, path: string, priority: Priority, format: string,
                       purgeCount: uint32, channelOk: bool)
    ensures AfterOpen(AfterClose(s), path, priority, format, purgeCount, channelOk).1 == channelOk
  {
  }

  /** After `setPriority(p)` the filter uses `p`. */
  lemma SetPriorityGovernsFilter(s: LoggerState, p: Priority, q: Priority)
    ensures AfterSetPriority(s, p).priority == p
    ensures Admits(AfterSetPriority(s, p).priority, q) <==> Value(q) <= Value(p)
    ensures AfterSetPriority(s, p).path == s.path && AfterSetPriority(s, p).lines == s.lines
  {
  }

  /** Within the TTL window the check answers true and changes nothing, even
      when no path is bound. */
  lemma VerifyWithinTtl(s: LoggerState, now: int, fileExists: bool, channelOk: bool)
    requires now - s.lastVerifyTime < VerifyTtl
    ensures AfterVerify(s, now, fileExists, channelOk) == (s, true)
  {
  }

  /** Once the window has elapsed and the file is present (or no path is
      bound), the check only records the time and answers whether a path is
      bound. */
  lemma VerifyAfterTtl(s: LoggerState, now: int, fileExists: bool, channelOk: bool)
    requires now - s.lastVerifyTime >= VerifyTtl
    requires fileExists || s.path == []
    ensures AfterVerify(s, now, fileExists, channelOk) == (s.(lastVerifyTime := now), s.path != [])
  {
  }

  /** Once the window has elapsed with a path bound and the file missing:
      the old channel is destroyed, the instance count goes up by one, the
      internal name is minted from it, and the sink reopens at the same path
      with the same priority, format and purge count. */
  lemma VerifyHeals(s: LoggerState, now: int, channelOk: bool)
    requires Consistent(s)
    requires now - s.lastVerifyTime >= VerifyTtl && s.path != []
    ensures var (t, ok) := AfterVerify(s, now, false, channelOk);
      && ok == channelOk
      && t.instanceCount == Increment(s.instanceCount)
      && t.internalName == InternalName(s.name, t.instanceCount) && Consistent(t)
      && t.internalName != s.internalName
      && s.internalName !in t.channels
      && t.priority == s.priority && t.format == s.format && t.purgeCount == s.purgeCount
      && t.lastVerifyTime == now && t.name == s.name
      && (ok ==> t.path == s.path && t.channels[t.internalName] == Channel(s.path, s.format, s.priority))
      && (!ok ==> t.path == [] && t.internalName !in t.channels)
  {
    var n := Increment(s.instanceCount);
    if InternalName(s.name, n) == s.internalName {
      InternalNameInjective(s.name, n, s.instanceCount);
    }
  }

  /** The regenerated internal name differs from every internal name the
      logger has used before, as long as the instance count has not wrapped. */
  lemma {:induction false} HealedNameIsNew(s: LoggerState, now: int, channelOk: bool, i: uint32)
    requires Consistent(s) && s.instanceCount < MaxUint32
    requires now - s.lastVerifyTime >= VerifyTtl && s.path != []
    requires i <= s.instanceCount
    ensures AfterVerify(s, now, false, channelOk).0.internalName != InternalName(s.name, i)
  {
    var n := Increment(s.instanceCount);
    assert AfterVerify(s, now, false, channelOk).0.internalName == InternalName(s.name, n);
    if InternalName(s.name, n) == InternalName(s.name, i) {
      InternalNameInjective(s.name, n, i);
    }
  }

  /** Every operation keeps the internal name minted from the instance count
      and never changes the logger's name. */
  lemma OperationsKeepConsistent(s: LoggerState, path: string, p: Priority, format: string,
                                 purgeCount: uint32, now: int, fileExists: bool, channelOk: bool, text: string)
    requires Consistent(s)
    ensures Consistent(AfterClose(s)) && AfterClose(s).name == s.name
    ensures Consistent(AfterOpen(s, path, p, format, purgeCount, channelOk).0)
    ensures AfterOpen(s, path, p, format, purgeCount, channelOk).0.name == s.name
    ensures Consistent(AfterSetPriority(s, p)) && AfterSetPriority(s, p).name == s.name
    ensures Consistent(AfterVerify(s, now, fileExists, channelOk).0)
    ensures AfterVerify(s, now, fileExists, channelOk).0.name == s.name
    ensures Consistent(AfterEmit(s, p, text, now, fileExists, channelOk))
    ensures AfterEmit(s, p, text, now, fileExists, channelOk).name == s.name
  {
    CloseKeepsConsistent(s);
    OpenKeepsConsistent(s, path, p, format, purgeCount, channelOk);
    VerifyKeepsConsistent(s, now, fileExists, channelOk);
  }

  /** Closing leaves no channel registered under any name. */
  lemma CloseKeepsConsistent(s: LoggerState)
    requires Consistent(s)
    ensures Consistent(AfterClose(s)) && AfterClose(s).name == s.name
    ensures AfterClose(s).channels.Keys == {}
  {
  }

  lemma OpenKeepsConsistent(s: LoggerState, path: string, p: Priority, format: string,
                            purgeCount: uint32, channelOk: bool)
    requires Consistent(s)
    ensures Consistent(AfterOpen(s, path, p, format, purgeCount, channelOk).0)
    ensures AfterOpen(s, path, p, format, purgeCount, channelOk).0.name == s.name
  {
    CloseKeepsConsistent(s);
  }

  lemma VerifyKeepsConsistent(s: LoggerState, now: int, fileExists: bool, channelOk: bool)
    requires Consistent(s)
    ensures Consistent(AfterVerify(s, now, fileExists, channelOk).0)
    ensures AfterVerify(s, now, fileExists, channelOk).0.name == s.name
  {
    if now - s.lastVerifyTime >= VerifyTtl && s.path != [] && !fileExists {
      var t := s.(lastVerifyTime := now);
      CloseKeepsConsistent(t);
      var n := Increment(t.instanceCount);
      var renamed := AfterClose(t).(instanceCount := n, internalName := InternalName(t.name, n));
      OpenKeepsConsistent(renamed, t.path, t.priority, t.format, t.purgeCount, channelOk);
    }
  }

  /** An emit call forwards its message, once, exactly when the priority
      passes the filter, the file check succeeds and a channel is registered
      under the (possibly new) internal name; a filtered message does not
      even run the check. */
  lemma EmitGate(s: LoggerState, level: Priority, text: string, now: int, fileExists: bool, channelOk: bool)
    ensures !Admits(s.priority, level) ==> AfterEmit(s, level, text, now, fileExists, channelOk) == s
    ensures Admits(s.priority, level) ==>
      var (t, ok) := AfterVerify(s, now, fileExists, channelOk);
      var e := AfterEmit(s, level, text, now, fileExists, channelOk);
      && e.(lines := t.lines) == t
      && (e.lines == t.lines + [Line(t.internalName, level, text)] <==> ok && t.internalName in t.channels)
      && (e.lines == t.lines <==> !(ok && t.internalName in t.channels))
  {
  }

  /** Messages handed to channels are only ever appended to. */
  lemma {:induction false} LinesOnlyGrow(s: LoggerState, level: Priority, text: string, now: int,
                                         fileExists: bool, channelOk: bool)
    ensures s.lines <= AfterEmit(s, level, text, now, fileExists, channelOk).lines
    ensures s.lines <= AfterVerify(s, now, fileExists, channelOk).0.lines
  {
    var v := AfterVerify(s, now, fileExists, channelOk);
    assert s.lines <= v.0.lines;
    if Admits(s.priority, level) && v.1 && v.0.internalName in v.0.channels {
      assert v.0.lines <= v.0.lines + [Line(v.0.internalName, level, text)];
    }
  }

  /** The state of a logger just constructed with name `name`. */
  function Created(name: string, priority: Priority, purgeCount: uint32): (s: LoggerState)
    ensures Consistent(s) && s.internalName == name + "-0"
  {
    LoggerState(name, [], priority, [], purgeCount, 0, InternalName(name, 0), 0, map[], [])
  }

  /** Opening at WARNING, then a DEBUG message writes nothing and an ERROR
      message writes one line holding its text. */
  lemma WarningThresholdScenario(priority: Priority, purgeCount: uint32)
    ensures
      var atOpen := AfterOpen(Created(DefaultName, priority, purgeCount), "/tmp/x.log", Warning, DefaultFormat, DefaultPurgeCount, true).0;
      var afterDebug := AfterEmit(atOpen, Debug, "x", 100, true, true);
      var afterError := AfterEmit(afterDebug, Error, "y", 100, true, true);
      && afterDebug.lines == atOpen.lines
      && afterError.lines == atOpen.lines + [Line("SwarmLogger-0", Error, "y")]
  {
    var z: uint32 := 0;
    assert Decimal.NatToString(z as int) == "0";
    assert InternalName(DefaultName, 0) == "SwarmLogger-0";
    var atOpen := AfterOpen(Created(DefaultName, priority, purgeCount), "/tmp/x.log", Warning, DefaultFormat, DefaultPurgeCount, true).0;
    assert atOpen.internalName == "SwarmLogger-0" && atOpen.internalName in atOpen.channels;
    assert !Admits(Warning, Debug) && Admits(Warning, Error);
    var afterDebug := AfterEmit(atOpen, Debug, "x", 100, true, true);
    assert afterDebug == atOpen;
    assert AfterVerify(afterDebug, 100, true, true) == (atOpen.(lastVerifyTime := 100), true);
  }

  /** After the file is deleted, an emit past the TTL window reopens the same
      path under the name "SwarmLogger-1" and writes the message there. */
  lemma SelfHealScenario(priority: Priority, purgeCount: uint32)
    ensures
      var atOpen := AfterOpen(Created(DefaultName, priority, purgeCount), "/tmp/x.log", Information, DefaultFormat, DefaultPurgeCount, true).0;
      var healed := AfterEmit(atOpen, Error, "y", 10, false, true);
      && healed.path == "/tmp/x.log"
      && healed.internalName == "SwarmLogger-1"
      && "SwarmLogger-0" !in healed.channels
      && healed.channels["SwarmLogger-1"] == Channel("/tmp/x.log", DefaultFormat, Information)
      && healed.lines == atOpen.lines + [
           Line("SwarmLogger-1", Notice, OpenNotice("SwarmLogger-1", "/tmp/x.log")),
           Line("SwarmLogger-1", Error, "y")]
  {
    var n: uint32 := 1;
    assert Decimal.NatToString(n as int) == "1";
    assert InternalName(DefaultName, 1) == "SwarmLogger-1";
  }

  class Logger {
    const name: string
    var path: string
    var priority: Priority
    var format: string
    var purgeCount: uint32
    var instanceCount: uint32
    var internalName: string
    var lastVerifyTime: int
    /** The library's registry of named channels, as far as this logger's
        internal names are concerned. */
    var channels: map<string, Channel>
    /** Messages handed to channels, in order. */
    var lines: seq<Line>

    ghost function State(): LoggerState
      reads this
    {
      LoggerState(name, path, priority, format, purgeCount, instanceCount, internalName,
                  lastVerifyTime, channels, lines)
    }

    ghost predicate Valid()
      reads this
    {
      Consistent(State())
    }

    /** `Logger(name)`. The source leaves the priority and the purge count
        uninitialised until `open`. */
    constructor (name: string)
      ensures Valid()
      ensures exists p, c :: State() == Created(name, p, c)
    {
      this.name := name;
      path, format := [], [];
      priority := *;
      purgeCount := *;
      instanceCount, lastVerifyTime := 0, 0;
      internalName := InternalName(name, 0);
      channels, lines := map[], [];
      new;
      assert State() == Created(name, priority, purgeCount);
    }

    /** `open(path)`: default priority, format and purge count. */
    method Open(path: string, channelOk: bool) returns (ok: bool)
      requires Valid()
      modifies this
      ensures Valid()
      ensures (State(), ok) == AfterOpen(old(State()), path, DefaultPriority, DefaultFormat, DefaultPurgeCount, channelOk)
    {
      ok := OpenWithPriority(path, DefaultPriority, channelOk);
    }

    /** `open(path, priority)`: default format and purge count. */
    method OpenWithPriority(path: string, priority: Priority, channelOk: bool) returns (ok: bool)
      requires Valid()
      modifies this
      ensures Valid()
      ensures (State(), ok) == AfterOpen(old(State()), path, priority, DefaultFormat, DefaultPurgeCount, channelOk)
    {
      ok := OpenWithFormat(path, priority, DefaultFormat, channelOk);
    }

    /** `open(path, priority, format)`: default purge count. */
    method OpenWithFormat(path: string, priority: Priority, format: string, channelOk: bool) returns (ok: bool)
      requires Valid()
      modifies this
      ensures Valid()
      ensures (State(), ok) == AfterOpen(old(State()), path, priority, format, DefaultPurgeCount, channelOk)
    {
      ok := OpenWithPurgeCount(path, priority, format, DefaultPurgeCount, channelOk);
    }

    /** `open(path, priority, format, purgeCount)`. The rotation settings the
        source guards with `LOGGER_DEFAULT_PURGE_COUNT > 0` are never applied. */
    method OpenWithPurgeCount(path: string, priority: Priority, format: string, purgeCount: uint32,
                              channelOk: bool) returns (ok: bool)
      requires Valid()
      modifies this
      ensures Valid()
      ensures (State(), ok) == AfterOpen(old(State()), path, priority, format, purgeCount, channelOk)
    {
      this.path := path;
      this.priority := priority;
      this.format := format;
      this.purgeCount := purgeCount;
      if channelOk && internalName !in channels {
        channels := channels[internalName := Channel(path, format, priority)];
        lines := lines + [Line(internalName, Notice, OpenNotice(internalName, path))];
        ok := true;
      } else {
        Close();
        ok := false;
      }
    }

    /** `close()`. */
    method Close()
      requires Valid()
      modifies this
      ensures Valid()
      ensures State() == AfterClose(old(State()))
    {
      channels := channels - {internalName};
      path := [];
    }

    /** `setPriority(priority)`. */
    method SetPriority(priority: Priority)
      requires Valid()
      modifies this
      ensures Valid()
      ensures State() == AfterSetPriority(old(State()), priority)
    {
      this.priority := priority;
      if internalName in channels {
        channels := channels[internalName := channels[internalName].(level := priority)];
      }
    }

    /** `willLog(p)`: `p` is at least as severe as the current priority
        (the header's comment says `>=`; the code compares with `<=`). */
    function WillLog(p: Priority): (r: bool)
      reads this
      ensures r <==> Value(p) <= Value(priority)
      ensures priority == Information ==> r == (p != Debug && p != Trace)
    {
      Admits(priority, p)
    }

    /** `verifyLogFile()`. */
    method VerifyLogFile(now: int, fileExists: bool, channelOk: bool) returns (ok: bool)
      requires Valid()
      modifies this
      ensures Valid()
      ensures (State(), ok) == AfterVerify(old(State()), now, fileExists, channelOk)
    {
      if now - lastVerifyTime < VerifyTtl {
        return true;
      }
      lastVerifyTime := now;
      if path != [] && !fileExists {
        var oldPath := path;
        Close();
        instanceCount := Increment(instanceCount);
        internalName := InternalName(name, instanceCount);
        ok := OpenWithPurgeCount(oldPath, priority, format, purgeCount, channelOk);
        return;
      }
      return path != [];
    }

    /** The body shared by the eight emit operations. */
    method Emit(level: Priority, text: string, now: int, fileExists: bool, channelOk: bool)
      requires Valid()
      modifies this
      ensures Valid()
      ensures State() == AfterEmit(old(State()), level, text, now, fileExists, channelOk)
    {
      if WillLog(level) {
        var verified := VerifyLogFile(now, fileExists, channelOk);
        if verified && internalName in channels {
          lines := lines + [Line(internalName, level, text)];
        }
      }
    }

    /** `fatal(log)`. */
    method LogFatal(text: string, now: int, fileExists: bool, channelOk: bool)
      requires Valid()
      modifies this
      ensures Valid()
      ensures State() == AfterEmit(old(State()), Fatal, text, now, fileExists, channelOk)
    {
      Emit(Fatal, text, now, fileExists, channelOk);
    }

    /** `critical(log)`. */
    method LogCritical(text: string, now: int, fileExists: bool, channelOk: bool)
      requires Valid()
      modifies this
      ensures Valid()
      ensures State() == AfterEmit(old(State()), Critical, text, now, fileExists, channelOk)
    {
      Emit(Critical, text, now, fileExists, channelOk);
    }

    /** `error(log)`. */
    method LogError(text: string, now: int, fileExists: bool, channelOk: bool)
      requires Valid()
      modifies this
      ensures Valid()
      ensures State() == AfterEmit(old(State()), Error, text, now, fileExists, channelOk)
    {
      Emit(Error, text, now, fileExists, channelOk);
    }

    /** `warning(log)`. */
    method LogWarning(text: string, now: int, fileExists: bool, channelOk: bool)
      requires Valid()
      modifies this
      ensures Valid()
      ensures State() == AfterEmit(old(State()), Warning, text, now, fileExists, channelOk)
    {
      Emit(Warning, text, now, fileExists, channelOk);
    }

    /** `notice(log)`. */
    method LogNotice(text: string, now: int, fileExists: bool, channelOk: bool)
      requires Valid()
      modifies this
      ensures Valid()
      ensures State() == AfterEmit(old(State()), Notice, text, now, fileExists, channelOk)
    {
      Emit(Notice, text, now, fileExists, channelOk);
    }

    /** `information(log)`. */
    method LogInformation(text: string, now: int, fileExists: bool, channelOk: bool)
      requires Valid()
      modifies this
      ensures Valid()
      ensures State() == AfterEmit(old(State()), Information, text, now, fileExists, channelOk)
    {
      Emit(Information, text, now, fileExists, channelOk);
    }

    /** `debug(log)`. */
    method LogDebug(text: string, now: int, fileExists: bool, channelOk: bool)
      requires Valid()
      modifies this
      ensures Valid()
      ensures State() == AfterEmit(old(State()), Debug, text, now, fileExists, channelOk)
    {
      Emit(Debug, text, now, fileExists, channelOk);
    }

    /** `trace(log)`. */
    method LogTrace(text: string, now: int, fileExists: bool, channelOk: bool)
      requires Valid()
      modifies this
      ensures Valid()
      ensures State() == AfterEmit(old(State()), Trace, text, now, fileExists, channelOk)
    {
      Emit(Trace, text, now, fileExists, channelOk);
    }
  }

  /** The process-wide slot holding the default logger (`_pLoggerInstance`). */
  class DefaultLogger {
    var instance: Logger?

    constructor ()
      ensures instance == null
    {
      instance := null;
    }

    /** `instance()`: creates the default logger on first use and hands out
        the same object until it is released. */
    method Instance() returns (l: Logger)
      modifies this
      ensures instance == l
      ensures old(instance) != null ==> l == old(instance)
      ensures old(instance) == null ==>
        fresh(l) && l.Valid() && l.name == DefaultName && exists p, c :: l.State() == Created(DefaultName, p, c)
    {
      if instance == null {
        instance := new Logger(DefaultName);
      }
      l := instance;
    }

    /** `releaseInstance()`: deletes the default logger, whose destructor
        closes it; releasing an empty slot does nothing. */
    method ReleaseInstance()
      requires instance != null ==> instance.Valid()
      modifies this, instance
      ensures instance == null
      ensures old(instance) != null ==> old(instance).State() == AfterClose(old(instance.State()))
    {
      if instance != null {
        instance.Close();
      }
      instance := null;
    }
  }

}
