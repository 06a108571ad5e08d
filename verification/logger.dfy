/**
  The logger: a context builder whose `With*` methods return modified copies,
  whose `ChangePriority` adjusts its own threshold in place, and whose emission
  methods build an entry and route it through `Emit`.
*/
module Logharbour {
  import opened Priorities
  import opened Entries
  import opened Contexts
  import opened Routing

  class Logger {
    var appName: string
    var system: string
    var moduleName: string
    var priority: Priority
    var who: string
    var op: string
    var whatClass: string
    var whatInstanceId: string
    var status: Status
    var remoteIP: string
    var writer: Writer          // shared with every logger derived from this one
    var validator: Validator    // shared with every logger derived from this one

    /** The logger's fields as a value. */
    function Ctx(): Context
      reads this
    {
      Context(appName, system, moduleName, priority, who, op, whatClass, whatInstanceId,
              status, remoteIP, writer, validator)
    }

    /** A logger holding exactly the given fields. */
    constructor (c: Context)
      ensures Ctx() == c
    {
      appName, system, moduleName, priority := c.appName, c.system, c.moduleName, c.priority;
      who, op, whatClass, whatInstanceId := c.who, c.op, c.whatClass, c.whatInstanceId;
      status, remoteIP, writer, validator := c.status, c.remoteIP, c.writer, c.validator;
    }

    /** A logger for `appName` that writes to `writer`, at the default threshold and with an empty context. */
    constructor NewLogger(appName: string, system: string, writer: Writer, validator: Validator)
      ensures this.appName == appName && this.system == system
      ensures this.writer == writer && this.validator == validator
      ensures this.priority == DefaultPriority == Priority.Info
      ensures this.moduleName == "" && this.who == "" && this.op == ""
      ensures this.whatClass == "" && this.whatInstanceId == "" && this.remoteIP == ""
      ensures this.status == ZeroStatus
    {
      this.appName, this.system, this.moduleName, this.priority := appName, system, "", DefaultPriority;
      this.who, this.op, this.whatClass, this.whatInstanceId := "", "", "", "";
      this.status, this.remoteIP, this.writer, this.validator := ZeroStatus, "", writer, validator;
    }

    /** As `NewLogger`, for a writer that has a fallback writer. */
    constructor NewLoggerWithFallback(appName: string, system: string, fallbackWriter: Writer, validator: Validator)
      requires fallbackWriter.FallbackWriter?
      ensures this.appName == appName && this.system == system
      ensures this.writer == fallbackWriter && this.writer.FallbackWriter? && this.validator == validator
      ensures this.priority == DefaultPriority == Priority.Info
      ensures this.moduleName == "" && this.who == "" && this.op == ""
      ensures this.whatClass == "" && this.whatInstanceId == "" && this.remoteIP == ""
      ensures this.status == ZeroStatus
    {
      this.appName, this.system, this.moduleName, this.priority := appName, system, "", DefaultPriority;
      this.who, this.op, this.whatClass, this.whatInstanceId := "", "", "", "";
      this.status, this.remoteIP, this.writer, this.validator := ZeroStatus, "", fallbackWriter, validator;
    }

    /** A new logger with the same fields; the receiver is left alone. */
    method Clone() returns (r: Logger)
      ensures fresh(r) && r.Ctx() == Ctx()
    {
      r := new Logger(Ctx());
    }

    method WithWho(who: string) returns (r: Logger)
      ensures fresh(r) && r.Ctx() == Apply(Ctx(), SetWho(who))
    {
      r := Clone();
      r.who := who;
    }

    method WithModule(moduleName: string) returns (r: Logger)
      ensures fresh(r) && r.Ctx() == Apply(Ctx(), SetModule(moduleName))
    {
      r := Clone();
      r.moduleName := moduleName;
    }

    method WithOp(op: string) returns (r: Logger)
      ensures fresh(r) && r.Ctx() == Apply(Ctx(), SetOp(op))
    {
      r := Clone();
      r.op := op;
    }

    method WithWhatClass(whatClass: string) returns (r: Logger)
      ensures fresh(r) && r.Ctx() == Apply(Ctx(), SetWhatClass(whatClass))
    {
      r := Clone();
      r.whatClass := whatClass;
    }

    method WithWhatInstanceId(whatInstanceId: string) returns (r: Logger)
      ensures fresh(r) && r.Ctx() == Apply(Ctx(), SetWhatInstanceId(whatInstanceId))
    {
      r := Clone();
      r.whatInstanceId := whatInstanceId;
    }

    method WithStatus(status: Status) returns (r: Logger)
      ensures fresh(r) && r.Ctx() == Apply(Ctx(), SetStatus(status))
    {
      r := Clone();
      r.status := status;
    }

    method WithPriority(priority: Priority) returns (r: Logger)
      ensures fresh(r) && r.Ctx() == Apply(Ctx(), SetPriority(priority))
    {
      r := Clone();
      r.priority := priority;
    }

    method WithRemoteIP(remoteIP: string) returns (r: Logger)
      ensures fresh(r) && r.Ctx() == Apply(Ctx(), SetRemoteIP(remoteIP))
    {
      r := Clone();
      r.remoteIP := remoteIP;
    }

    // One shortcut per level, each the same as `WithPriority` of that level.

    method Debug2() returns (r: Logger)
      ensures fresh(r) && r.Ctx() == Apply(Ctx(), SetPriority(Priority.Debug2))
    {
      r := WithPriority(Priority.Debug2);
    }

    method Debug1() returns (r: Logger)
      ensures fresh(r) && r.Ctx() == Apply(Ctx(), SetPriority(Priority.Debug1))
    {
      r := WithPriority(Priority.Debug1);
    }

    method Debug0() returns (r: Logger)
      ensures fresh(r) && r.Ctx() == Apply(Ctx(), SetPriority(Priority.Debug0))
    {
      r := WithPriority(Priority.Debug0);
    }

    method Info() returns (r: Logger)
      ensures fresh(r) && r.Ctx() == Apply(Ctx(), SetPriority(Priority.Info))
    {
      r := WithPriority(Priority.Info);
    }

    method Warn() returns (r: Logger)
      ensures fresh(r) && r.Ctx() == Apply(Ctx(), SetPriority(Priority.Warn))
    {
      r := WithPriority(Priority.Warn);
    }

    method Err() returns (r: Logger)
      ensures fresh(r) && r.Ctx() == Apply(Ctx(), SetPriority(Priority.Err))
    {
      r := WithPriority(Priority.Err);
    }

    method Crit() returns (r: Logger)
      ensures fresh(r) && r.Ctx() == Apply(Ctx(), SetPriority(Priority.Crit))
    {
      r := WithPriority(Priority.Crit);
    }

    method Sec() returns (r: Logger)
      ensures fresh(r) && r.Ctx() == Apply(Ctx(), SetPriority(Priority.Sec))
    {
      r := WithPriority(Priority.Sec);
    }

    /** Sets this logger's threshold in place; nothing else changes. */
    method ChangePriority(newPriority: Priority)
      modifies this
      ensures Ctx() == old(Ctx()).(priority := newPriority)
    {
      priority := newPriority;
    }

    /** Whether an entry of level `p` passes this logger's threshold. */
    function ShouldLog(p: Priority): (r: bool)
      reads this
      ensures r <==> p in Admitted(priority)
    {
      AtLeast(p, priority)
    }

    /**
      An entry carrying this logger's context, the message, the payload and the
      emission time; its type tag is left unset.
    */
    function NewLogEntry(message: string, data: Data, when: Instant): (e: LogEntry)
      reads this
      ensures CarriesContext(e, Ctx())
      ensures e.message == message && e.data == data && e.when == when && e.logType == Unset
      ensures ShouldLog(e.priority)
    {
      LogEntry(appName, system, moduleName, priority, who, op, when, whatClass, whatInstanceId,
               status, remoteIP, Unset, message, data)
    }

    /**
      Logs one entry: stamps it with this logger's application name, drops it
      if it is below the threshold, and otherwise routes it as `Routed` states.
      The returned events are the effects on writers and standard error; the
      caller never sees an error.
    */
    method Emit(entry: LogEntry, env: Env) returns (events: seq<Event>)
      ensures events == [] <==> !ShouldLog(entry.priority)
      ensures ShouldLog(entry.priority) ==> Routed(Ctx(), env, entry.(appName := appName), events)
    {
      var e := entry.(appName := appName);
      events := [];
      if !ShouldLog(e.priority) {
        return;
      }
      if !env.valid(validator, e) {
        if writer.FallbackWriter? {
          var out := FormatAndWrite(env, writer.fallback, e);
          events := out.events;
          if out.err.Some? {
            events := events + [Stderr(out.err.value, e)];
          }
          AttemptIsRouted(Ctx(), env, e, writer.fallback, events);
        } else {
          events := [Stderr(Invalid, e)];
          StderrAloneIsRouted(Ctx(), env, e);
        }
        return;
      }
      var out := FormatAndWrite(env, writer, e);
      events := out.events;
      if out.err.Some? {
        events := events + [Stderr(out.err.value, e)];
      }
      AttemptIsRouted(Ctx(), env, e, writer, events);
    }

    /** Logs a data-change event. */
    method LogDataChange(message: string, data: ChangeInfo, when: Instant, env: Env) returns (events: seq<Event>)
      ensures events != []
      ensures forall ev <- events :: ev.entry.logType == Change && TagMatchesData(ev.entry)
      ensures Routed(Ctx(), env, NewLogEntry(message, ChangeData(data), when).(logType := Change), events)
    {
      var entry := NewLogEntry(message, ChangeData(data), when);
      entry := entry.(logType := Change);
      events := Emit(entry, env);
    }

    /** Logs an activity event. */
    method LogActivity(message: string, data: ActivityInfo, when: Instant, env: Env) returns (events: seq<Event>)
      ensures events != []
      ensures forall ev <- events :: ev.entry.logType == Activity && TagMatchesData(ev.entry)
      ensures Routed(Ctx(), env, NewLogEntry(message, ActivityData(data), when).(logType := Activity), events)
    {
      var entry := NewLogEntry(message, ActivityData(data), when);
      entry := entry.(logType := Activity);
      events := Emit(entry, env);
    }

    /**
      Logs a debug event after overwriting the payload's call-site, process and
      runtime fields with what the collaborators report.
    */
    method LogDebug(message: string, data: DebugInfo, site: CallSite, pid: int, runtimeVersion: string,
                    when: Instant, env: Env) returns (events: seq<Event>)
      ensures events != []
      ensures forall ev <- events ::
                && ev.entry.logType == Debug && TagMatchesData(ev.entry)
                && var d := ev.entry.data.debug;
                && d.fileName == site.fileName && d.lineNumber == site.lineNumber
                && d.functionName == site.functionName && d.stackTrace == site.stackTrace
                && d.pid == pid && d.runtime == runtimeVersion && d.extras == data.extras
      ensures Routed(Ctx(), env,
                     NewLogEntry(message, DebugData(data.(fileName := site.fileName, lineNumber := site.lineNumber,
                                                          functionName := site.functionName, stackTrace := site.stackTrace,
                                                          pid := pid, runtime := runtimeVersion)), when)
                       .(logType := Debug),
                     events)
    {
      var d := data;
      d := d.(fileName := site.fileName, lineNumber := site.lineNumber,
              functionName := site.functionName, stackTrace := site.stackTrace);
      d := d.(pid := pid);
      d := d.(runtime := runtimeVersion);
      var entry := NewLogEntry(message, DebugData(d), when);
      entry := entry.(logType := Debug);
      events := Emit(entry, env);
    }

    /** Logs a bare message as an activity event with an empty message field. */
    method Log(message: string, when: Instant, env: Env) returns (events: seq<Event>)
      ensures events != []
      ensures forall ev <- events ::
                ev.entry.logType == Activity && ev.entry.message == "" && ev.entry.data == ActivityData(Text(message))
      ensures Routed(Ctx(), env, NewLogEntry("", ActivityData(Text(message)), when).(logType := Activity), events)
    {
      events := LogActivity("", Text(message), when, env);
    }
  }

  /**
    A logger derived before `ChangePriority` keeps the threshold it was derived
    with, while the receiver takes the new one.
  */
  method DerivedLoggerKeepsPriority(l: Logger, who: string, newPriority: Priority) returns (derived: Logger)
    modifies l
    ensures derived != l
    ensures derived.Ctx() == Apply(old(l.Ctx()), SetWho(who))
    ensures derived.priority == old(l.priority)
    ensures l.Ctx() == old(l.Ctx()).(priority := newPriority)
  {
    derived := l.WithWho(who);
    l.ChangePriority(newPriority);
  }

  /**
    With a validator that accepts every entry and a writer that takes every
    line, an activity logged through the `Crit` shortcut is written once, to
    the logger's writer, at level `Crit` and with the given message.
  */
  method CritActivityIsWrittenOnce(l: Logger, info: ActivityInfo, when: Instant, env: Env) returns (events: seq<Event>)
    requires forall e :: env.valid(l.validator, e)
    requires forall e :: env.encode(e).Some?
    requires forall line :: env.accepts(l.writer, line)
    ensures |events| == 1 && events[0].Written? && events[0].ok
    ensures events[0].to == l.writer
    ensures events[0].entry.priority == Priority.Crit && events[0].entry.message == "disk full"
    ensures events[0].entry.logType == Activity && events[0].entry.data == ActivityData(info)
  {
    var critical := l.Crit();
    events := critical.LogActivity("disk full", info, when, env);
    ghost var e := critical.NewLogEntry("disk full", ActivityData(info), when).(logType := Activity);
    ValidGoesToPrimaryThenStderr(critical.Ctx(), env, e, events);
  }

  /**
    A chain of `With*` calls gives the logger whose context is `Derive` of the
    receiver's along that chain; the identity fields and the shared writer and
    validator are those of the receiver, which is left alone.
  */
  method WithWhoThenOp(l: Logger, who: string, op: string) returns (r: Logger)
    ensures fresh(r) && r.Ctx() == Derive(l.Ctx(), [SetWho(who), SetOp(op)])
    ensures r.appName == l.appName && r.system == l.system
    ensures r.writer == l.writer && r.validator == l.validator
    ensures r.who == who && r.op == op
  {
    var first := l.WithWho(who);
    r := first.WithOp(op);
    ghost var chain := [SetWho(who), SetOp(op)];
    assert chain[..1] == [SetWho(who)] && chain[..1][..0] == [];
    assert Derive(l.Ctx(), chain[..1]) == Apply(l.Ctx(), SetWho(who)) == first.Ctx();
    DeriveKeepsIdentity(l.Ctx(), [SetWho(who), SetOp(op)]);
  }
}
