# logharbour logger core in Dafny

This project models the core of the logharbour structured logger
(`logharbour/logharbour.go`). It covers three parts:

- **The context builder.** `Logger` holds ten scalar context fields plus a
  writer and a validator that its derived loggers share. `clone` returns a
  copy with the same fields. Every `With*` method and every severity shortcut
  returns a copy that differs from the receiver in exactly one field.
  `ChangePriority` is the only method that changes a logger in place.
- **The priority filter.** `shouldLog(p)` is `p >= threshold` over the levels
  `Debug2 < Debug1 < Debug0 < Info < Warn < Err < Crit < Sec`. The default
  threshold is `Info`.
- **The write pipeline of `log`.** It stamps the application name, filters,
  validates, serialises with one trailing newline and writes. Validation
  failures go to a fallback writer's secondary writer, or to standard error if
  there is none. Write failures go to standard error. No error ever reaches
  the caller. The emission methods `LogDataChange`, `LogActivity`, `LogDebug`
  and `Log` build the entry with its type tag and hand it to `log`.

Layout:

- `priority.dfy` (module `Priorities`): the levels, their rank and the order the filter uses.
- `entry.dfy` (module `Entries`): the log entry record, its payloads and type tags, writers and validators.
- `context.dfy` (module `Contexts`): the logger's fields as a value (`Context`) and the
  `With*` family as one-field updates (`Derivation`, `Apply`), including
  chains of them (`Derive`).
- `routing.dfy` (module `Routing`): serialise-and-write, the destination of an entry and the
  exact outcome of `log` (`Routed`).
- `logger.dfy` (module `Logharbour`): the `Logger` class with the source's methods, plus three
  client methods that show what callers can rely on.

How the model is built:

- **`Logger` is a class.** `ChangePriority` updates it in place, and
  `Ctx()` gives its fields as a `Context` value. Each `With*` method and
  shortcut returns a fresh `Logger` whose `Ctx()` equals `Apply` of the
  receiver's context with one `Derivation`. The receiver is not modified.
- **`log` is the method `Logger.Emit`.** It returns the trace of effects it
  caused, as a sequence of `Event`s:
  - a write attempt on a writer, with the bytes offered and whether the writer took them;
  - an entry sent to standard error, with the cause.

  The validator, the JSON encoder and each writer's success are oracles,
  bundled in `Env`.
- **The entry's priority always equals the logger's threshold.**
  `newLogEntry` copies the logger's threshold into the entry's priority
  (logharbour.go:210). So an entry built by one of the emission methods always
  passes that same logger's `shouldLog`. The filter at logharbour.go:167 only
  drops entries handed to `log` directly. `NewLogEntry` and the emission
  methods prove this: every emission produces at least one event.
- **The code is followed where its doc comment disagrees.** The doc comment
  of `log` (logharbour.go:157-161) says `log` tries the fallback writer when
  writing the entry fails. The code does not: `log` uses the fallback
  writer's secondary only when validation fails (logharbour.go:170-181). A
  write failure on the logger's own writer goes straight to standard error
  (logharbour.go:183-185), with no fallback attempt by `log` itself. The
  model follows the code, and `ValidGoesToPrimaryThenStderr` proves this.
  When the logger's writer is itself a fallback writer, line 183 calls its
  own `Write` method. Whether that method falls back to its secondary is not
  modelled (see "## Left out"), so the comment on `NewLoggerWithFallback`
  (logharbour.go:78) may describe that method.

## Model

| member | source | states |
|---|---|---|
| Priorities.Rank | logharbour/logharbour.go:260-298 | each level sits at its own position in the declaration order Debug2 … Sec |
| Priorities.AtLeast | logharbour/logharbour.go:189-191 | the comparison `p >= threshold` of the filter, on the ranks of the two levels |
| Priorities.AtLeastMeansAdmitted | logharbour/logharbour.go:189-191 | `p >= t` holds exactly when `p` is `t` or a level declared after it |
| Priorities.AtLeastIsTotalOrder | logharbour/logharbour.go:189-191 | the filter's comparison is reflexive (equal levels pass), antisymmetric, transitive and total |
| Contexts.Apply | logharbour/logharbour.go:89-155 | the context a `With*` call returns: the receiver's context with the one named field replaced by the argument |
| Contexts.ApplyChangesOnlyTarget | logharbour/logharbour.go:89-155 | a `With*` derivation changes exactly its own field, which then holds the argument; every other field, including writer and validator, is copied |
| Contexts.ApplyIsDeterminedByFields | logharbour/logharbour.go:89-155 | a context that holds the argument in the named field and the receiver's values in all other fields is exactly the `With*` result |
| Contexts.FieldsDetermineContext | logharbour/logharbour.go:31-45 | two contexts that agree on all twelve logger fields are equal |
| Contexts.DerivationsCommute | logharbour/logharbour.go:89-155 | `With*` calls on different fields commute; on the same field the later call wins |
| Contexts.DeriveFields | logharbour/logharbour.go:89-155 | after any chain of `With*` calls, each field holds the value set last for it, or its original value |
| Contexts.DeriveKeepsIdentity | logharbour/logharbour.go:89-155 | no chain of `With*` calls changes appName, system, the shared writer or the shared validator |
| Routing.FormatAndWrite | logharbour/logharbour.go:194-202 | an encoding failure writes nothing and reports an error; otherwise the encoding plus one newline is offered to the writer once, and an error is reported iff the writer refuses it |
| Routing.Destination | logharbour/logharbour.go:170-185 | the writer an entry that passed the filter is offered to: the logger's writer if valid, the fallback writer's secondary if invalid and there is one, none otherwise |
| Routing.Routed | logharbour/logharbour.go:162-186 | the outcome of `log` after the filter: one or two effects on the entry; at most one write attempt, first and only to the destination, with the encoding plus newline; standard error last, exactly when the destination did not take the entry, with the matching cause |
| Routing.AttemptIsRouted | logharbour/logharbour.go:170-185 | one write attempt to the destination, followed by standard error only if it failed, meets the `log` outcome |
| Routing.StderrAloneIsRouted | logharbour/logharbour.go:178-180 | an invalid entry without a fallback writer goes to standard error alone, which meets the `log` outcome |
| Routing.RoutedIsExact | logharbour/logharbour.go:162-186 | the stated outcome of `log` determines the effects completely |
| Routing.RoutedNeverLoses | logharbour/logharbour.go:162-186 | an entry that passes the filter ends in a successful write or on standard error |
| Routing.InvalidNeverReachesPrimary | logharbour/logharbour.go:170-181 | an invalid entry never reaches the logger's writer; with a fallback writer the whole trace is one successful write to the secondary, or a refused write followed by standard error, or standard error alone if encoding fails; without one it goes to standard error only |
| Routing.ValidGoesToPrimaryThenStderr | logharbour/logharbour.go:183-185 | a valid entry is offered only to the logger's writer; the whole trace is one successful write, or a refused write followed by standard error (`log` never offers it to the secondary itself), or standard error alone if encoding fails |
| Logharbour.Logger.constructor | logharbour/logharbour.go:49-62 | the logger built from a context holds exactly that context |
| Logharbour.Logger.NewLogger | logharbour/logharbour.go:67-75 | the new logger has the given appName, system, writer and validator, threshold DefaultPriority = Info, zero status and empty module, who, op, whatClass, whatInstanceId and remoteIP |
| Logharbour.Logger.NewLoggerWithFallback | logharbour/logharbour.go:79-87 | the same defaults as NewLogger, with a fallback writer as the writer |
| Logharbour.Logger.Clone | logharbour/logharbour.go:48-63 | returns a new logger with the same fields, shared writer and validator included |
| Logharbour.Logger.WithWho | logharbour/logharbour.go:90-94 | returns a new logger equal to the receiver except `who`, which holds the argument |
| Logharbour.Logger.WithModule | logharbour/logharbour.go:97-101 | returns a new logger equal to the receiver except `module`, which holds the argument |
| Logharbour.Logger.WithOp | logharbour/logharbour.go:104-108 | returns a new logger equal to the receiver except `op`, which holds the argument |
| Logharbour.Logger.WithWhatClass | logharbour/logharbour.go:111-115 | returns a new logger equal to the receiver except `whatClass`, which holds the argument |
| Logharbour.Logger.WithWhatInstanceId | logharbour/logharbour.go:118-122 | returns a new logger equal to the receiver except `whatInstanceId`, which holds the argument |
| Logharbour.Logger.WithStatus | logharbour/logharbour.go:125-129 | returns a new logger equal to the receiver except `status`, which holds the argument |
| Logharbour.Logger.WithPriority | logharbour/logharbour.go:144-148 | returns a new logger equal to the receiver except `priority`, which holds the argument |
| Logharbour.Logger.WithRemoteIP | logharbour/logharbour.go:151-155 | returns a new logger equal to the receiver except `remoteIP`, which holds the argument |
| Logharbour.Logger.Debug2 | logharbour/logharbour.go:261-263 | the same as `WithPriority(Debug2)` |
| Logharbour.Logger.Debug1 | logharbour/logharbour.go:266-268 | the same as `WithPriority(Debug1)` |
| Logharbour.Logger.Debug0 | logharbour/logharbour.go:271-273 | the same as `WithPriority(Debug0)` |
| Logharbour.Logger.Info | logharbour/logharbour.go:276-278 | the same as `WithPriority(Info)` |
| Logharbour.Logger.Warn | logharbour/logharbour.go:281-283 | the same as `WithPriority(Warn)` |
| Logharbour.Logger.Err | logharbour/logharbour.go:286-288 | the same as `WithPriority(Err)` |
| Logharbour.Logger.Crit | logharbour/logharbour.go:291-293 | the same as `WithPriority(Crit)` |
| Logharbour.Logger.Sec | logharbour/logharbour.go:296-298 | the same as `WithPriority(Sec)` |
| Logharbour.Logger.ChangePriority | logharbour/logharbour.go:254-258 | the receiver's threshold becomes the argument; every other field is unchanged |
| Logharbour.Logger.ShouldLog | logharbour/logharbour.go:189-191 | true exactly for the threshold itself and the levels declared after it |
| Logharbour.Logger.NewLogEntry | logharbour/logharbour.go:205-221 | the entry carries all ten context fields, the message, the data and the time verbatim; its type is still unset; its priority passes the logger's own filter |
| Logharbour.Logger.Emit | logharbour/logharbour.go:162-186 | no effect at all iff the entry is below the threshold; otherwise the entry, restamped with the logger's appName, meets the `log` outcome (`Routed`) |
| Logharbour.Logger.LogDataChange | logharbour/logharbour.go:224-228 | at least one effect; every effect carries a `Change` entry with change data; the entry built from the context is routed as `log` does |
| Logharbour.Logger.LogActivity | logharbour/logharbour.go:231-235 | at least one effect; every effect carries an `Activity` entry with activity data; the entry built from the context is routed as `log` does |
| Logharbour.Logger.LogDebug | logharbour/logharbour.go:238-246 | at least one effect; every effect carries a `Debug` entry whose file, line, function, stack trace, pid and runtime come from the collaborators, with its other payload fields kept |
| Logharbour.Logger.Log | logharbour/logharbour.go:249-251 | at least one effect; every effect carries an `Activity` entry with an empty message and the given string as its data |
| Logharbour.DerivedLoggerKeepsPriority | logharbour/logharbour.go:254-258 | a logger derived before `ChangePriority` keeps its old threshold; the receiver takes the new one and keeps every other field |
| Logharbour.WithWhoThenOp | logharbour/logharbour.go:89-108 | `WithWho(a).WithOp(b)` gives a new logger whose context is the two-step derivation of the receiver's; appName, system, writer and validator are the receiver's |
| Logharbour.CritActivityIsWrittenOnce | logharbour/logharbour.go:291-293 | with a validator, encoder and writer that always succeed, `Crit().LogActivity("disk full", …)` is written exactly once, to the logger's writer, at level Crit |

## Left out

- JSON encoding. `json.Marshal` is an oracle (`Env.encode`) that may fail.
  Only the one appended newline is modelled.
- Validation rules. The validator's struct-tag rules live in files that are
  not part of this model. Validity is an oracle (`Env.valid`) applied to the
  logger's validator and the stamped entry.
- Runtime and OS queries. The model takes these as parameters instead of
  calling them:
  - `getSystemName()`: the `system` argument of the constructors;
  - `validator.New()`: the `validator` argument;
  - `time.Now().UTC()`: the `when` argument of the emission methods;
  - `GetDebugInfo(2)`: the `CallSite` argument of `LogDebug`;
  - `os.Getpid()`: the `pid` argument;
  - `runtime.Version()`: the `runtimeVersion` argument.
- The mutex. Loggers are used sequentially. Lock acquisition is not modelled,
  and neither is the fresh mutex a clone receives.
- Byte-level I/O. Each write is an attempt with a success flag from
  `Env.accepts`. Standard error is an `Event` with a cause (validation,
  encoding or write failure). The `fmt.Fprintf` text is not modelled.
  `FallbackWriter.Write` is not part of this model, so a fallback writer used
  as the primary writer is one opaque destination. `Env.accepts` on it is not
  linked to its primary or secondary writer, and whether it falls back to
  its secondary on a failed write is not modelled.
- Types declared outside logharbour.go:
  - `ChangeInfo`, a structured activity payload and the debug payload's other
    fields are abstract types;
  - `ActivityInfo` is either a bare string (as `Log` passes it) or such a
    structured value;
  - `Status` is an integer whose zero value is 0;
  - `LogPriority` is an enumeration, of which only the order matters;
  - the zero value of the entry type tag, which `newLogEntry` leaves in place,
    is modelled as `Unset`.
- Nil receivers, a nil writer and a nil `*FallbackWriter` are not modelled.
  The `*FallbackWriter` parameter type is stated as a precondition of
  `NewLoggerWithFallback`.
