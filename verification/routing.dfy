/**
  Where an entry goes once it has passed the priority filter: the primary
  writer, the fallback writer's secondary, or standard error as a last resort.
  The validator, the serialiser and each writer's success are oracles.
*/
module Routing {
  import opened Entries
  import opened Contexts

  /** The collaborators `log` calls but whose behaviour is not part of this model. */
  datatype Env = Env(
    valid: (Validator, LogEntry) -> bool,         // the validator accepts the entry
    encode: LogEntry -> Option<seq<byte>>,        // the serialiser, which may fail
    accepts: (Writer, seq<byte>) -> bool)         // the writer takes the bytes without error

  /** Why an entry ended up on standard error. */
  datatype Failure = Invalid | EncodeFailed | WriteFailed

  /** One observable effect of logging an entry. */
  datatype Event =
    | Written(to: Writer, entry: LogEntry, line: seq<byte>, ok: bool)
    | Stderr(cause: Failure, entry: LogEntry)

  const Newline: byte := 10

  /** The serialised entry followed by one newline, if serialisation succeeds. */
  function Line(env: Env, e: LogEntry): Option<seq<byte>>
  {
    match env.encode(e)
    case None => None
    case Some(b) => Some(b + [Newline])
  }

  /** Writer `w` receives `e`: the entry serialises and the writer takes the line. */
  predicate Delivered(env: Env, w: Writer, e: LogEntry)
  {
    Line(env, e).Some? && env.accepts(w, Line(env, e).value)
  }

  /** The effects of one serialise-and-write, and the error it reports, if any. */
  datatype WriteOutcome = WriteOutcome(events: seq<Event>, err: Option<Failure>)

  /** Serialises `e`, appends a newline and writes the line to `w`. */
  function FormatAndWrite(env: Env, w: Writer, e: LogEntry): (r: WriteOutcome)
    ensures r.err.None? <==> Delivered(env, w, e)
    ensures r.err == Some(EncodeFailed) <==> env.encode(e).None?
    ensures r.err != Some(Invalid)
    ensures |r.events| == 1 <==> env.encode(e).Some?
    ensures |r.events| <= 1
    ensures forall ev <- r.events ::
              && ev.Written? && ev.to == w && ev.entry == e && ev.ok == r.err.None?
              && |ev.line| == |env.encode(e).value| + 1
              && ev.line[..|ev.line| - 1] == env.encode(e).value
              && ev.line[|ev.line| - 1] == Newline
  {
    match env.encode(e)
    case None => WriteOutcome([], Some(EncodeFailed))
    case Some(b) =>
      var line := b + [Newline];
      var ok := env.accepts(w, line);
      WriteOutcome([Written(w, e, line, ok)], if ok then None else Some(WriteFailed))
  }

  /**
    The writer an entry that passed the filter is offered to: the logger's own
    writer when the entry is valid, the fallback writer's secondary when it is
    invalid and the writer has one, and no writer otherwise.
  */
  function Destination(c: Context, env: Env, e: LogEntry): Option<Writer>
  {
    if env.valid(c.validator, e) then Some(c.writer)
    else if c.writer.FallbackWriter? then Some(c.writer.fallback)
    else None
  }

  /**
    The outcome of `log` for an entry `e` that passed the priority filter,
    stated event by event.
  */
  ghost predicate Routed(c: Context, env: Env, e: LogEntry, events: seq<Event>)
  {
    var dest := Destination(c, env, e);
    && 1 <= |events| <= 2
    // every effect concerns this entry
    && (forall ev <- events :: ev.entry == e)
    // a writer is attempted at most once, first, and only the destination
    && (forall i | 0 <= i < |events| && events[i].Written? ::
          i == 0 && dest == Some(events[i].to) && Line(env, e) == Some(events[i].line)
          && events[i].ok == env.accepts(events[i].to, events[i].line))
    && (events[0].Written? <==> dest.Some? && Line(env, e).Some?)
    // standard error is used exactly when the destination did not take the entry, and only last
    && (forall i | 0 <= i < |events| - 1 :: events[i].Written?)
    && (events[|events| - 1].Stderr? <==> !(dest.Some? && Delivered(env, dest.value, e)))
    && (events[|events| - 1].Stderr? ==>
          events[|events| - 1].cause ==
            if dest.None? then Invalid
            else if Line(env, e).None? then EncodeFailed
            else WriteFailed)
  }

  /** Offering `e` to its destination `w`, with standard error after a failed attempt, is the routed outcome. */
  lemma AttemptIsRouted(c: Context, env: Env, e: LogEntry, w: Writer, events: seq<Event>)
    requires Destination(c, env, e) == Some(w)
    requires var out := FormatAndWrite(env, w, e);
             events == out.events + if out.err.Some? then [Stderr(out.err.value, e)] else []
    ensures Routed(c, env, e, events)
  {
  }

  /** An invalid entry with no fallback writer goes to standard error alone: the routed outcome. */
  lemma StderrAloneIsRouted(c: Context, env: Env, e: LogEntry)
    requires Destination(c, env, e) == None
    ensures Routed(c, env, e, [Stderr(Invalid, e)])
  {
  }

  /** `Routed` pins the effects down completely: at most one trace satisfies it. */
  lemma RoutedIsExact(c: Context, env: Env, e: LogEntry, xs: seq<Event>, ys: seq<Event>)
    requires Routed(c, env, e, xs) && Routed(c, env, e, ys)
    ensures xs == ys
  {
  }

  /** No entry is lost: the last effect is a write that succeeded, or standard error. */
  lemma RoutedNeverLoses(c: Context, env: Env, e: LogEntry, events: seq<Event>)
    requires Routed(c, env, e, events)
    ensures var last := events[|events| - 1]; last.Stderr? || (last.Written? && last.ok)
  {
  }

  /**
    An invalid entry never reaches the logger's own writer: it goes to the
    fallback writer's secondary if there is one, and to standard error only.
  */
  lemma InvalidNeverReachesPrimary(c: Context, env: Env, e: LogEntry, events: seq<Event>)
    requires Routed(c, env, e, events)
    requires !env.valid(c.validator, e)
    ensures forall ev <- events :: ev.Written? ==> ev.to != c.writer
    ensures c.writer.FallbackWriter? && Delivered(env, c.writer.fallback, e) ==>
              events == [Written(c.writer.fallback, e, Line(env, e).value, true)]
    ensures c.writer.FallbackWriter? && Line(env, e).Some? && !Delivered(env, c.writer.fallback, e) ==>
              events == [Written(c.writer.fallback, e, Line(env, e).value, false), Stderr(WriteFailed, e)]
    ensures c.writer.FallbackWriter? && Line(env, e).None? ==> events == [Stderr(EncodeFailed, e)]
    ensures !c.writer.FallbackWriter? ==> events == [Stderr(Invalid, e)]
  {
  }

  /**
    A valid entry goes to the logger's own writer only; if that write fails it
    goes to standard error, and `log` never offers it to the secondary itself.
  */
  lemma ValidGoesToPrimaryThenStderr(c: Context, env: Env, e: LogEntry, events: seq<Event>)
    requires Routed(c, env, e, events)
    requires env.valid(c.validator, e)
    ensures forall ev <- events :: ev.Written? ==> ev.to == c.writer
    ensures Delivered(env, c.writer, e) ==> events == [Written(c.writer, e, Line(env, e).value, true)]
    ensures Line(env, e).Some? && !Delivered(env, c.writer, e) ==>
              events == [Written(c.writer, e, Line(env, e).value, false), Stderr(WriteFailed, e)]
    ensures Line(env, e).None? ==> events == [Stderr(EncodeFailed, e)]
  {
  }
}
