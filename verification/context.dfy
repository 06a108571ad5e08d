/**
  The logger's context as a value, and the copy-on-write derivations that
  the `With*` methods perform on it.
*/
module Contexts {
  import opened Priorities
  import opened Entries

  /** Every field a logger holds, with the writer and validator it shares with its derivations. */
  datatype Context = Context(
    appName: string,
    system: string,
    moduleName: string,
    priority: Priority,
    who: string,
    op: string,
    whatClass: string,
    whatInstanceId: string,
    status: Status,
    remoteIP: string,
    writer: Writer,
    validator: Validator)

  /** Names of the context fields. */
  datatype Field =
    | AppNameField | SystemField | ModuleField | PriorityField | WhoField | OpField
    | WhatClassField | WhatInstanceIdField | StatusField | RemoteIPField | WriterField | ValidatorField

  /** The value held in one field, whatever its type. */
  datatype FieldValue = StrValue(s: string) | LevelValue(p: Priority) | StatusValue(code: Status)
                      | WriterValue(w: Writer) | ValidatorValue(v: Validator)

  /** Reads one field of a context. */
  function Get(c: Context, f: Field): FieldValue
  {
    match f
    case AppNameField => StrValue(c.appName)
    case SystemField => StrValue(c.system)
    case ModuleField => StrValue(c.moduleName)
    case PriorityField => LevelValue(c.priority)
    case WhoField => StrValue(c.who)
    case OpField => StrValue(c.op)
    case WhatClassField => StrValue(c.whatClass)
    case WhatInstanceIdField => StrValue(c.whatInstanceId)
    case StatusField => StatusValue(c.status)
    case RemoteIPField => StrValue(c.remoteIP)
    case WriterField => WriterValue(c.writer)
    case ValidatorField => ValidatorValue(c.validator)
  }

  /** Two contexts that agree on every field are the same context. */
  lemma FieldsDetermineContext(c: Context, d: Context)
    requires forall f :: Get(c, f) == Get(d, f)
    ensures c == d
  {
    assert Get(c, AppNameField) == Get(d, AppNameField);
    assert Get(c, SystemField) == Get(d, SystemField);
    assert Get(c, ModuleField) == Get(d, ModuleField);
    assert Get(c, PriorityField) == Get(d, PriorityField);
    assert Get(c, WhoField) == Get(d, WhoField);
    assert Get(c, OpField) == Get(d, OpField);
    assert Get(c, WhatClassField) == Get(d, WhatClassField);
    assert Get(c, WhatInstanceIdField) == Get(d, WhatInstanceIdField);
    assert Get(c, StatusField) == Get(d, StatusField);
    assert Get(c, RemoteIPField) == Get(d, RemoteIPField);
    assert Get(c, WriterField) == Get(d, WriterField);
    assert Get(c, ValidatorField) == Get(d, ValidatorField);
  }

  /** One `With*` call: the field it overrides and the value it stores. */
  datatype Derivation =
    | SetWho(who: string)
    | SetModule(moduleName: string)
    | SetOp(op: string)
    | SetWhatClass(whatClass: string)
    | SetWhatInstanceId(whatInstanceId: string)
    | SetStatus(status: Status)
    | SetPriority(priority: Priority)
    | SetRemoteIP(remoteIP: string)

  /** The field a derivation overrides. */
  function Target(d: Derivation): Field
  {
    match d
    case SetWho(_) => WhoField
    case SetModule(_) => ModuleField
    case SetOp(_) => OpField
    case SetWhatClass(_) => WhatClassField
    case SetWhatInstanceId(_) => WhatInstanceIdField
    case SetStatus(_) => StatusField
    case SetPriority(_) => PriorityField
    case SetRemoteIP(_) => RemoteIPField
  }

  /** The value a derivation stores. */
  function NewValue(d: Derivation): FieldValue
  {
    match d
    case SetWho(x) => StrValue(x)
    case SetModule(x) => StrValue(x)
    case SetOp(x) => StrValue(x)
    case SetWhatClass(x) => StrValue(x)
    case SetWhatInstanceId(x) => StrValue(x)
    case SetStatus(x) => StatusValue(x)
    case SetPriority(x) => LevelValue(x)
    case SetRemoteIP(x) => StrValue(x)
  }

  /** The context of the logger a `With*` call returns: a copy of `c` with one field overridden. */
  function Apply(c: Context, d: Derivation): Context
  {
    match d
    case SetWho(x) => c.(who := x)
    case SetModule(x) => c.(moduleName := x)
    case SetOp(x) => c.(op := x)
    case SetWhatClass(x) => c.(whatClass := x)
    case SetWhatInstanceId(x) => c.(whatInstanceId := x)
    case SetStatus(x) => c.(status := x)
    case SetPriority(x) => c.(priority := x)
    case SetRemoteIP(x) => c.(remoteIP := x)
  }

  /** A derivation changes exactly its target field, which then holds the derivation's value. */
  lemma ApplyChangesOnlyTarget(c: Context, d: Derivation, f: Field)
    ensures Get(Apply(c, d), f) == if f == Target(d) then NewValue(d) else Get(c, f)
  {
  }

  /**
    The field-by-field description pins a derivation down: any context whose
    target field holds the derivation's value and whose other fields equal
    those of `c` is `Apply(c, d)`.
  */
  lemma ApplyIsDeterminedByFields(c: Context, d: Derivation, r: Context)
    requires forall f :: Get(r, f) == if f == Target(d) then NewValue(d) else Get(c, f)
    ensures r == Apply(c, d)
  {
    forall f ensures Get(r, f) == Get(Apply(c, d), f) {
      ApplyChangesOnlyTarget(c, d, f);
    }
    FieldsDetermineContext(r, Apply(c, d));
  }

  /** The fields no derivation can override: identity, the shared writer and the shared validator. */
  predicate Fixed(f: Field)
  {
    f in {AppNameField, SystemField, WriterField, ValidatorField}
  }

  lemma FixedFieldsAreNeverTargeted(d: Derivation, f: Field)
    requires Fixed(f)
    ensures Target(d) != f
  {
  }

  /** Derivations on different fields commute; on the same field the later one wins. */
  lemma DerivationsCommute(c: Context, d1: Derivation, d2: Derivation)
    ensures Target(d1) != Target(d2) ==> Apply(Apply(c, d1), d2) == Apply(Apply(c, d2), d1)
    ensures Target(d1) == Target(d2) ==> Apply(Apply(c, d1), d2) == Apply(c, d2)
  {
  }

  /** The context after a chain of `With*` calls, applied first to last. */
  function Derive(c: Context, ds: seq<Derivation>): Context
    decreases |ds|
  {
    if ds == [] then c else Apply(Derive(c, ds[..|ds| - 1]), ds[|ds| - 1])
  }

  /** The value of field `f` set by the last derivation in `ds` that targets it, or `original` if none does. */
  function LastSet(ds: seq<Derivation>, f: Field, original: FieldValue): FieldValue
    decreases |ds|
  {
    if ds == [] then original
    else if Target(ds[|ds| - 1]) == f then NewValue(ds[|ds| - 1])
    else LastSet(ds[..|ds| - 1], f, original)
  }

  /** After a chain of derivations every field holds the value set last, or its original value. */
  lemma {:induction false} DeriveFields(c: Context, ds: seq<Derivation>, f: Field)
    ensures Get(Derive(c, ds), f) == LastSet(ds, f, Get(c, f))
    decreases |ds|
  {
    if ds != [] {
      DeriveFields(c, ds[..|ds| - 1], f);
      ApplyChangesOnlyTarget(Derive(c, ds[..|ds| - 1]), ds[|ds| - 1], f);
    }
  }

  lemma {:induction false} FixedFieldsAreNeverSet(ds: seq<Derivation>, f: Field, original: FieldValue)
    requires Fixed(f)
    ensures LastSet(ds, f, original) == original
    decreases |ds|
  {
    if ds != [] {
      FixedFieldsAreNeverTargeted(ds[|ds| - 1], f);
      FixedFieldsAreNeverSet(ds[..|ds| - 1], f, original);
    }
  }

  /**
    No chain of `With*` calls changes the application name, the system name,
    the shared writer or the shared validator.
  */
  lemma {:induction false} DeriveKeepsIdentity(c: Context, ds: seq<Derivation>)
    ensures Derive(c, ds).appName == c.appName && Derive(c, ds).system == c.system
    ensures Derive(c, ds).writer == c.writer && Derive(c, ds).validator == c.validator
  {
    forall f | Fixed(f) ensures Get(Derive(c, ds), f) == Get(c, f) {
      DeriveFields(c, ds, f);
      FixedFieldsAreNeverSet(ds, f, Get(c, f));
    }
    assert Get(Derive(c, ds), AppNameField) == Get(c, AppNameField);
    assert Get(Derive(c, ds), SystemField) == Get(c, SystemField);
    assert Get(Derive(c, ds), WriterField) == Get(c, WriterField);
    assert Get(Derive(c, ds), ValidatorField) == Get(c, ValidatorField);
  }

  /** The entry carries the context's ten scalar fields verbatim. */
  predicate CarriesContext(e: LogEntry, c: Context)
  {
    && e.appName == c.appName
    && e.system == c.system
    && e.moduleName == c.moduleName
    && e.priority == c.priority
    && e.who == c.who
    && e.op == c.op
    && e.whatClass == c.whatClass
    && e.whatInstanceId == c.whatInstanceId
    && e.status == c.status
    && e.remoteIP == c.remoteIP
  }
}
