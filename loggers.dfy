/** The `Logger` class of src/logging.ts: a wrapper around one backend
    handle that owns a single entry builder (its field map and pending
    level) and lends the same entry object back from every chained call. */
module Loggers {
  import opened Wrappers
  import opened Levels
  import opened Values
  import opened Entries
  import opened Pino

  /** The entry object a logger hands out. Its methods are the logger's
      own, bound to it; `owner` records that binding, and `Logger.Valid`
      keeps it. */
  class Entry {
    var owner: Logger?

    constructor ()
      ensures owner == null
    {
      owner := null;
    }
  }

  class Logger {
    const log: Backend
    const entry: Entry
    /** The field map of the statement being built. */
    var entryCtx: map<string, Value>
    /** The level selected for the statement being built, if any. */
    var entryLevel: Option<EntryLevel>

    constructor (log: Backend)
      ensures Valid() && this.log == log && fresh(entry)
      ensures State() == Empty
    {
      this.log := log;
      entry := new Entry();
      entryCtx := map[];
      entryLevel := None;
      new;
      entry.owner := this;
    }

    /** The object invariant: the entry handed out is bound to this logger. */
    ghost predicate Valid()
      reads entry
    {
      entry.owner == this
    }

    /** The builder state, as the protocol in `Entries` describes it. */
    function State(): EntryState
      reads this
    {
      EntryState(entryCtx, entryLevel)
    }

    /** Any field setter of the entry (`str`, `num`, `bool`, `obj`, `unknown`,
        `err`, `thread`, `pid`, `host`, `ip`, `cip` and the distributed-trace
        `trace`): one key is written and the same entry is returned. */
    method Set(op: FieldOp) returns (e: Entry)
      requires Valid()
      modifies this
      ensures Valid() && e == entry
      ensures State() == Step(old(State()), Field(op)).next
    {
      entryCtx := entryCtx[Key(op) := Stored(op)];
      e := entry;
    }

    /** `trace()`, `debug()`, `info()`, `warn()`, `error()`, `fatal()`: selects
        the pending level, whether or not it is enabled, and returns the entry. */
    method Begin(l: EntryLevel) returns (e: Entry)
      requires Valid()
      modifies this
      ensures Valid() && e == entry
      ensures State() == Step(old(State()), Select(l)).next
    {
      entryLevel := Some(l);
      e := entry;
    }

    /** `msg(text, ...args)`: hands the fields to the backend at the pending
        level (trace if none) with the message, then empties the builder. */
    method Msg(text: string, args: seq<string>)
      requires Valid()
      modifies this, log`emitted
      ensures Valid()
      ensures State() == Step(old(State()), Call.Msg(text, args)).next
      ensures log.emitted == old(log.emitted) + Emitted(Step(old(State()), Call.Msg(text, args)).emitted)
    {
      var level := entryLevel.GetOr(Trace);
      log.Emit(Record(level, entryCtx, Some(text), args));
      entryCtx := map[];
      entryLevel := None;
    }

    /** `send()`: as `msg`, without a message. */
    method Send()
      requires Valid()
      modifies this, log`emitted
      ensures Valid()
      ensures State() == Step(old(State()), Call.Send).next
      ensures log.emitted == old(log.emitted) + Emitted(Step(old(State()), Call.Send).emitted)
    {
      var level := entryLevel.GetOr(Trace);
      log.Emit(Record(level, entryCtx, None, []));
      entryCtx := map[];
      entryLevel := None;
    }

    /** `isTrace()` ... `isFatal()`: whether a statement at `l` passes the
        backend's level, that is, whether the configured level is at or below `l`. */
    function IsEnabled(l: EntryLevel): (r: bool)
      reads this, log
      ensures r <==> Rank(log.level) <= Rank(l)
    {
      AtMost(log.LevelVal(), Threshold(l))
    }

    /** The gates are monotone: when a level is enabled, so is every level above it. */
    lemma EnabledMonotone(a: EntryLevel, b: EntryLevel)
      requires IsEnabled(a) && Rank(a) <= Rank(b)
      ensures IsEnabled(b)
    {
    }

    /** `pino()`: the wrapped backend handle. */
    function Pino(): Backend {
      log
    }

    /** `ctx(c)`: adds persistent bindings to the backend and returns this logger. */
    method Ctx(c: map<string, Value>) returns (r: Logger)
      modifies log`bindings
      ensures r == this
      ensures log.bindings.Keys == old(log.bindings).Keys + c.Keys
      ensures forall k :: k in old(log.bindings) ==> log.bindings[k] == old(log.bindings)[k]
      ensures forall k :: k in c && k !in old(log.bindings) ==> log.bindings[k] == c[k]
    {
      log.SetBindings(c);
      r := this;
    }

    /** `getCtx()`: the backend's current bindings. */
    function GetCtx(): map<string, Value>
      reads this, log
    {
      log.bindings
    }

    /** `level(l)`: sets the backend's level; afterwards `getLevel()` is `l` and
        exactly the levels at or above `l` are enabled. */
    method SetLevel(l: Level) returns (r: Logger)
      modifies log`level
      ensures r == this
      ensures GetLevel() == l
      ensures forall t: EntryLevel :: IsEnabled(t) <==> Rank(l) <= Rank(t)
    {
      log.SetLevel(l);
      r := this;
    }

    /** `getLevel()`. */
    function GetLevel(): Level
      reads this, log
    {
      log.level
    }
  }
}
