/** The log levels of the library (src/logging.ts, type `Level` and
    `isLevel`) and the numeric values the backend compares against. */
module Levels {
  import opened Wrappers

  datatype Level = Silent | Trace | Debug | Info | Warn | Error | Fatal

  /** The levels that have an entry method on a logger: every level but silent. */
  type EntryLevel = l: Level | l != Silent witness Trace

  /** The name a level is written with in configuration and in `getLevel()`. */
  function Name(l: Level): string {
    match l
    case Silent => "silent"
    case Trace => "trace"
    case Debug => "debug"
    case Info => "info"
    case Warn => "warn"
    case Error => "error"
    case Fatal => "fatal"
  }

  /** `isLevel`: membership of a string in the list of the seven level names. */
  function IsLevel(s: string): (b: bool)
    ensures b <==> exists l: Level :: Name(l) == s
  {
    var names := ["silent", "trace", "debug", "info", "warn", "error", "fatal"];
    assert names == [Name(Silent), Name(Trace), Name(Debug), Name(Info), Name(Warn), Name(Error), Name(Fatal)];
    s in names
  }

  /** Reads a level name; the inverse of `Name` on the names `IsLevel` accepts. */
  function Parse(s: string): (r: Option<Level>)
    ensures r.Some? <==> IsLevel(s)
    ensures r.Some? ==> Name(r.value) == s
  {
    if s == "silent" then Some(Silent)
    else if s == "trace" then Some(Trace)
    else if s == "debug" then Some(Debug)
    else if s == "info" then Some(Info)
    else if s == "warn" then Some(Warn)
    else if s == "error" then Some(Error)
    else if s == "fatal" then Some(Fatal)
    else None
  }

  lemma ParseName(l: Level)
    ensures Parse(Name(l)) == Some(l)
  {
  }

  /** The position of a level in the order trace < debug < info < warn < error < fatal < silent. */
  function Rank(l: Level): nat {
    match l
    case Trace => 0
    case Debug => 1
    case Info => 2
    case Warn => 3
    case Error => 4
    case Fatal => 5
    case Silent => 6
  }

  /** A backend level value: a number, or positive infinity for silent. */
  datatype LevelVal = Finite(n: int) | Infinity

  /** The backend's numeric value of a level. */
  function NumericValue(l: Level): LevelVal {
    match l
    case Trace => Finite(10)
    case Debug => Finite(20)
    case Info => Finite(30)
    case Warn => Finite(40)
    case Error => Finite(50)
    case Fatal => Finite(60)
    case Silent => Infinity
  }

  /** JavaScript's `v <= bound`, where `Infinity <= n` is false for every number n. */
  predicate AtMost(v: LevelVal, bound: int) {
    match v
    case Finite(n) => n <= bound
    case Infinity => false
  }

  /** The constant each `is<Level>()` gate compares the backend's value against. */
  function Threshold(l: EntryLevel): int {
    match l
    case Trace => 10
    case Debug => 20
    case Info => 30
    case Warn => 40
    case Error => 50
    case Fatal => 60
  }
}
