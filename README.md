# logging-js: entry builder and root registry, in Dafny

This project models the core of `src/logging.ts` of logging-js. That file is a structured-logging
facade over the pino backend. A `Logger` owns one entry builder: a field map (`entryCtx`) and a
pending level (`entryLevel`). A level method (`trace()` … `fatal()`) selects the level and returns
the logger's single `entry` object. Field setters write one key each and return that same object.
`msg`/`send` hand the map to the backend at the pending level (trace when none is set) and then
empty the builder. A module-level `root` slot holds the process-wide root logger. It is managed by
`initialize`, `shutdown` and `isInitialized`. `getRootLogger`/`getLogger` return deferred wrappers
while the slot is empty. Each level call on a wrapper checks the slot again: it throws
`Logger has not been initialized` when the slot is empty, and otherwise forwards.

Modules:

- `Wrappers` (wrappers.dfy): `Option` and `Result`.
- `Levels` (levels.dfy): the seven level names, `isLevel`, the level order, and pino's numeric
  level values. Silent's value is positive infinity, as in pino.
- `Values` (values.dfy): the JavaScript values a caller can attach, `isTypedError`, and the
  normalisation that `err` applies.
- `Entries` (entries.dfy): the entry-builder protocol on plain values. It covers which key each
  setter writes and what it stores, chains of setters (last write wins), and the state machine
  EMPTY → level set → fields … → emit → EMPTY, as `Step`/`Run` over a sequence of calls.
- `Pino` (pino.dfy): `Backend`, a class that stands in for the pino handle. It keeps a level,
  bindings, derived child handles, the records handed to it (`emitted`) and a flush count.
- `Loggers` (loggers.dfy): the `Logger` class. Its field map and pending level are fields that
  its methods update in place. Each builder method (`Set`, `Begin`, `Msg`, `Send`) is proved against `Entries.Step`.
- `Lifecycle` (lifecycle.dfy): the `root` slot as the `Registry` class, the deferred wrappers as
  the `Handle` variants `RootProxy` / `ChildProxy(name, parent?)` next to `Real(logger)`, and
  `Resolve`, the choice each wrapper makes on a level call.
- `Scenarios` (scenarios.dfy): client code shaped like the lazy-initialisation test in
  `src/logging.test.ts:111-127`, which uses the registry and loggers only through their methods' contracts. Wrappers taken before
  `initialize` throw. After `initialize`, the same wrappers reach the root and a fresh child,
  and the child's record carries exactly its own field.

Where the library's comments differ from the code, the model follows the code. Some facts about
the code that the model keeps:

- `getLogger(name, log?)` takes a required name.
- `initialize` never reads `options.ctx`. Bindings are added only through `ctx()`.
- The default level is `info`. The comment at src/logging.ts:349 says `warn`.
- `getRootLogger` never throws. The comment at src/logging.ts:484 says it does. Only level calls
  on a wrapper throw.
- After `shutdown`, real `Logger` references keep working. Only wrappers check the root.
- A parent passed to `getLogger` (or kept by a wrapper) that is itself a wrapper has no `pino`
  property. Deriving a child from it therefore fails with a TypeError. This is modelled as
  `NotAFunction("log.pino")`.

## Model

| member | source | states |
|---|---|---|
| `Levels.IsLevel` | src/logging.ts:28-38 | true exactly when the string is the name of one of the seven levels |
| `Levels.Parse` | src/logging.ts:14-38 | a string reads as a level exactly when `isLevel` accepts it, and the level read has that name |
| `Levels.ParseName` | src/logging.ts:14-21 | every level's name reads back as that level |
| `Values.IsTypedError` | src/logging.ts:68-76 | holds exactly for a non-null object value that has `type`, `message` and `stack` properties; for an `Error` instance the built-in `message` and `stack` count, so only `type` must be added |
| `Values.NormalizeErr` | src/logging.ts:142-159 | an `Error` instance becomes exactly `{type: name, message, stack}`; a typed-error-shaped object becomes exactly `{type, message, stack}` with its three values; any other value is stored verbatim |
| `Values.NormalizeErrIdempotent` | src/logging.ts:68-76 | normalising a stored error record again leaves it unchanged (the record is itself typed-error-shaped) |
| `Entries.Key` | src/logging.ts:117-189 | `str`/`num`/`bool`/`obj`/`unknown` write under the caller's key; each fixed-key setter writes its own key: `err` under `err`, `thread` under `thread`, `pid` under `pid`, `host` under `host`, `ip` under `ip`, `cip` under `cip`, and the distributed-trace `trace` under `dt` |
| `Entries.Write` | src/logging.ts:117-189 | a setter adds exactly its key, stores its value (null and undefined included) there, and keeps every other key's value |
| `Entries.ChainLastWriteWins` | src/logging.ts:117-189 | after a chain of setters, a key is present exactly when some call wrote it or it was present before; it holds the value of the last call that wrote it, otherwise its earlier value |
| `Entries.FieldsOnly` | src/logging.ts:117-189 | field calls emit nothing, keep the pending level, and accumulate into the field map |
| `Entries.Step` | src/logging.ts:191-278 | a level call sets only the pending level; a field call only writes the map; `msg`/`send` emit the current map once at the pending level (trace when unset) and leave the builder empty |
| `Entries.OneRecordPerTerminal` | src/logging.ts:191-204 | in any sequence of calls, the number of records emitted equals the number of `msg`/`send` calls |
| `Entries.StatementEmitsOnce` | src/logging.ts:191-278 | `l().f1()…fn().msg(text, …args)` emits exactly one record, at `l`, with the fields chained over what the map held, plus the message and args; the builder ends empty |
| `Entries.StatementFields` | src/logging.ts:191-197 | a statement started on an empty builder emits exactly the keys its chain wrote, each with its last written value |
| `Entries.ReuseAfterEmit` | src/logging.ts:195-203 | a second `msg`/`send` without new calls emits an empty record at trace |
| `Pino.Backend.constructor` | src/logging.ts:383-407 | a new root handle has the given level and mixin fields, no bindings, no records and no parent |
| `Pino.Backend.Derived` | src/logging.ts:500-501 | a handle derived from a parent keeps the parent's level and mixin, adds the `name` binding, and records its parent and name |
| `Pino.Backend.LevelVal` | src/logging.ts:226-227 | the numeric level value is infinity exactly when the level is silent |
| `Pino.Backend.Child` | src/logging.ts:467-468 | `child({name})` returns a fresh handle derived from this one and leaves this one unchanged |
| `Pino.Backend.SetLevel` | src/logging.ts:311 | the level is set to the given level |
| `Pino.Backend.SetBindings` | src/logging.ts:287-296 | new keys are added and already-bound keys keep their values |
| `Pino.Backend.Emit` | src/logging.ts:194 | the record is appended to the records handed to the backend |
| `Pino.Backend.Flush` | src/logging.ts:425 | the flush count goes up by one |
| `Loggers.Entry.constructor` | src/logging.ts:208-223 | a new entry object is not yet bound to a logger |
| `Loggers.Logger.constructor` | src/logging.ts:206-224 | a new logger wraps the given handle, owns a fresh entry bound to itself (the invariant `Valid`, which `Set`, `Begin`, `Msg` and `Send` keep), and starts with an empty builder |
| `Loggers.Logger.Set` | src/logging.ts:117-189 | every field setter returns the same `entry` object and changes the builder state exactly as `Entries.Step` does for that field call |
| `Loggers.Logger.Begin` | src/logging.ts:230-278 | `trace()` … `fatal()` return the same `entry` object, set only the pending level (enabled or not), and leave the map and the backend untouched |
| `Loggers.Logger.Msg` | src/logging.ts:191-197 | appends exactly the record `Entries.Step` emits for `msg(text, …args)` to the backend, and empties the builder |
| `Loggers.Logger.Send` | src/logging.ts:199-204 | appends exactly the message-less record `Entries.Step` emits for `send()` to the backend, and empties the builder |
| `Loggers.Logger.IsEnabled` | src/logging.ts:226-273 | `isTrace()` … `isFatal()` (thresholds 10 … 60 on `levelVal`) hold exactly when the configured level is at or below the asked level in the order trace < … < fatal < silent |
| `Loggers.Logger.EnabledMonotone` | src/logging.ts:226-273 | when a level is enabled, every higher level is enabled too (so `isTrace` implies all the others) |
| `Loggers.Logger.Ctx` | src/logging.ts:287-296 | `ctx(c)` returns the same logger and adds `c`'s new keys to the bindings that `getCtx()` returns, keeping bound keys |
| `Loggers.Logger.SetLevel` | src/logging.ts:305-320 | after `level(l)`, `getLevel()` returns `l`, and exactly the levels at or above `l` are enabled (none for silent) |
| `Lifecycle.Message` | src/logging.ts:465-467 | the not-initialized failure (thrown at src/logging.ts:440 and 465) reads exactly `Logger has not been initialized`; a wrapper used as parent fails in the `log.pino()` call (src/logging.ts:467 and 501) with `<expr> is not a function`; no message of the second kind equals the first |
| `Lifecycle.EnvLevel` | src/logging.ts:326-332 | the environment level is used exactly when it is set and a level name |
| `Lifecycle.DefaultLevel` | src/logging.ts:384 | the configured level wins; else the environment's level when it is a level name; else info |
| `Lifecycle.Mixin` | src/logging.ts:387-394 | the mixin returns exactly the keys `svc`, `name`, `ip` and `pid`: the service, the configured name (default `root`), the address or undefined, and the process id or undefined |
| `Lifecycle.ProxyGet` | src/logging.ts:434-450 | a wrapper exposes a method exactly for the six level names, and undefined for every other property |
| `Lifecycle.ParentBackend` | src/logging.ts:497-502 | a child is derived from the given parent logger's handle, else from the root's; a wrapper given as parent fails with `log.pino is not a function` |
| `Lifecycle.Resolve` | src/logging.ts:430-481 | a level call fails with not-initialized exactly when the handle is a wrapper and the root is unset at call time; a real logger is used as is; the root wrapper forwards to the current root; a child wrapper lands on a fresh child with its own name, derived from its parent logger's handle or else the root's; a wrapper kept as parent fails with `log.pino is not a function` |
| `Lifecycle.Registry.constructor` | src/logging.ts:368 | the root slot starts empty; `Initialize`, `Shutdown` and `Call` keep the invariant that a root in the slot is a valid logger |
| `Lifecycle.Registry.Initialize` | src/logging.ts:376-411 | builds a fresh root (level from `DefaultLevel`, mixin fields, empty builder and bindings) exactly when no root exists or `override` is set; otherwise returns the existing root unchanged |
| `Lifecycle.Registry.IsInitialized` | src/logging.ts:416-418 | holds after every `Initialize` (whether or not it rebuilt the root) and fails after every `Shutdown` (contracts of `Initialize` and `Shutdown`); `GetRootLogger` returns a real logger exactly when it holds |
| `Lifecycle.Registry.Shutdown` | src/logging.ts:423-428 | flushes the root's handle once and clears the slot; nothing happens when the slot is already empty |
| `Lifecycle.Registry.GetRootLogger` | src/logging.ts:486-489 | returns the root itself when set; otherwise the root wrapper, whose level calls fail with not-initialized while the root stays unset and forward to whatever root is set at call time (by `Resolve`) |
| `Lifecycle.Registry.GetLogger` | src/logging.ts:497-503 | when the root is set, returns a fresh logger over a fresh child handle, named `name` and derived from the parent's (or root's) handle, with an empty builder; otherwise a deferred wrapper for `name` and the parent |
| `Lifecycle.Registry.Call` | src/logging.ts:430-481 | a level call on any handle does what `Resolve` chooses: it throws its error, selects the level on the existing logger and returns its entry, or returns the entry of a fresh logger over a fresh child handle with only the level selected |

## Left out

- pino construction options: `browser`, `serializers`, `transport` and the `formatters.bindings`
  host field with its `isAwsLambda` test (src/logging.ts:385-406). These belong to the foreign
  library. The backend is the stand-in class `Pino.Backend`.
- Backend internals: level filtering at emit time, JSON serialisation, timestamps, and how mixin
  fields, bindings and entry fields are merged into one output record. For example, the library's
  own test expects a child's records to carry `name: 'root'` from the mixin. `Backend.Emit` keeps
  the fields the facade hands over, unmerged.
- Pino.Backend.SetBindings: follows the promise in the comment at src/logging.ts:287-290 (bound
  keys are kept). What pino itself does with a repeated key is not modelled.
- Pino.Backend.Child: `Backend.Derived`, `Backend.SetBindings` and `Loggers.Logger.GetCtx` keep
  the bindings exactly as the facade hands them over; a child starts at its parent's level with
  its parent's bindings plus `name`. The library's own `formatters.bindings` hook
  (src/logging.ts:396-405) reshapes the bindings pino reports to `{host}` or `{}`; that reshaping
  is not modelled, so `GetCtx` may list keys that the real `getCtx()` would not.
- Loggers.Logger.Send: modelled as emitting like `msg`. At src/logging.ts:200-201 the backend
  method is called without binding it to the backend. What pino does when called with no receiver
  is not part of this model.
- Loggers.Logger.Begin: records the selected level only. The source keeps the backend's method
  object as it was at call time, and pino swaps those methods on level changes. That matters only
  for filtering at emit time, which is left out.
- `getIpAddress` and `getProcessId` (./helpers.js, not part of this model), and
  `process.env.LOGGING_LEVEL`: these are the parameters `ip`, `pid` and `env`. A missing
  `process` object is the same as an unset variable.
- The asynchronous `initialize` (it awaits `getIpAddress`) is modelled as one sequential step.
  Concurrency and racing `initialize`/`shutdown` calls are not modelled.
- The JavaScript `Proxy` itself: the wrappers are explicit `Handle` variants. Non-string property
  keys are not modelled. The branch that throws `Property … is not a function` cannot be reached,
  because every one of the six level names is a `Logger` method.
- Entries.Write: the field map is a Dafny `map`, while the source writes into a plain JavaScript
  object (`this.entryCtx[key] = value`). For the key `__proto__` the two differ: the source stores
  no own key (a string value is ignored, an object value becomes the map's prototype), and the
  model adds the key. Prototype behaviour of plain objects is not modelled.
- TypeScript's static parameter types: setters accept any value, as at run time in JavaScript.
  Numbers are integers; floating point is not modelled.
- `Logger.pino()`, `getCtx()` and `getLevel()` are plain accessors (`Pino`, `GetCtx`,
  `GetLevel`). Their properties are stated in the contracts of `Ctx` and `SetLevel`.
- The root-level `logging.ts` is an older, unused copy of the API that returns raw pino loggers.
  It is outside the test roots and is not modelled. The tests and the jest and eslint
  configuration are not modelled either.
