/** The module-level root logger of src/logging.ts and the functions around
    it: `initialize`, `isInitialized`, `shutdown`, `getRootLogger`,
    `getLogger`, and the deferred wrappers returned before initialisation. */
module Lifecycle {
  import opened Wrappers
  import opened Levels
  import opened Values
  import opened Entries
  import opened Pino
  import opened Loggers

  /** `LoggingConfig`; the transport options are not part of this model. */
  datatype LoggingConfig = LoggingConfig(
    svc: string,
    name: Option<string>,
    level: Option<Level>,
    ctx: Option<map<string, Value>>)

  /** What a logger reference can be: a real `Logger`, or a deferred wrapper
      standing for the root (`getRootLogger` before initialisation) or for a
      named child of an optional parent (`getLogger(name, log?)` before it). */
  datatype Handle =
    | Real(logger: Logger)
    | RootProxy
    | ChildProxy(name: string, parent: Option<Handle>)

  /** The errors a level call or `getLogger` can throw. */
  datatype Failure =
    | NotInitialized            // Error('Logger has not been initialized')
    | NotAFunction(expr: string) // TypeError: <expr> is not a function

  const NotInitializedMessage := "Logger has not been initialized"

  /** The text of the thrown error. The not-initialised text tells the two
      failures apart: no `... is not a function` message equals it. */
  function Message(f: Failure): (m: string)
    ensures f.NotInitialized? ==> m == "Logger has not been initialized"
    ensures f.NotAFunction? ==> m == f.expr + " is not a function"
    ensures m == NotInitializedMessage <==> f.NotInitialized?
  {
    match f
    case NotInitialized => NotInitializedMessage
    case NotAFunction(expr) =>
      var m := expr + " is not a function";
      // the two texts end differently: "...function" against "...initialized"
      assert m[|m| - 1] == 'n' != NotInitializedMessage[|NotInitializedMessage| - 1];
      m
  }

  /** `getDefaultLogLevel`: the environment's level when it is set, non-empty
      and a level name. */
  function EnvLevel(env: Option<string>): (r: Option<string>)
    ensures r.Some? <==> env.Some? && IsLevel(env.value)
    ensures r.Some? ==> r == env
  {
    if env.Some? && env.value != "" && IsLevel(env.value) then env else None
  }

  /** `options.level ?? getDefaultLogLevel() ?? 'info'`. */
  function DefaultLevel(configured: Option<Level>, env: Option<string>): (r: Level)
    ensures configured.Some? ==> r == configured.value
    ensures configured.None? && env.Some? && IsLevel(env.value) ==> Name(r) == env.value
    ensures configured.None? && (env.None? || !IsLevel(env.value)) ==> r == Info
  {
    if configured.Some? then configured.value
    else
      var fromEnv := EnvLevel(env);
      if fromEnv.Some? then Parse(fromEnv.value).value else Info
  }

  /** The fields the `mixin` option adds to every record of the new root:
      the service, the logger name (default "root"), the address and the process id. */
  function Mixin(options: LoggingConfig, ip: Option<string>, pid: Option<int>): (m: map<string, Value>)
    ensures m.Keys == {"svc", "name", "ip", "pid"}
    ensures m["svc"] == Str(options.svc)
    ensures options.name.None? ==> m["name"] == Str("root")
    ensures options.name.Some? ==> m["name"] == Str(options.name.value)
    ensures m["ip"] == (if ip.Some? then Str(ip.value) else Undefined)
    ensures m["pid"] == (if pid.Some? then Num(pid.value) else Undefined)
  {
    map[
      "svc" := Str(options.svc),
      "name" := Str(options.name.GetOr("root")),
      "ip" := if ip.Some? then Str(ip.value) else Undefined,
      "pid" := if pid.Some? then Num(pid.value) else Undefined]
  }

  /** A wrapper's property lookup: the six level-method names give a
      forwarding method, every other property is undefined. */
  function ProxyGet(prop: string): (r: Option<EntryLevel>)
    ensures r.Some? <==> exists l: EntryLevel :: Name(l) == prop
    ensures r.Some? ==> Name(r.value) == prop
  {
    if prop in ["trace", "debug", "info", "warn", "error", "fatal"] then
      var l := Parse(prop).value;
      assert l != Silent;
      Some(l)
    else
      None
  }

  /** The backend a new child is derived from: the given parent logger's, or
      the root's. A wrapper given as parent has no `pino` method. */
  function ParentBackend(parent: Option<Handle>, root: Logger): (r: Result<Backend, Failure>)
    ensures parent.None? ==> r == Success(root.log)
    ensures parent.Some? && parent.value.Real? ==> r == Success(parent.value.logger.log)
    ensures parent.Some? && !parent.value.Real? ==> r == Failure(NotAFunction("log.pino"))
  {
    match parent
    case None => Success(root.log)
    case Some(Real(p)) => Success(p.log)
    case Some(_) => Failure(NotAFunction("log.pino"))
  }

  /** Where a level call on a handle lands: on an existing logger, or on a
      fresh logger over a child of some backend. */
  datatype Target = Existing(logger: Logger) | FreshChild(of: Backend, name: string)

  /** The resolution a level call performs on a handle, against the root at
      the time of the call. */
  function Resolve(h: Handle, root: Option<Logger>): (r: Result<Target, Failure>)
    ensures r == Failure(NotInitialized) <==> !h.Real? && root.None?
    ensures h.Real? ==> r == Success(Existing(h.logger))
    ensures h.RootProxy? && root.Some? ==> r == Success(Existing(root.value))
    ensures h.ChildProxy? && r.Success? ==> r.value.FreshChild? && r.value.name == h.name
    ensures h.ChildProxy? && root.Some? && (h.parent.None? || h.parent.value.Real?) ==> r.Success?
    ensures h.ChildProxy? && r.Success? ==>
      root.Some? && ParentBackend(h.parent, root.value).Success?
      && r.value.of == ParentBackend(h.parent, root.value).value
    ensures h.ChildProxy? && root.Some? && h.parent.Some? && !h.parent.value.Real? ==>
      r == Failure(NotAFunction("log.pino"))
  {
    match h
    case Real(logger) => Success(Existing(logger))
    case RootProxy =>
      if root.None? then Failure(NotInitialized) else Success(Existing(root.value))
    case ChildProxy(name, parent) =>
      if root.None? then Failure(NotInitialized)
      else
        match ParentBackend(parent, root.value)
        case Success(b) => Success(FreshChild(b, name))
        case Failure(f) => Failure(f)
  }

  /** The existing logger a level call on `h` changes, if any. */
  function Touched(h: Handle, root: Option<Logger>): set<object> {
    var r := Resolve(h, root);
    if r.Success? && r.value.Existing? then {r.value.logger} else {}
  }

  /** The module-level slot `root` and the functions that read and write it. */
  class Registry {
    var root: Option<Logger>

    /** The root, when set, is a valid logger. */
    ghost predicate Valid()
      reads this, if root.Some? then {root.value.entry} else {}
    {
      root.Some? ==> root.value.Valid()
    }

    constructor ()
      ensures Valid() && root == None
    {
      root := None;
    }

    /** `initialize(options, override)`: builds a new root when there is none
        or `override` is set, and otherwise returns the existing root as it was.
        The environment level, address and process id are parameters. */
    method Initialize(options: LoggingConfig, override: bool, env: Option<string>, ip: Option<string>, pid: Option<int>)
      returns (r: Logger)
      requires Valid()
      modifies this
      ensures Valid() && IsInitialized()
      ensures old(root).Some? && !override ==> root == old(root) && r == old(root).value
      ensures old(root).None? || override ==>
        && root == Some(r) && fresh(r) && fresh(r.log) && fresh(r.entry)
        && r.log.level == DefaultLevel(options.level, env)
        && r.log.mixin == Mixin(options, ip, pid)
        && r.log.bindings == map[] && r.log.emitted == [] && r.log.parent == None
        && r.State() == Empty
    {
      if root.None? || override {
        var plog := new Backend(DefaultLevel(options.level, env), Mixin(options, ip, pid));
        var logger := new Logger(plog);
        root := Some(logger);
      }
      r := root.value;
    }

    /** `isInitialized()`. */
    function IsInitialized(): (b: bool)
      reads this
      ensures b <==> root.Some?
    {
      root.Some?
    }

    /** `shutdown()`: flushes the root's backend and clears the slot; does
        nothing when there is no root. */
    method Shutdown()
      modifies this, if root.Some? then {root.value.log} else {}
      ensures Valid() && root == None && !IsInitialized()
      ensures old(root).Some? ==>
        && old(root).value.log.flushes == old(root.value.log.flushes) + 1
        && old(root).value.log.emitted == old(root.value.log.emitted)
        && old(root).value.log.level == old(root.value.log.level)
        && old(root).value.log.bindings == old(root.value.log.bindings)
    {
      if root.Some? {
        root.value.log.Flush();
        root := None;
      }
    }

    /** `getRootLogger()`: the root itself when set, else a deferred wrapper. */
    function GetRootLogger(): (h: Handle)
      reads this
      ensures h.Real? <==> IsInitialized()
      ensures root.Some? ==> h.logger == root.value
      ensures root.None? ==> Resolve(h, None) == Failure(NotInitialized)
      ensures root.None? ==> h == RootProxy
    {
      if root.Some? then Real(root.value) else RootProxy
    }

    /** `getLogger(name, log?)`: a new logger over a child of the parent's (or
        the root's) backend when the root is set, else a deferred wrapper. */
    method GetLogger(name: string, parent: Option<Handle>) returns (r: Result<Handle, Failure>)
      ensures root.None? ==> r == Success(ChildProxy(name, parent))
      ensures root.Some? && ParentBackend(parent, root.value).Failure? ==>
        r == Failure(ParentBackend(parent, root.value).error)
      ensures root.Some? && ParentBackend(parent, root.value).Success? ==>
        && r.Success? && r.value.Real?
        && fresh(r.value.logger) && fresh(r.value.logger.log)
        && r.value.logger.log.parent == Some(ParentBackend(parent, root.value).value)
        && r.value.logger.log.childName == Some(name)
        && r.value.logger.log.level == ParentBackend(parent, root.value).value.level
        && r.value.logger.log.emitted == []
        && r.value.logger.State() == Empty && r.value.logger.Valid()
    {
      if root.None? {
        r := Success(ChildProxy(name, parent));
      } else {
        match ParentBackend(parent, root.value)
        case Failure(f) =>
          r := Failure(f);
        case Success(b) =>
          var c := b.Child(name);
          var logger := new Logger(c);
          r := Success(Real(logger));
      }
    }

    /** A level method (`trace()` ... `fatal()`) called on a handle. A deferred
        wrapper checks the root at each call: it throws when there is none,
        forwards to the root, or to a fresh child logger named by the wrapper. */
    method Call(h: Handle, l: EntryLevel) returns (r: Result<Entry, Failure>)
      requires Valid() && (h.Real? ==> h.logger.Valid())
      modifies Touched(h, root)
      ensures Valid() && (h.Real? ==> h.logger.Valid())
      ensures Resolve(h, root).Failure? ==> r == Failure(Resolve(h, root).error)
      ensures Resolve(h, root).Success? && Resolve(h, root).value.Existing? ==>
        var lg := Resolve(h, root).value.logger;
        && r == Success(lg.entry)
        && lg.State() == Step(old(lg.State()), Select(l)).next
      ensures Resolve(h, root).Success? && Resolve(h, root).value.FreshChild? ==>
        var target := Resolve(h, root).value;
        && r.Success? && r.value.owner != null && r.value.owner.Valid()
        && fresh(r.value) && fresh(r.value.owner) && fresh(r.value.owner.log)
        && r.value.owner.entry == r.value
        && r.value.owner.log.parent == Some(target.of)
        && r.value.owner.log.childName == Some(target.name)
        && r.value.owner.log.level == target.of.level && r.value.owner.log.emitted == []
        && r.value.owner.State() == EntryState(map[], Some(l))
    {
      match Resolve(h, root)
      case Failure(f) =>
        r := Failure(f);
      case Success(Existing(lg)) =>
        var e := lg.Begin(l);
        r := Success(e);
      case Success(FreshChild(b, name)) =>
        var c := b.Child(name);
        var lg := new Logger(c);
        var e := lg.Begin(l);
        r := Success(e);
    }
  }
}
