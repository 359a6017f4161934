/** Client code in the shape of the library's own test of lazy
    initialisation (src/logging.test.ts:111-127), written against the
    contracts alone. */
module Scenarios {
  import opened Wrappers
  import opened Levels
  import opened Values
  import opened Entries
  import opened Pino
  import opened Loggers
  import opened Lifecycle

  /** References taken after `shutdown` are wrappers, and their level calls throw. */
  method UseBeforeInitialize(reg: Registry)
    requires reg.Valid()
    modifies reg, if reg.root.Some? then {reg.root.value.log} else {}
  {
    reg.Shutdown();
    var rootLogger := reg.GetRootLogger();
    var childLogger := reg.GetLogger("child", None);
    assert childLogger == Success(ChildProxy("child", None));
    var failed := reg.Call(rootLogger, Debug);
    assert failed == Failure(NotInitialized) && Message(failed.error) == "Logger has not been initialized";
    failed := reg.Call(childLogger.value, Debug);
    assert failed == Failure(NotInitialized);
  }

  /** Once `initialize` ran, the root wrapper taken earlier forwards to the new root. */
  method RootWrapperAfterInitialize(reg: Registry, ip: Option<string>, pid: Option<int>)
    requires reg.Valid() && reg.root.None?
    modifies reg
  {
    var rootLogger := reg.GetRootLogger();
    var root := reg.Initialize(LoggingConfig("logging.test", None, Some(Trace), None), false, None, ip, pid);
    assert root.log.level == Trace;
    var viaRoot := reg.Call(rootLogger, Trace);
    assert viaRoot == Success(root.entry);
    root.Msg("test", []);
    assert root.log.emitted == [Record(Trace, map[], Some("test"), [])];
  }

  /** Once `initialize` ran, a child wrapper taken earlier lands on a fresh
      child logger; its record carries exactly the field set on it. */
  method ChildWrapperAfterInitialize(reg: Registry, ip: Option<string>, pid: Option<int>)
    requires reg.Valid() && reg.root.None?
    modifies reg
  {
    var childLogger := reg.GetLogger("child", None);
    var root := reg.Initialize(LoggingConfig("logging.test", None, Some(Trace), None), false, None, ip, pid);
    var viaChild := reg.Call(childLogger.value, Trace);
    var child := viaChild.value.owner;
    assert child.log.parent == Some(root.log) && child.log.childName == Some("child");
    var bar := Obj(map["a" := Num(1)]);
    var e := child.Set(SetObj("bar", bar));
    assert e == viaChild.value;
    assert child.entryCtx == map["bar" := bar];
    child.Msg("hello", []);
    assert child.log.emitted == [Record(Trace, map["bar" := bar], Some("hello"), [])];
  }
}
