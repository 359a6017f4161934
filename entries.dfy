/** The entry-builder protocol of `Logger` (src/logging.ts:110-278) on values:
    which key each field setter writes and what it stores, how a chain of
    setters accumulates into the field map, and the state machine
    EMPTY -> level set -> fields ... -> emitted -> EMPTY. */
module Entries {
  import opened Wrappers
  import opened Levels
  import opened Values

  /** One call of a field setter on the shared entry object. Values are not
      checked against the declared parameter types: as in JavaScript at run
      time, any value (null and undefined included) may be passed. */
  datatype FieldOp =
    | SetStr(key: string, value: Value)
    | SetNum(key: string, value: Value)
    | SetBool(key: string, value: Value)
    | SetObj(key: string, value: Value)
    | SetUnknown(key: string, value: Value)
    | SetErr(value: Value)
    | SetThread(value: Value)
    | SetPid(value: Value)
    | SetHost(value: Value)
    | SetIp(value: Value)
    | SetCip(value: Value)
    | SetTrace(value: Value)

  /** The keys used by the setters that do not take a key from the caller. */
  const FixedKeys: set<string> := {"err", "thread", "pid", "host", "ip", "cip", "dt"}

  predicate KeyedByCaller(op: FieldOp) {
    op.SetStr? || op.SetNum? || op.SetBool? || op.SetObj? || op.SetUnknown?
  }

  /** The key a setter writes. */
  function Key(op: FieldOp): (k: string)
    ensures KeyedByCaller(op) ==> k == op.key
    ensures !KeyedByCaller(op) ==> k in FixedKeys
    ensures op.SetErr? ==> k == "err"
    ensures op.SetThread? ==> k == "thread"
    ensures op.SetPid? ==> k == "pid"
    ensures op.SetHost? ==> k == "host"
    ensures op.SetIp? ==> k == "ip"
    ensures op.SetCip? ==> k == "cip"
    ensures op.SetTrace? ==> k == "dt"
  {
    match op
    case SetStr(key, _) => key
    case SetNum(key, _) => key
    case SetBool(key, _) => key
    case SetObj(key, _) => key
    case SetUnknown(key, _) => key
    case SetErr(_) => "err"
    case SetThread(_) => "thread"
    case SetPid(_) => "pid"
    case SetHost(_) => "host"
    case SetIp(_) => "ip"
    case SetCip(_) => "cip"
    case SetTrace(_) => "dt"
  }

  /** The value a setter stores: its argument as given, except that `err`
      normalises error-like inputs. */
  function Stored(op: FieldOp): Value {
    if op.SetErr? then NormalizeErr(op.value) else op.value
  }

  /** One setter call on the field map: exactly one key is written, last write
      wins, and every other entry is kept. */
  function Write(ctx: map<string, Value>, op: FieldOp): (r: map<string, Value>)
    ensures r.Keys == ctx.Keys + {Key(op)}
    ensures r[Key(op)] == Stored(op)
    ensures forall k :: k in ctx && k != Key(op) ==> r[k] == ctx[k]
  {
    ctx[Key(op) := Stored(op)]
  }

  /** A chain of setter calls, applied in call order. */
  function Chain(ctx: map<string, Value>, ops: seq<FieldOp>): map<string, Value>
    decreases |ops|
  {
    if ops == [] then ctx else Chain(Write(ctx, ops[0]), ops[1..])
  }

  /** The value of the last call in `ops` that writes `k`, if any: an
      independent description of what a chain leaves under `k`. */
  function LastWrite(ops: seq<FieldOp>, k: string): Option<Value>
    decreases |ops|
  {
    if ops == [] then None
    else if Key(ops[|ops| - 1]) == k then Some(Stored(ops[|ops| - 1]))
    else LastWrite(ops[..|ops| - 1], k)
  }

  lemma {:induction false} ChainSnoc(ctx: map<string, Value>, ops: seq<FieldOp>, op: FieldOp)
    ensures Chain(ctx, ops + [op]) == Write(Chain(ctx, ops), op)
    decreases |ops|
  {
    if ops == [] {
      assert ops + [op] == [op];
    } else {
      assert (ops + [op])[1..] == ops[1..] + [op];
      ChainSnoc(Write(ctx, ops[0]), ops[1..], op);
    }
  }

  /** Last write wins: after a chain, a key holds the value of the last call
      that wrote it, or its earlier value if no call wrote it. */
  lemma {:induction false} ChainLastWriteWins(ctx: map<string, Value>, ops: seq<FieldOp>, k: string)
    ensures k in Chain(ctx, ops) <==> LastWrite(ops, k).Some? || k in ctx
    ensures LastWrite(ops, k).Some? ==> Chain(ctx, ops)[k] == LastWrite(ops, k).value
    ensures LastWrite(ops, k).None? && k in ctx ==> Chain(ctx, ops)[k] == ctx[k]
    decreases |ops|
  {
    if ops != [] {
      var init, last := ops[..|ops| - 1], ops[|ops| - 1];
      assert ops == init + [last];
      ChainSnoc(ctx, init, last);
      ChainLastWriteWins(ctx, init, k);
    }
  }

  /** The state an entry builder keeps between calls: the field map
      (`entryCtx`) and the pending level (`entryLevel`, undefined when unset). */
  datatype EntryState = EntryState(ctx: map<string, Value>, pending: Option<EntryLevel>)

  const Empty := EntryState(map[], None)

  /** What the builder hands to the backend: the level, the fields, the
      message (absent for `send`) and the interpolation arguments. */
  datatype Record = Record(level: EntryLevel, fields: map<string, Value>, msg: Option<string>, args: seq<string>)

  /** A call a caller makes on a logger or on its entry object. */
  datatype Call =
    | Select(level: EntryLevel)              // trace() ... fatal()
    | Field(op: FieldOp)                     // str, num, ..., err, trace (distributed trace)
    | Msg(text: string, args: seq<string>)   // msg(text, ...args)
    | Send                                   // send()

  predicate Terminal(c: Call) {
    c.Msg? || c.Send?
  }

  datatype Transition = Transition(next: EntryState, emitted: Option<Record>)

  /** The record a terminal call emits from state `s`: at the pending level,
      or at trace when none is set. */
  function Emission(s: EntryState, c: Call): Record
    requires Terminal(c)
  {
    var level := s.pending.GetOr(Trace);
    if c.Msg? then Record(level, s.ctx, Some(c.text), c.args) else Record(level, s.ctx, None, [])
  }

  /** One call of the protocol. */
  function Step(s: EntryState, c: Call): (t: Transition)
    ensures t.emitted.Some? <==> Terminal(c)
    ensures Terminal(c) ==> t.next == Empty && t.emitted.value.fields == s.ctx
    ensures Terminal(c) ==> t.emitted.value.level == (if s.pending.Some? then s.pending.value else Trace)
    ensures c.Select? ==> t.next.ctx == s.ctx && t.next.pending == Some(c.level)
    ensures c.Field? ==> t.next.ctx == Write(s.ctx, c.op) && t.next.pending == s.pending
    ensures c.Msg? ==> t.emitted.value.msg == Some(c.text) && t.emitted.value.args == c.args
    ensures c.Send? ==> t.emitted.value.msg == None && t.emitted.value.args == []
  {
    match c
    case Select(level) => Transition(EntryState(s.ctx, Some(level)), None)
    case Field(op) => Transition(EntryState(Write(s.ctx, op), s.pending), None)
    case Msg(_, _) => Transition(Empty, Some(Emission(s, c)))
    case Send => Transition(Empty, Some(Emission(s, c)))
  }

  datatype Outcome = Outcome(final: EntryState, records: seq<Record>)

  function Emitted(o: Option<Record>): seq<Record> {
    if o.Some? then [o.value] else []
  }

  /** A sequence of calls on one logger, from state `s`. */
  function Run(s: EntryState, calls: seq<Call>): Outcome
    decreases |calls|
  {
    if calls == [] then Outcome(s, [])
    else
      var t := Step(s, calls[0]);
      var rest := Run(t.next, calls[1..]);
      Outcome(rest.final, Emitted(t.emitted) + rest.records)
  }

  /** The number of terminal calls in a sequence. */
  function Terminals(calls: seq<Call>): nat
    decreases |calls|
  {
    if calls == [] then 0 else (if Terminal(calls[0]) then 1 else 0) + Terminals(calls[1..])
  }

  /** Every record comes from exactly one terminal call: `msg` and `send`
      each emit once, and nothing else emits. */
  lemma {:induction false} OneRecordPerTerminal(s: EntryState, calls: seq<Call>)
    ensures |Run(s, calls).records| == Terminals(calls)
    decreases |calls|
  {
    if calls != [] {
      OneRecordPerTerminal(Step(s, calls[0]).next, calls[1..]);
    }
  }

  lemma {:induction false} RunAppend(s: EntryState, a: seq<Call>, b: seq<Call>)
    ensures Run(s, a + b) == Outcome(Run(Run(s, a).final, b).final, Run(s, a).records + Run(Run(s, a).final, b).records)
    decreases |a|
  {
    if a == [] {
      assert a + b == b;
    } else {
      assert (a + b)[1..] == a[1..] + b;
      RunAppend(Step(s, a[0]).next, a[1..], b);
    }
  }

  function Fields(ops: seq<FieldOp>): (calls: seq<Call>)
    ensures |calls| == |ops|
    ensures forall i :: 0 <= i < |ops| ==> calls[i] == Field(ops[i])
    decreases |ops|
  {
    if ops == [] then [] else [Field(ops[0])] + Fields(ops[1..])
  }

  /** Field calls emit nothing, keep the pending level and chain into the map. */
  lemma {:induction false} FieldsOnly(s: EntryState, ops: seq<FieldOp>)
    ensures Run(s, Fields(ops)) == Outcome(EntryState(Chain(s.ctx, ops), s.pending), [])
    decreases |ops|
  {
    if ops != [] {
      assert Fields(ops)[1..] == Fields(ops[1..]);
      FieldsOnly(Step(s, Field(ops[0])).next, ops[1..]);
    }
  }

  /** One log statement `l().f1()...fn().msg(text, ...args)`: exactly one record,
      at level `l`, carrying the fields the chain wrote over whatever the map
      held before, and the builder is left empty. */
  lemma StatementEmitsOnce(s: EntryState, l: EntryLevel, ops: seq<FieldOp>, text: string, args: seq<string>)
    ensures Run(s, [Select(l)] + Fields(ops) + [Msg(text, args)])
         == Outcome(Empty, [Record(l, Chain(s.ctx, ops), Some(text), args)])
  {
    var s1 := Step(s, Select(l)).next;
    RunAppend(s, [Select(l)], Fields(ops));
    FieldsOnly(s1, ops);
    RunAppend(s, [Select(l)] + Fields(ops), [Msg(text, args)]);
  }

  /** A statement started on an empty builder emits exactly the keys its
      chain wrote, each with its last written value. */
  lemma StatementFields(l: EntryLevel, ops: seq<FieldOp>, text: string, args: seq<string>, k: string)
    ensures |Run(Empty, [Select(l)] + Fields(ops) + [Msg(text, args)]).records| == 1
    ensures var rec := Run(Empty, [Select(l)] + Fields(ops) + [Msg(text, args)]).records[0];
      && (k in rec.fields <==> LastWrite(ops, k).Some?)
      && (k in rec.fields ==> rec.fields[k] == LastWrite(ops, k).value)
  {
    StatementEmitsOnce(Empty, l, ops, text, args);
    ChainLastWriteWins(map[], ops, k);
  }

  /** Reusing the entry after a terminal call emits an empty record at trace:
      nothing is left over from the previous statement. */
  lemma ReuseAfterEmit(s: EntryState, first: Call, second: Call)
    requires Terminal(first) && Terminal(second)
    ensures var recs := Run(s, [first, second]).records;
      |recs| == 2 && recs[1].fields == map[] && recs[1].level == Trace
  {
    var t := Step(s, first);
    assert [first, second][1..] == [second];
    assert Run(t.next, [second]).records == [Emission(Empty, second)];
  }
}
