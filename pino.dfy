/** A stand-in for the pino logger the library wraps. Only what the library
    reads or calls is kept: the level, the bindings, derived (child) handles,
    the records handed to it and the number of flushes. Filtering,
    formatting and delivery are not part of this model. */
module Pino {
  import opened Wrappers
  import opened Levels
  import opened Values
  import opened Entries

  class Backend {
    /** The configured level (`log.level`). */
    var level: Level
    /** Persistent bindings added with `setBindings` (and the child name). */
    var bindings: map<string, Value>
    /** Every record handed to this handle, in order. */
    var emitted: seq<Record>
    /** How many times `flush` was called. */
    var flushes: nat
    /** The fields the `mixin` option adds to every record. */
    const mixin: map<string, Value>
    /** The handle this one was derived from by `child`, if any. */
    const parent: Option<Backend>
    /** The `name` binding given to `child`, if this is a child handle. */
    const childName: Option<string>

    /** A new root handle. */
    constructor (level: Level, mixin: map<string, Value>)
      ensures this.level == level && this.mixin == mixin
      ensures bindings == map[] && emitted == [] && flushes == 0
      ensures parent == None && childName == None
    {
      this.level := level;
      this.mixin := mixin;
      bindings := map[];
      emitted := [];
      flushes := 0;
      parent := None;
      childName := None;
    }

    /** A handle derived from `p` with the binding `{name}`; it starts at the parent's level. */
    constructor Derived(p: Backend, name: string)
      ensures level == p.level && mixin == p.mixin
      ensures bindings == p.bindings["name" := Str(name)] && emitted == [] && flushes == 0
      ensures parent == Some(p) && childName == Some(name)
    {
      level := p.level;
      mixin := p.mixin;
      bindings := p.bindings["name" := Str(name)];
      emitted := [];
      flushes := 0;
      parent := Some(p);
      childName := Some(name);
    }

    /** `levelVal`: the numeric value of the configured level. */
    function LevelVal(): (v: LevelVal)
      reads this
      ensures v == Infinity <==> level == Silent
    {
      NumericValue(level)
    }

    /** `child({name})`: a fresh handle, leaving this one as it was. */
    method Child(name: string) returns (c: Backend)
      ensures fresh(c)
      ensures c.level == level && c.mixin == mixin && c.bindings == bindings["name" := Str(name)]
      ensures c.emitted == [] && c.flushes == 0
      ensures c.parent == Some(this) && c.childName == Some(name)
    {
      c := new Backend.Derived(this, name);
    }

    method SetLevel(l: Level)
      modifies this`level
      ensures level == l
    {
      level := l;
    }

    /** `setBindings(ctx)`: adds the new keys; a key already bound keeps its value. */
    method SetBindings(ctx: map<string, Value>)
      modifies this`bindings
      ensures bindings.Keys == old(bindings).Keys + ctx.Keys
      ensures forall k :: k in old(bindings) ==> bindings[k] == old(bindings)[k]
      ensures forall k :: k in ctx && k !in old(bindings) ==> bindings[k] == ctx[k]
    {
      bindings := ctx + bindings;
    }

    /** Hands one record to the backend. */
    method Emit(rec: Record)
      modifies this`emitted
      ensures emitted == old(emitted) + [rec]
    {
      emitted := emitted + [rec];
    }

    method Flush()
      modifies this`flushes
      ensures flushes == old(flushes) + 1
    {
      flushes := flushes + 1;
    }
  }
}
