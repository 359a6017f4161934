/** The JavaScript values a caller can attach to a log entry, and the
    normalisation `err(e)` applies to error-like inputs
    (src/logging.ts, `isTypedError` and `Logger.err`). */
module Values {

  /** A JavaScript value as far as this library looks into it. An `ErrorInstance`
      is an object for which `instanceof Error` holds: its `name` comes from the
      prototype, `message` and `stack` are always present (either may hold
      `undefined`), and `props` are its other own properties. */
  datatype Value =
    | Undefined
    | Null
    | Str(s: string)
    | Num(n: int)
    | Bool(b: bool)
    | Obj(props: map<string, Value>)
    | ErrorInstance(name: Value, message: Value, stack: Value, props: map<string, Value>)

  /** JavaScript's `key in v` for an object value. */
  predicate HasProperty(v: Value, key: string)
    requires v.Obj? || v.ErrorInstance?
  {
    match v
    case Obj(props) => key in props
    case ErrorInstance(_, _, _, props) => key in {"name", "message", "stack"} || key in props
  }

  /** JavaScript's `v[key]` for an object value; a missing property reads as `undefined`. */
  function Get(v: Value, key: string): Value
    requires v.Obj? || v.ErrorInstance?
  {
    match v
    case Obj(props) => if key in props then props[key] else Undefined
    case ErrorInstance(name, message, stack, props) =>
      if key == "name" then name
      else if key == "message" then message
      else if key == "stack" then stack
      else if key in props then props[key] else Undefined
  }

  /** `isTypedError`: a non-null object that has `type`, `message` and `stack` properties. */
  function IsTypedError(v: Value): (b: bool)
    ensures !(v.Obj? || v.ErrorInstance?) ==> !b
    ensures v.Obj? ==> (b <==> "type" in v.props && "message" in v.props && "stack" in v.props)
    ensures v.ErrorInstance? ==> (b <==> "type" in v.props)
  {
    (v.Obj? || v.ErrorInstance?) && HasProperty(v, "type") && HasProperty(v, "message") && HasProperty(v, "stack")
  }

  /** The plain object `{type, message, stack}` that `err` stores for an error-like input. */
  function ErrRecord(errType: Value, message: Value, stack: Value): Value {
    Obj(map["type" := errType, "message" := message, "stack" := stack])
  }

  /** An input that `err` reshapes: an `Error` instance or a typed-error-shaped object. */
  predicate IsErrorLike(v: Value) {
    v.ErrorInstance? || IsTypedError(v)
  }

  /** The value `err(e)` stores under the key `err`. */
  function NormalizeErr(e: Value): (r: Value)
    ensures IsErrorLike(e) ==> r.Obj? && r.props.Keys == {"type", "message", "stack"}
    ensures e.ErrorInstance? ==>
      Get(r, "type") == e.name && Get(r, "message") == e.message && Get(r, "stack") == e.stack
    ensures !e.ErrorInstance? && IsTypedError(e) ==>
      Get(r, "type") == Get(e, "type") && Get(r, "message") == Get(e, "message") && Get(r, "stack") == Get(e, "stack")
    ensures !IsErrorLike(e) ==> r == e
  {
    if e.ErrorInstance? then ErrRecord(e.name, e.message, e.stack)
    else if IsTypedError(e) then ErrRecord(Get(e, "type"), Get(e, "message"), Get(e, "stack"))
    else e
  }

  /** Normalising twice is normalising once: the stored record is itself
      typed-error-shaped and its three fields are copied unchanged. */
  lemma NormalizeErrIdempotent(e: Value)
    ensures NormalizeErr(NormalizeErr(e)) == NormalizeErr(e)
  {
  }
}
