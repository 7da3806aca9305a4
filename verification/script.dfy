/**
 * The script values the daemon reads out of its configuration script, and the
 * conversions the embedded interpreter binding applies to them.
 *
 * The interpreter itself is not part of this model: a zero-argument function is
 * represented by the outcomes of calling it again and again, and a coroutine by
 * the outcomes of resuming it again and again. Both are finite values, so every walk through
 * nested function results terminates structurally.
 */
module Script {
  import opened Wrappers

  /** Script integers are 64-bit. */
  newtype i64 = x: int | -0x8000_0000_0000_0000 <= x < 0x8000_0000_0000_0000

  /** Largest value of an unsigned 64-bit integer, plus one. */
  const U64_LIMIT: int := 0x1_0000_0000_0000_0000

  datatype Value =
    | Nil
    | Bool(b: bool)
    | Int(n: i64)
    | Str(s: string)
      /** `items` holds the positional slots 1, 2, ...; `fields` the string keys. */
    | Table(items: seq<Value>, fields: map<string, Value>)
      /** A function, represented by what calling it with no arguments gives: `ret`
          on the first call, then `later` on the calls after it, as far as they are
          followed. A script that is run afresh gives the same outcomes again. */
    | Func(ret: Outcome, later: seq<Outcome>)
      /** A coroutine, represented by what each successive resume gives; once these
          are used up, the coroutine is dead and resuming it raises an error. */
    | Thread(resumes: seq<Outcome>)

  /** The outcome of calling a function or resuming a coroutine. */
  datatype Outcome = Returned(v: Value) | Raised(message: string)

  /** The binding's error: a failed conversion names the source and target type. */
  datatype Error =
    | ConversionError(from: string, to: string)
    | RuntimeError(message: string)

  /** The type name the binding reports; a whole-number literal is an "integer", and
      only a floating-point value (not part of this model) is a "number". */
  function TypeName(v: Value): string
  {
    match v
    case Nil => "nil"
    case Bool(_) => "boolean"
    case Int(_) => "integer"
    case Str(_) => "string"
    case Table(_, _) => "table"
    case Func(_, _) => "function"
    case Thread(_) => "thread"
  }

  /** Reading positional slot `k` (1-based) of a table; an absent slot reads as nil. */
  function Slot(t: Value, k: nat): (v: Value)
    requires t.Table?
    ensures 1 <= k <= |t.items| ==> v == t.items[k - 1]
    ensures (k == 0 || |t.items| < k) ==> v == Nil
  {
    if 1 <= k <= |t.items| then t.items[k - 1] else Nil
  }

  /** Reading a string key of a table; an absent key reads as nil. */
  function Field(t: Value, key: string): (v: Value)
    requires t.Table?
    ensures key in t.fields ==> v == t.fields[key]
    ensures key !in t.fields ==> v == Nil
  {
    if key in t.fields then t.fields[key] else Nil
  }

  /** Reading a global of the script; an undefined global reads as nil. */
  function Global(globals: map<string, Value>, name: string): Value
  {
    if name in globals then globals[name] else Nil
  }

  /** Converting to a boolean follows the script's truthiness: only nil and false are false. */
  function ToBool(v: Value): (b: bool)
    ensures !b <==> (v == Nil || v == Bool(false))
  {
    match v
    case Nil => false
    case Bool(b) => b
    case _ => true
  }

  /** Converting to a string accepts only a string (the binding's coercion of
      numbers to text is not part of this model). */
  function ToString(v: Value): (r: Result<string, Error>)
    ensures r.Ok? <==> v.Str?
    ensures r.Ok? ==> r.value == v.s
    ensures r.Err? ==> r.error == ConversionError(TypeName(v), "String")
  {
    match v
    case Str(s) => Ok(s)
    case _ => Err(ConversionError(TypeName(v), "String"))
  }

  /** Converting to an optional string: nil is the absent string. */
  function ToOptString(v: Value): (r: Result<Option<string>, Error>)
    ensures r.Ok? <==> (v.Nil? || v.Str?)
    ensures r == Ok(None) <==> v.Nil?
    ensures v.Str? ==> r == Ok(Some(v.s))
  {
    if v.Nil? then Ok(None)
    else
      var s :- ToString(v);
      Ok(Some(s))
  }

  /** Converting to an optional signed 64-bit integer: nil is the absent number. */
  function ToOptI64(v: Value): (r: Result<Option<i64>, Error>)
    ensures r.Ok? <==> (v.Nil? || v.Int?)
    ensures r == Ok(None) <==> v.Nil?
    ensures v.Int? ==> r == Ok(Some(v.n))
  {
    match v
    case Nil => Ok(None)
    case Int(n) => Ok(Some(n))
    case _ => Err(ConversionError(TypeName(v), "i64"))
  }

  /** Converting to an unsigned 64-bit integer fails on anything but a non-negative integer. */
  function ToU64(v: Value): (r: Result<nat, Error>)
    ensures r.Ok? <==> (v.Int? && v.n >= 0)
    ensures r.Ok? ==> r.value as int == v.n as int && r.value < U64_LIMIT
  {
    match v
    case Int(n) =>
      if n >= 0 then Ok(n as int) else Err(ConversionError("integer", "u64"))
    case _ => Err(ConversionError(TypeName(v), "u64"))
  }
}
