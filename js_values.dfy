/** Dynamic values as they cross the boundary to the JavaScript engine.

    A `DynValue` is the shape of a JavaScript value as far as this adapter can
    observe it: the two "no value" markers, primitives, arrays, plain objects
    (records of own enumerable string-keyed properties) and opaque engine objects
    (functions, promises, detectors, images) that the adapter only passes along.
    Numbers stand for IEEE doubles; the adapter performs no arithmetic on them,
    so they are modelled as mathematical reals.
 */
module JsValues {

  datatype DynValue =
    | Undefined
    | Null
    | Bool(b: bool)
    | Num(n: real)
    | Str(s: string)
    | Array(items: seq<DynValue>)
    | Record(fields: map<string, DynValue>)
    | Opaque(id: nat)

  datatype Option<+T> = None | Some(value: T)

  datatype Result<+T, +E> = Ok(value: T) | Err(error: E) {
    predicate IsFailure() { Err? }
    function PropagateFailure<U>(): Result<U, E> requires Err? { Err(error) }
    function Extract(): T requires Ok? { value }
  }

  /** How a Rust call ends: it returns a value, or it panics (an `unwrap` on an
      error, an explicit `panic!`, or a JavaScript exception thrown through an
      import that does not catch). */
  datatype Outcome<+T> = Returned(value: T) | Panicked

  /** Rust's `u32` and `i32`, which the bindings turn into JavaScript numbers. */
  newtype u32 = x: int | 0 <= x < 0x1_0000_0000
  newtype i32 = x: int | -0x8000_0000 <= x < 0x8000_0000

  /** The property `key` of a record as JavaScript reads it: `undefined` when the
      record has no such property. */
  function Get(fields: map<string, DynValue>, key: string): (v: DynValue)
    ensures key !in fields ==> v == Undefined
    ensures key in fields ==> v == fields[key]
  {
    if key in fields then fields[key] else Undefined
  }

  /** `Object.assign(target, source)` (ECMA-262, section 20.1.2.1): every own
      enumerable property of `source` is written onto `target`, so on a key they
      share the source's value wins and every other key of `target` keeps its value. */
  function Assign(target: map<string, DynValue>, source: map<string, DynValue>): (r: map<string, DynValue>)
    ensures r.Keys == target.Keys + source.Keys
    ensures forall k :: k in source ==> r[k] == source[k]
    ensures forall k :: k in target && k !in source ==> r[k] == target[k]
    ensures Flat(target) && Flat(source) ==> Flat(r)
  {
    target + source
  }

  /** A record is flat when none of its properties holds a nested record. */
  predicate Flat(fields: map<string, DynValue>)
  {
    forall k :: k in fields ==> !fields[k].Record?
  }

  // serde-wasm-bindgen's serializer: `Some(v)` becomes the value of `v`, `None`
  // becomes `undefined` (the property is still set, holding `undefined`).

  function OptionalBool(o: Option<bool>): (v: DynValue)
    ensures o.None? ==> v == Undefined
    ensures o.Some? ==> v == Bool(o.value)
  {
    match o
    case None => Undefined
    case Some(b) => Bool(b)
  }

  function OptionalNum(o: Option<real>): (v: DynValue)
    ensures o.None? ==> v == Undefined
    ensures o.Some? ==> v == Num(o.value)
  {
    match o
    case None => Undefined
    case Some(n) => Num(n)
  }

  function OptionalStr(o: Option<string>): (v: DynValue)
    ensures o.None? ==> v == Undefined
    ensures o.Some? ==> v == Str(o.value)
  {
    match o
    case None => Undefined
    case Some(s) => Str(s)
  }
}
