/** The foreign-call capability the adapter is built on: invoke a method, by name,
    on an opaque JavaScript value.

    The engine behind the boundary is not modelled; an `Engine` is any fixed
    behaviour, given by three functions: what looking up a property finds, what
    calling a found function returns or throws, and how awaiting a value as a
    promise settles. Every request the adapter makes is appended to a ghost trace,
    so the adapter's operations can state exactly which calls they make. */
module ForeignCalls {
  import opened JsValues

  /** What `Reflect.get(target, key)` produces: it throws (the target is not an
      object), or yields a value that is not a function, or yields a function. */
  datatype Property = GetThrew(error: DynValue) | NotAFunction | Function

  /** One request: call the method `name` on `target` with the positional `args`. */
  datatype Invocation = Invocation(target: DynValue, name: string, args: seq<DynValue>)

  class Engine {
    const property: (DynValue, string) -> Property
    const apply: Invocation -> Result<DynValue, DynValue>
    const settle: DynValue -> Result<DynValue, DynValue>

    /** Every request made through `CallMethod`, oldest first. */
    ghost var trace: seq<Invocation>

    constructor (property: (DynValue, string) -> Property,
                 apply: Invocation -> Result<DynValue, DynValue>,
                 settle: DynValue -> Result<DynValue, DynValue>)
      ensures this.property == property && this.apply == apply && this.settle == settle
      ensures trace == []
    {
      this.property := property;
      this.apply := apply;
      this.settle := settle;
      trace := [];
    }

    /** The result `call_method` delivers for a request: the lookup's exception,
        `Err(undefined)` when the property is not a function, otherwise whatever the
        function returns or throws. */
    function Respond(call: Invocation): (r: Result<DynValue, DynValue>)
    {
      match property(call.target, call.name)
      case GetThrew(e) => Err(e)
      case NotAFunction => Err(Undefined)
      case Function => apply(call)
    }

    /** `call_method(target, key, inputs)`. */
    method CallMethod(target: DynValue, key: string, inputs: seq<DynValue>) returns (r: Result<DynValue, DynValue>)
      modifies this
      ensures trace == old(trace) + [Invocation(target, key, inputs)]
      ensures r == Respond(Invocation(target, key, inputs))
      ensures property(target, key) == NotAFunction ==> r == Err(Undefined)
    {
      var call := Invocation(target, key, inputs);
      trace := trace + [call];
      var found := property(target, key);
      match found {
        case GetThrew(e) =>
          r := Err(e);
        case NotAFunction =>
          r := Err(Undefined);
        case Function =>
          r := apply(call);
      }
    }
  }
}
