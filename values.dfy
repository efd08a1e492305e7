/**
 * The JavaScript values the container observes: primitives, the three kinds of
 * functions it can be handed (classes, zero-argument arrow functions, opaque
 * factories), `Token` and `Lazy` wrappers, provider object literals, class
 * instances and the forwarding handles built for lazy identifiers.
 */
module Values {
  import opened Errors

  type ClassId = nat
  type FieldKey = string

  datatype Option<T> = None | Some(value: T)

  /** A call that either returns a value or throws. */
  datatype Result<T> = Ok(value: T) | Err(error: DiError)

  /** A call that returns nothing or throws. */
  datatype Outcome = Pass | Fail(error: DiError)

  datatype Value =
    | Undefined
    | Null
    | Bool(b: bool)
    | Num(n: int)
    | Str(s: string)
    | Sym(sid: nat, desc: string)                               // Symbol(desc); equal by identity
    | TokenObj(tid: nat, description: string)                   // an instance of class Token
    | Class(cid: ClassId, name: string, length: nat)            // a class; `length` counts required parameters
    | Arrow(aid: nat, name: string, length: nat, result: Value) // an arrow function returning a fixed value
    | FactoryFn(fid: nat, name: string, length: nat)            // an opaque function, fresh value per call
    | LazyObj(lid: nat, forwardRef: Value)                      // an instance of class Lazy
    | Literal(useClass: Value, useValue: Value, useToken: Value, useFactory: Value) // an object literal
    | Obj(obj: JsObject)                                        // an object created by `new` or a factory
    | Proxy(proxy: LazyProxy)                                   // the handle createProxy returns

  /** JavaScript truthiness (`!!v`). */
  predicate Truthy(v: Value)
  {
    match v
    case Undefined => false
    case Null => false
    case Bool(b) => b
    case Num(n) => n != 0
    case Str(s) => s != ""
    case _ => true
  }

  predicate IsNullish(v: Value)
  {
    v.Undefined? || v.Null?
  }

  /** `typeof v === 'function'` */
  predicate IsFunction(v: Value)
  {
    v.Class? || v.Arrow? || v.FactoryFn?
  }

  /** An object created by `new` (or returned by a factory), with its own fields. */
  class JsObject {
    const ctor: Value
    var fields: map<FieldKey, Value>

    constructor (ctor: Value)
      ensures this.ctor == ctor && fields == map[]
    {
      this.ctor := ctor;
      fields := map[];
    }
  }

  /** The state `createProxy` closes over: the forward reference and the memoised instance. */
  class LazyProxy {
    const forwardRef: Value
    var isInit: bool
    var instance: Value

    constructor (forwardRef: Value)
      ensures this.forwardRef == forwardRef && !isInit && instance == Undefined
    {
      this.forwardRef := forwardRef;
      isInit := false;
      instance := Undefined;
    }
  }

  function DigitChar(d: nat): char
    requires d < 10
  {
    "0123456789"[d]
  }

  /** Decimal text of a natural number, as `String(n)` prints it. */
  function NatToString(n: nat): string
    decreases n
  {
    if n < 10 then [DigitChar(n)] else NatToString(n / 10) + [DigitChar(n % 10)]
  }

  function IntToString(n: int): string
  {
    if n < 0 then "-" + NatToString(-n) else NatToString(n)
  }
}
