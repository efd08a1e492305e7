/** The four provider shapes and the test that a value is one of them. */
module Provider {
  import opened Values
  import opened Token
  import opened Identifier

  /* Property reads on a value: only an object literal has the four provider properties;
     on any other value they read as `undefined`. */
  function UseClass(p: Value): Value { if p.Literal? then p.useClass else Undefined }
  function UseValue(p: Value): Value { if p.Literal? then p.useValue else Undefined }
  function UseToken(p: Value): Value { if p.Literal? then p.useToken else Undefined }
  function UseFactory(p: Value): Value { if p.Literal? then p.useFactory else Undefined }

  /** `isClassProvider`: a truthy value whose `useClass` is a function. */
  predicate IsClassProvider(p: Value)
  {
    Truthy(p) && IsConstructor(UseClass(p))
  }

  /** `isValueProvider`: a truthy value whose `useValue` is anything but `undefined`. */
  predicate IsValueProvider(p: Value)
  {
    Truthy(p) && UseValue(p) != Undefined
  }

  /** `isTokenProvider`: a truthy `useToken` that is a normal token. */
  predicate IsTokenProvider(p: Value)
  {
    Truthy(p) && Truthy(UseToken(p)) && IsNormalToken(UseToken(p))
  }

  /** `isFactoryProvider`: a truthy value whose `useFactory` is a function. */
  predicate IsFactoryProvider(p: Value)
  {
    Truthy(p) && IsConstructor(UseFactory(p))
  }

  /** `isProvider`: one of the four shapes. */
  predicate IsProvider(p: Value)
  {
    IsValueProvider(p) || IsClassProvider(p) || IsFactoryProvider(p) || IsTokenProvider(p)
  }

  /** A bare class handed to `register` becomes `{useClass: ctor}`. */
  function AsProvider(p: Value): (r: Value)
    ensures IsConstructor(p) ==> IsClassProvider(r) && UseClass(r) == p
    ensures IsConstructor(p) ==> !IsValueProvider(r) && !IsFactoryProvider(r) && !IsTokenProvider(r)
    ensures !IsConstructor(p) ==> r == p
  {
    if IsConstructor(p) then Literal(p, Undefined, Undefined, Undefined) else p
  }

  /** What the shape tests accept and reject at their edges. */
  lemma ProviderShapeEdges(v: Value, t: Value)
    ensures !IsProvider(Undefined) && !IsProvider(Null)
    ensures IsProvider(v) ==> v.Literal?
    ensures IsValueProvider(Literal(Undefined, v, Undefined, Undefined)) <==> !v.Undefined?
    ensures !IsTokenProvider(Literal(Undefined, Undefined, Str(""), Undefined))
    ensures IsTokenProvider(Literal(Undefined, Undefined, t, Undefined)) <==> IsNormalToken(t) && t != Str("")
  {
  }
}
