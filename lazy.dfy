/** Forward references: the `lazy` factory and the `isLazy` test. */
module Lazy {
  import opened Errors
  import opened Values
  import opened Token
  import opened Identifier

  /** `isLazy`: an instance of class `Lazy`. */
  predicate IsLazy(v: Value)
  {
    v.LazyObj?
  }

  /**
   * `lazy(forwardRef)`: wrap a callback in a new `Lazy` (identified by `lid`), or throw when the
   * argument is not a function. The callback is not called.
   */
  function MakeLazy(lid: nat, forwardRef: Value): (r: Result<Value>)
    ensures r.Ok? <==> IsFunction(forwardRef)
    ensures r.Err? ==> r.error == InvalidForwardRef
    ensures r.Ok? ==> IsLazy(r.value) && r.value.forwardRef == forwardRef
    ensures r.Ok? ==> IsServiceIdentifier(r.value) && !IsNormalToken(r.value) && !IsConstructor(r.value)
  {
    if !IsFunction(forwardRef) then Err(InvalidForwardRef) else Ok(LazyObj(lid, forwardRef))
  }
}
