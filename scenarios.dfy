/** The container's documented behaviour on small concrete programs. */
module Scenarios {
  import opened Errors
  import opened Values
  import opened Identifier
  import opened Provider
  import opened Metadata
  import opened Lazy
  import opened Token
  import opened Context
  import opened Container

  /** `has` answers for a registered token, never for a class, registered or not. */
  method HasAnswersForTokensOnly() returns (classBefore: bool, tokenBefore: bool, tokenAfter: bool, classAfter: bool)
    ensures !classBefore && !tokenBefore && tokenAfter && !classAfter
  {
    var foo := Class(0, "Foo", 0);
    var c := new DependencyContainer(map[0 := ServiceMetadata(Transient, [])]);
    classBefore := c.Has(foo);
    tokenBefore := c.Has(Str("token"));
    var r := c.Register(Str("token"), foo);
    tokenAfter := c.Has(Str("token"));
    classAfter := c.Has(foo);
  }

  /** `reset` drops every binding. */
  method ResetDropsBindings() returns (hadToken: bool, hasToken: bool)
    ensures hadToken && !hasToken
  {
    var c := new DependencyContainer(map[]);
    var one := Literal(Undefined, Num(1), Undefined, Undefined);
    assert IsValueProvider(one) && !IsConstructor(one);
    var reg := c.Register(Str("token"), one);
    hadToken := c.Has(Str("token"));
    c.Reset();
    hasToken := c.Has(Str("token"));
  }

  /** `reset` drops every singleton: the next resolution of a singleton class builds a new object. */
  method ResetForgetsSingletons() returns (first: Result<Value>, second: Result<Value>)
    ensures first.Ok? && second.Ok? && first.value != second.value
  {
    var foo := Class(0, "Foo", 0);
    var c := new DependencyContainer(map[0 := ServiceMetadata(Singleton, [])]);
    first := c.Resolve(foo);
    c.Reset();
    second := c.Resolve(foo);
  }

  /** A singleton class resolves to one and the same object every time. */
  method SingletonResolvesToOneObject() returns (a: Result<Value>, b: Result<Value>, c: Result<Value>)
    ensures a.Ok? && a == b && b == c
  {
    var foo := Class(0, "Foo", 0);
    var container := new DependencyContainer(map[0 := ServiceMetadata(Singleton, [])]);
    a := container.Resolve(foo);
    b := container.Resolve(foo);
    c := container.Resolve(foo);
  }

  /** A transient class resolves to a new object every time. */
  method TransientResolvesToNewObjects() returns (a: Result<Value>, b: Result<Value>, c: Result<Value>)
    ensures a.Ok? && b.Ok? && c.Ok?
    ensures a.value != b.value && a.value != c.value && b.value != c.value
  {
    var foo := Class(0, "Foo", 0);
    var container := new DependencyContainer(map[0 := ServiceMetadata(Transient, [])]);
    a := container.Resolve(foo);
    b := container.Resolve(foo);
    c := container.Resolve(foo);
  }

  /**
   * `lazy(Bar)` hands over the class itself as the forward reference: resolving the identifier
   * yields a handle at once, and the first use of the handle fails because the class is called
   * without `new`.
   */
  method LazyClassFailsOnFirstUse() returns (handle: Result<Value>, use: Result<Value>)
    ensures handle.Ok? && handle.value.Proxy?
    ensures use == Err(ClassCalledWithoutNew("Bar"))
  {
    var bar := Class(1, "Bar", 0);
    var c := new DependencyContainer(map[]);
    var id := MakeLazy(0, bar);
    handle := c.Resolve(id.value);
    use := c.UseProxy(handle.value.proxy);
  }

  /**
   * `lazy(() => Bar)` with a class that needs constructor arguments: resolving the identifier
   * succeeds, and the failure surfaces when the handle is first used.
   */
  method LazyFailsWhenUsed() returns (handle: Result<Value>, use: Result<Value>)
    ensures handle.Ok? && handle.value.Proxy?
    ensures use == Err(NonInjectable("Bar"))
  {
    var bar := Class(1, "Bar", 1);
    var c := new DependencyContainer(map[]);
    var id := MakeLazy(0, Arrow(0, "", 0, bar));
    handle := c.Resolve(id.value);
    use := c.UseProxy(handle.value.proxy);
  }

  /**
   * The handle resolves its target once: two uses see the same object even though the class is
   * transient, while resolving the class directly builds another one.
   */
  method LazyResolvesOnce() returns (first: Result<Value>, second: Result<Value>, direct: Result<Value>)
    ensures first.Ok? && second == first
    ensures direct.Ok? && direct.value != first.value
  {
    var foo := Class(0, "Foo", 0);
    var c := new DependencyContainer(map[0 := ServiceMetadata(Transient, [])]);
    var id := MakeLazy(0, Arrow(0, "", 0, foo));
    var handle := c.Resolve(id.value);
    first := c.UseProxy(handle.value.proxy);
    second := c.UseProxy(handle.value.proxy);
    direct := c.Resolve(foo);
  }

  /** Two fields of `A` bound to the resolution-scoped class `C`. */
  function SiblingDescriptors(): map<ClassId, ServiceMetadata>
  {
    map[0 := ServiceMetadata(Transient, [Dependence("c1", Class(1, "C", 0)), Dependence("c2", Class(1, "C", 0))]),
        1 := ServiceMetadata(Resolution, [])]
  }

  /** With no bindings, `A` resolves to an object of `A`. */
  lemma SiblingsOutcome(c: DependencyContainer, r: Result<Value>)
    requires c.descriptors == SiblingDescriptors() && c.registry == map[]
    requires c.Closed(c.Universe(Class(0, "A", 0))) && Class(0, "A", 0) in c.Universe(Class(0, "A", 0))
    requires c.Yields(c.Universe(Class(0, "A", 0)), Class(0, "A", 0), r, [])
    ensures r.Ok? && r.value.Obj? && r.value.obj.ctor == Class(0, "A", 0)
  {
    var a, cc := Class(0, "A", 0), Class(1, "C", 0);
    var U := c.Universe(a);
    PushedOk(U, [], a);
    assert c.Deps(a)[0].serviceIdentifier == cc && c.Deps(a)[1].serviceIdentifier == cc;
    assert c.Sure(U, cc, Pushed([], a));
    c.SureSucceeds(U, a, r, []);
  }

  /** The two fields of `A` bound to the resolution-scoped `C` share one instance. */
  lemma SiblingsShare(c: DependencyContainer, fields: map<FieldKey, Value>)
    requires c.descriptors == SiblingDescriptors() && c.SharedWithin(fields, c.Deps(Class(0, "A", 0)))
    ensures "c1" in fields && "c2" in fields && fields["c1"] == fields["c2"]
  {
    var deps := c.Deps(Class(0, "A", 0));
    assert deps[0].field == "c1" && deps[1].field == "c2" && deps[0].serviceIdentifier == deps[1].serviceIdentifier;
  }

  /**
   * A resolution-scoped class injected into two fields of one object gives both fields the same
   * instance; a second resolution builds a new object.
   */
  method ResolutionScopedIsShared() returns (first: Result<Value>, second: Result<Value>)
    ensures first.Ok? && first.value.Obj? && "c1" in first.value.obj.fields && "c2" in first.value.obj.fields
    ensures first.value.obj.fields["c1"] == first.value.obj.fields["c2"]
    ensures second.Ok? && second.value != first.value
  {
    var a := Class(0, "A", 0);
    var c := new DependencyContainer(SiblingDescriptors());
    first := c.Resolve(a);
    SiblingsOutcome(c, first);
    SiblingsShare(c, first.value.obj.fields);
    second := c.Resolve(a);
    SiblingsOutcome(c, second);
  }
  /** `Foo` is bound under 'foo': the token resolves to an object of `Foo`. */
  lemma ClassBindingOutcome(c: DependencyContainer, r: Result<Value>)
    requires c.registry == map[Str("foo") := AsProvider(Class(0, "Foo", 0))] && c.Deps(Class(0, "Foo", 0)) == []
    requires c.Closed(c.Universe(Str("foo"))) && Str("foo") in c.Universe(Str("foo"))
    requires c.Yields(c.Universe(Str("foo")), Str("foo"), r, [])
    ensures r.Ok? && r.value.Obj? && r.value.obj.ctor == Class(0, "Foo", 0)
  {
    var foo, t := Class(0, "Foo", 0), Str("foo");
    var U := c.Universe(t);
    PushedOk(U, [], t);
    assert c.Sure(U, foo, Pushed([], t));
    c.SureSucceeds(U, t, r, []);
  }

  /** A class bound under a token resolves, directly and through the token, to objects of the class. */
  method ClassBindingResolves() returns (direct: Result<Value>, viaToken: Result<Value>)
    ensures direct.Ok? && direct.value.Obj? && direct.value.obj.ctor == Class(0, "Foo", 0)
    ensures viaToken.Ok? && viaToken.value.Obj? && viaToken.value.obj.ctor == Class(0, "Foo", 0)
  {
    var foo := Class(0, "Foo", 0);
    var c := new DependencyContainer(map[0 := ServiceMetadata(Transient, [])]);
    var reg := c.Register(Str("foo"), foo);
    direct := c.Resolve(foo);
    c.TopLevelOutcome(foo, direct);
    viaToken := c.Resolve(Str("foo"));
    ClassBindingOutcome(c, viaToken);
  }

  /** 'a' redirects to 'b', which is bound to `Foo`: 'a' resolves to an object of `Foo`. */
  lemma RedirectOutcome(c: DependencyContainer, r: Result<Value>)
    requires c.registry == map[Str("a") := Literal(Undefined, Undefined, Str("b"), Undefined), Str("b") := AsProvider(Class(0, "Foo", 0))]
    requires c.Deps(Class(0, "Foo", 0)) == []
    requires c.Closed(c.Universe(Str("a"))) && Str("a") in c.Universe(Str("a"))
    requires c.Yields(c.Universe(Str("a")), Str("a"), r, [])
    ensures r.Ok? && r.value.Obj? && r.value.obj.ctor == Class(0, "Foo", 0)
  {
    var foo, a, b := Class(0, "Foo", 0), Str("a"), Str("b");
    var U := c.Universe(a);
    PushedOk(U, [], a);
    var chain := Pushed([], a);
    assert b in U;
    PushedOk(U, chain, b);
    assert c.Sure(U, foo, Pushed(chain, b));
    assert c.Sure(U, b, chain);
    c.SureSucceeds(U, a, r, []);
    assert c.Yields(U, b, r, chain);
  }

  /**
   * A redirect registered before its target: binding 'a' to `{useToken: 'b'}` while 'b' is unbound
   * succeeds, and once 'b' is bound to `Foo`, 'a' resolves to an object of `Foo`.
   */
  method RedirectResolvesTarget() returns (first: Outcome, second: Outcome, r: Result<Value>)
    ensures first == Pass && second == Pass
    ensures r.Ok? && r.value.Obj? && r.value.obj.ctor == Class(0, "Foo", 0)
  {
    var foo := Class(0, "Foo", 0);
    var c := new DependencyContainer(map[]);
    var redirect := Literal(Undefined, Undefined, Str("b"), Undefined);
    assert RedirectWalk(map[], [Str("a")], Str("b")) == Ends([Str("a"), Str("b")]);
    first := c.Register(Str("a"), redirect);
    second := c.Register(Str("b"), foo);
    r := c.Resolve(Str("a"));
    RedirectOutcome(c, r);
  }

  /** 'b' redirects to 'a', which is bound to the value 1: 'b' resolves to 1 itself. */
  lemma RedirectToValueOutcome(c: DependencyContainer, r: Result<Value>)
    requires c.registry == map[Str("a") := Literal(Undefined, Num(1), Undefined, Undefined), Str("b") := Literal(Undefined, Undefined, Str("a"), Undefined)]
    requires c.Closed(c.Universe(Str("b"))) && Str("b") in c.Universe(Str("b"))
    requires c.Yields(c.Universe(Str("b")), Str("b"), r, [])
    ensures r == Ok(Num(1))
  {
    var U := c.Universe(Str("b"));
    var a, b := Str("a"), Str("b");
    assert IsNormalToken(a) && IsNormalToken(b);
    var redirect, value := c.registry[b], c.registry[a];
    assert !IsValueProvider(redirect) && !IsFactoryProvider(redirect) && ProviderTarget(redirect) == Some(a);
    assert IsValueProvider(value) && UseValue(value) == Num(1);
    PushedOk(U, [], b);
    assert a in U && a !in ChainIds(Pushed([], b));
    assert c.Yields(U, a, r, Pushed([], b));
  }

  /** A redirect to a value binding resolves to that value. */
  method RedirectToValue() returns (r: Result<Value>)
    ensures r == Ok(Num(1))
  {
    var c := new DependencyContainer(map[]);
    var value := Literal(Undefined, Num(1), Undefined, Undefined);
    var redirect := Literal(Undefined, Undefined, Str("a"), Undefined);
    var first := c.Register(Str("a"), value);
    assert c.registry == map[Str("a") := value];
    assert RedirectWalk(c.registry, [Str("b")], Str("a")) == Ends([Str("b"), Str("a")]);
    var second := c.Register(Str("b"), redirect);
    assert c.registry == map[Str("a") := value, Str("b") := redirect];
    r := c.Resolve(Str("b"));
    RedirectToValueOutcome(c, r);
  }

  /** `Foo` declares field `a`, injected from 'a'. */
  function FieldDescriptors(): map<ClassId, ServiceMetadata>
  {
    map[0 := ServiceMetadata(Transient, [Dependence("a", Str("a"))])]
  }

  /** With 'a' bound to the value 1, `Foo` resolves to an object of `Foo`. */
  lemma InjectedFieldOutcome(c: DependencyContainer, r: Result<Value>)
    requires c.descriptors == FieldDescriptors() && c.registry == map[Str("a") := Literal(Undefined, Num(1), Undefined, Undefined)]
    requires c.Closed(c.Universe(Class(0, "Foo", 0))) && Class(0, "Foo", 0) in c.Universe(Class(0, "Foo", 0))
    requires c.Yields(c.Universe(Class(0, "Foo", 0)), Class(0, "Foo", 0), r, [])
    ensures r.Ok? && r.value.Obj? && r.value.obj.ctor == Class(0, "Foo", 0)
  {
    var foo := Class(0, "Foo", 0);
    var U := c.Universe(foo);
    PushedOk(U, [], foo);
    assert c.Deps(foo)[0] == Dependence("a", Str("a"));
    assert c.Sure(U, Str("a"), Pushed([], foo));
    c.SureSucceeds(U, foo, r, []);
  }

  /** ... and its field `a` holds 1. */
  lemma InjectedFieldValue(c: DependencyContainer, fields: map<FieldKey, Value>)
    requires c.descriptors == FieldDescriptors() && c.registry == map[Str("a") := Literal(Undefined, Num(1), Undefined, Undefined)]
    requires c.Closed(c.Universe(Class(0, "Foo", 0))) && Class(0, "Foo", 0) in c.Universe(Class(0, "Foo", 0))
    requires ChainOk(Pushed([], Class(0, "Foo", 0)))
    requires c.FieldsYield(c.Universe(Class(0, "Foo", 0)), Class(0, "Foo", 0), fields, Pushed([], Class(0, "Foo", 0)))
    ensures "a" in fields && fields["a"] == Num(1)
  {
    var foo := Class(0, "Foo", 0);
    assert c.Deps(foo)[0] == Dependence("a", Str("a"));
    assert c.Yields(c.Universe(foo), Str("a"), Ok(fields["a"]), Pushed([], foo));
  }

  /** A class without a lifecycle decorator still gets its injected field set. */
  method InjectedFieldHoldsValue() returns (r: Result<Value>)
    ensures r.Ok? && r.value.Obj? && "a" in r.value.obj.fields && r.value.obj.fields["a"] == Num(1)
  {
    var foo := Class(0, "Foo", 0);
    var c := new DependencyContainer(FieldDescriptors());
    var reg := c.Register(Str("a"), Literal(Undefined, Num(1), Undefined, Undefined));
    r := c.Resolve(foo);
    InjectedFieldOutcome(c, r);
    InjectedFieldValue(c, r.value.obj.fields);
  }
  /** `A` injects field `b` from 'b'; 'b' is bound to `A` itself. */
  function CycleDescriptors(): map<ClassId, ServiceMetadata>
  {
    map[0 := ServiceMetadata(Transient, [Dependence("b", Str("b"))])]
  }

  /** On the chain `A -> String(b)`, `A` is in progress: 'b' has no way to succeed there. */
  lemma CycleCannotSucceed(c: DependencyContainer, U: set<Value>)
    requires c.descriptors == CycleDescriptors() && c.registry == map[Str("b") := AsProvider(Class(0, "A", 0))]
    requires c.Closed(U) && Class(0, "A", 0) in U && Str("b") in U
    ensures ChainOk(Pushed([], Class(0, "A", 0)))
    ensures !c.CanSucceed(U, Str("b"), Pushed([], Class(0, "A", 0)))
  {
    var a, b := Class(0, "A", 0), Str("b");
    PushedOk(U, [], a);
    PushedOk(U, Pushed([], a), b);
    assert a in ChainIds(Pushed(Pushed([], a), b));
    assert !c.CanSucceed(U, a, Pushed(Pushed([], a), b));
  }

  /** 'b' on the chain `A` redirects to `A`, which is in progress: the cycle error. */
  lemma CycleAtToken(c: DependencyContainer, U: set<Value>, r: Result<Value>)
    requires c.descriptors == CycleDescriptors() && c.registry == map[Str("b") := AsProvider(Class(0, "A", 0))]
    requires c.Closed(U) && Class(0, "A", 0) in U && Str("b") in U
    requires ChainOk(Pushed([], Class(0, "A", 0)))
    requires c.Yields(U, Str("b"), r, Pushed([], Class(0, "A", 0)))
    ensures r == Err(Circular("A -> String(b)", "A"))
  {
    var a, b := Class(0, "A", 0), Str("b");
    var chain1 := Pushed([], a);
    PushedOk(U, chain1, b);
    var chain2 := Pushed(chain1, b);
    assert chain1[0].serviceIdentifier == a && b != a;
    assert ProviderTarget(c.registry[b]) == Some(a);
    assert c.Yields(U, a, r, chain2) by {
      assert b !in ChainIds(chain1);
    }
    assert chain2[0].serviceIdentifier == a;
    assert a in ChainIds(chain2);
    assert r == Err(Circular(ChainNames(chain2), "A"));
    CycleChainNames();
  }

  /**
   * The chain `A`, then 'b', prints as `A -> String(b)`. Kept apart from `CycleAtToken`, which
   * unfolds `Yields`, so that the string evaluation is proved in a small context.
   */
  lemma CycleChainNames()
    ensures PrintableChain(Pushed(Pushed([], Class(0, "A", 0)), Str("b")))
    ensures ChainNames(Pushed(Pushed([], Class(0, "A", 0)), Str("b"))) == "A -> String(b)"
  {
    var a, b := Class(0, "A", 0), Str("b");
    ChainNamesSnoc([], ChainEntry(a, false, KindOf(a)));
    ChainNamesSnoc(Pushed([], a), ChainEntry(b, false, KindOf(b)));
    assert ServiceIdentifierName(b) == "String(b)";
    assert "A" + " -> " == "A -> ";
    assert "A -> " + "String(b)" == "A -> String(b)";
  }

  /** Resolving `A` meets the cycle through its dependency 'b', and that is the error of the whole resolution. */
  lemma ClassProviderCycleOutcome(c: DependencyContainer, r: Result<Value>)
    requires c.descriptors == CycleDescriptors() && c.registry == map[Str("b") := AsProvider(Class(0, "A", 0))]
    requires c.Closed(c.Universe(Class(0, "A", 0))) && Class(0, "A", 0) in c.Universe(Class(0, "A", 0))
    requires c.Yields(c.Universe(Class(0, "A", 0)), Class(0, "A", 0), r, [])
    ensures r == Err(Circular("A -> String(b)", "A"))
  {
    var a, b := Class(0, "A", 0), Str("b");
    var U := c.Universe(a);
    PushedOk(U, [], a);
    assert c.Deps(a)[0] == Dependence("b", b);
    CycleCannotSucceed(c, U);
    var i :| c.FailsAt(U, a, i, r, Pushed([], a));
    CycleAtToken(c, U, r);
  }

  /** A cycle through a class binding is found when the class is resolved, and reported with its chain. */
  method ClassProviderCycle() returns (r: Result<Value>)
    ensures r == Err(Circular("A -> String(b)", "A"))
    ensures Message(r.error) == "Discovery of circular dependencies: A -> String(b) -> A"
  {
    assert Message(Circular("A -> String(b)", "A")) == "Discovery of circular dependencies: A -> String(b) -> A";
    var a := Class(0, "A", 0);
    var c := new DependencyContainer(CycleDescriptors());
    var reg := c.Register(Str("b"), a);
    r := c.Resolve(a);
    ClassProviderCycleOutcome(c, r);
  }

  /** `A02` injects `A01`, whose constructor has a required parameter: resolving `A02` fails with `A01`'s error. */
  lemma NestedNonInjectableOutcome(c: DependencyContainer, r: Result<Value>)
    requires c.descriptors == map[2 := ServiceMetadata(Transient, [Dependence("a01", Class(1, "A01", 1))])]
    requires c.Closed(c.Universe(Class(2, "A02", 0))) && Class(2, "A02", 0) in c.Universe(Class(2, "A02", 0))
    requires c.Yields(c.Universe(Class(2, "A02", 0)), Class(2, "A02", 0), r, [])
    ensures r == Err(NonInjectable("A01"))
  {
    var a02, a01 := Class(2, "A02", 0), Class(1, "A01", 1);
    var U := c.Universe(a02);
    PushedOk(U, [], a02);
    assert c.Deps(a02)[0] == Dependence("a01", a01);
    assert a01 !in ChainIds(Pushed([], a02));
    assert !c.CanSucceed(U, a01, Pushed([], a02));
    assert c.LifecycleOf(a02) == Transient;
    assert r.Err?;
    var i :| c.FailsAt(U, a02, i, r, Pushed([], a02));
    assert i == 0;
    assert c.Yields(U, a01, r, Pushed([], a02));
  }

  /** The failure of a dependency is the failure of the class that injects it. */
  method NestedNonInjectable() returns (r: Result<Value>)
    ensures r == Err(NonInjectable("A01"))
  {
    var a02 := Class(2, "A02", 0);
    var c := new DependencyContainer(map[2 := ServiceMetadata(Transient, [Dependence("a01", Class(1, "A01", 1))])]);
    r := c.Resolve(a02);
    NestedNonInjectableOutcome(c, r);
  }

  /** `Foo` injects field `a` from the unbound token '1': resolving `Foo` fails on that token. */
  lemma UnregisteredDependencyOutcome(c: DependencyContainer, r: Result<Value>)
    requires c.descriptors == map[0 := ServiceMetadata(Transient, [Dependence("a", Str("1"))])] && c.registry == map[]
    requires c.Closed(c.Universe(Class(0, "Foo", 0))) && Class(0, "Foo", 0) in c.Universe(Class(0, "Foo", 0))
    requires c.Yields(c.Universe(Class(0, "Foo", 0)), Class(0, "Foo", 0), r, [])
    ensures r == Err(Unregistered("String(1)"))
  {
    var foo := Class(0, "Foo", 0);
    var U := c.Universe(foo);
    PushedOk(U, [], foo);
    assert c.Deps(foo)[0] == Dependence("a", Str("1"));
    assert !c.CanSucceed(U, Str("1"), Pushed([], foo));
    assert c.LifecycleOf(foo) == Transient;
    assert r.Err?;
    var i :| c.FailsAt(U, foo, i, r, Pushed([], foo));
    assert i == 0;
    assert c.Yields(U, Str("1"), r, Pushed([], foo));
    assert IsNormalToken(Str("1")) && Str("1") !in c.registry;
    assert ServiceIdentifierName(Str("1")) == "String(1)";
  }

  /** An unbound token injected into a field fails the resolution of the class. */
  method UnregisteredDependency() returns (r: Result<Value>)
    ensures r == Err(Unregistered("String(1)"))
  {
    var foo := Class(0, "Foo", 0);
    var c := new DependencyContainer(map[0 := ServiceMetadata(Transient, [Dependence("a", Str("1"))])]);
    r := c.Resolve(foo);
    UnregisteredDependencyOutcome(c, r);
  }

  /** `A` injects `B`, which injects `C`. */
  function NestedDescriptors(): map<ClassId, ServiceMetadata>
  {
    map[0 := ServiceMetadata(Transient, [Dependence("b", Class(1, "B", 0))]),
        1 := ServiceMetadata(Transient, [Dependence("c", Class(2, "C", 0))])]
  }

  /** The chain `A -> B -> C` resolves. */
  lemma NestedOutcome(c: DependencyContainer, r: Result<Value>)
    requires c.descriptors == NestedDescriptors()
    requires c.Closed(c.Universe(Class(0, "A", 0))) && Class(0, "A", 0) in c.Universe(Class(0, "A", 0))
    requires c.Yields(c.Universe(Class(0, "A", 0)), Class(0, "A", 0), r, [])
    ensures r.Ok? && r.value.Obj? && r.value.obj.ctor == Class(0, "A", 0)
  {
    var a, b, cc := Class(0, "A", 0), Class(1, "B", 0), Class(2, "C", 0);
    var U := c.Universe(a);
    PushedOk(U, [], a);
    var chain1 := Pushed([], a);
    assert c.Deps(a)[0].serviceIdentifier == b;
    PushedOk(U, chain1, b);
    assert c.Deps(b)[0].serviceIdentifier == cc;
    assert c.Sure(U, cc, Pushed(chain1, b));
    assert c.Sure(U, b, chain1);
    c.SureSucceeds(U, a, r, []);
  }

  /** ... and the field `b` of the result holds an object of `B`. */
  lemma NestedField(c: DependencyContainer, fields: map<FieldKey, Value>)
    requires c.descriptors == NestedDescriptors()
    requires c.Closed(c.Universe(Class(0, "A", 0))) && Class(0, "A", 0) in c.Universe(Class(0, "A", 0))
    requires ChainOk(Pushed([], Class(0, "A", 0)))
    requires c.FieldsYield(c.Universe(Class(0, "A", 0)), Class(0, "A", 0), fields, Pushed([], Class(0, "A", 0)))
    ensures "b" in fields && fields["b"].Obj? && fields["b"].obj.ctor == Class(1, "B", 0)
  {
    var a, b := Class(0, "A", 0), Class(1, "B", 0);
    assert c.Deps(a)[0] == Dependence("b", b);
    assert c.Yields(c.Universe(a), b, Ok(fields["b"]), Pushed([], a));
  }

  /** Nested dependencies: `A` resolves, and its field `b` holds an object of `B`. */
  method NestedDependencies() returns (r: Result<Value>)
    ensures r.Ok? && r.value.Obj? && r.value.obj.ctor == Class(0, "A", 0)
    ensures "b" in r.value.obj.fields && r.value.obj.fields["b"].Obj? && r.value.obj.fields["b"].obj.ctor == Class(1, "B", 0)
  {
    var a := Class(0, "A", 0);
    var c := new DependencyContainer(NestedDescriptors());
    r := c.Resolve(a);
    NestedOutcome(c, r);
    NestedField(c, r.value.obj.fields);
  }

  /** The first use of a handle over `() => 'a'`, with 'a' bound to the value 1, gives 1. */
  method LazyTokenUse() returns (use: Result<Value>)
    ensures use == Ok(Num(1))
  {
    var c := new DependencyContainer(map[]);
    var reg := c.Register(Str("a"), Literal(Undefined, Num(1), Undefined, Undefined));
    var id := MakeLazy(0, Arrow(0, "", 0, Str("a")));
    var handle := c.Resolve(id.value);
    use := c.UseProxy(handle.value.proxy);
    c.TopLevelOutcome(Str("a"), use);
  }

  /** `Foo` injects field `bar` from the wrapper `lazy(Bar)`. */
  function LazyFieldDescriptors(): map<ClassId, ServiceMetadata>
  {
    map[0 := ServiceMetadata(Transient, [Dependence("bar", LazyObj(0, Class(1, "Bar", 0)))])]
  }

  /** A class whose one dependency is a lazy wrapper resolves: the wrapper cannot fail. */
  lemma LazyFieldOutcome(c: DependencyContainer, r: Result<Value>)
    requires c.descriptors == LazyFieldDescriptors()
    requires c.Closed(c.Universe(Class(0, "Foo", 0))) && Class(0, "Foo", 0) in c.Universe(Class(0, "Foo", 0))
    requires c.Yields(c.Universe(Class(0, "Foo", 0)), Class(0, "Foo", 0), r, [])
    ensures r.Ok? && r.value.Obj? && r.value.obj.ctor == Class(0, "Foo", 0)
  {
    var foo := Class(0, "Foo", 0);
    var U := c.Universe(foo);
    PushedOk(U, [], foo);
    assert c.Deps(foo)[0].serviceIdentifier == LazyObj(0, Class(1, "Bar", 0));
    assert c.Sure(U, foo, []);
    c.SureSucceeds(U, foo, r, []);
  }

  /** ... and its field holds a handle over the wrapper's forward reference. */
  lemma LazyFieldHandle(c: DependencyContainer, fields: map<FieldKey, Value>)
    requires c.descriptors == LazyFieldDescriptors()
    requires c.Closed(c.Universe(Class(0, "Foo", 0))) && Class(0, "Foo", 0) in c.Universe(Class(0, "Foo", 0))
    requires ChainOk(Pushed([], Class(0, "Foo", 0)))
    requires c.FieldsYield(c.Universe(Class(0, "Foo", 0)), Class(0, "Foo", 0), fields, Pushed([], Class(0, "Foo", 0)))
    ensures "bar" in fields && fields["bar"].Proxy? && fields["bar"].proxy.forwardRef == Class(1, "Bar", 0)
  {
    var foo, lz := Class(0, "Foo", 0), LazyObj(0, Class(1, "Bar", 0));
    assert c.Deps(foo)[0] == Dependence("bar", lz);
    assert c.Yields(c.Universe(foo), lz, Ok(fields["bar"]), Pushed([], foo));
  }

  /**
   * `@inject(lazy(Bar)) bar` on `Foo`: resolving `Foo` succeeds and sets `bar` to a handle over
   * `Bar`, which nothing has called yet.
   */
  method LazyFieldResolves() returns (r: Result<Value>)
    ensures r.Ok? && r.value.Obj? && r.value.obj.ctor == Class(0, "Foo", 0)
    ensures "bar" in r.value.obj.fields && r.value.obj.fields["bar"].Proxy?
    ensures r.value.obj.fields["bar"].proxy.forwardRef == Class(1, "Bar", 0)
  {
    var foo := Class(0, "Foo", 0);
    var c := new DependencyContainer(LazyFieldDescriptors());
    r := c.Resolve(foo);
    LazyFieldOutcome(c, r);
    LazyFieldHandle(c, r.value.obj.fields);
  }
}
