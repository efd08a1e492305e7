# esdi dependency container, modelled in Dafny

This project models the core of esdi, a dependency-injection container for TypeScript built on
stage-3 decorators. Classes are described by decorators:
- `@injectable(lifecycle)` and `@singleton()` set a class's lifecycle: transient, singleton or
  resolution-scoped.
- `@inject(id)` declares that a field is filled with the resolution of a service identifier.

A service identifier is one of these:
- a normal token: a string, a symbol or a `Token` object;
- a class;
- a `lazy(() => Class)` wrapper.

The container does three things:
- It binds normal tokens to providers with `register`. A provider is a value, a factory, a class or
  a redirect to another token. `register` rejects any redirect chain that would form a cycle.
- It answers `has` and `reset`.
- It resolves identifiers with `resolve`. Resolution walks the dependency graph and detects
  circular dependencies. It caches singletons in the container and resolution-scoped instances in
  a context shared by all branches of one resolution. For a lazy identifier it returns a handle
  whose first use resolves the target.

The modules follow the source files:

| module | file | what it holds |
|---|---|---|
| `Errors` | errors.dfy | every error the core throws, with its message text |
| `Values` | values.dfy | the JavaScript values the core inspects; class instances (`JsObject`) and lazy handles (`LazyProxy`) are heap objects |
| `Token` | token.dfy | `Token` and `isNormalToken` |
| `Identifier` | identifier.dfy | identifier kinds and their printed names |
| `Provider` | provider.dfy | the four provider shapes |
| `Metadata` | metadata.dfy | class descriptors and their initialisation |
| `Lazy` | lazy.dfy | `lazy` and `isLazy` |
| `Context` | context.dfy | `ResolutionContext`: the dependency chain and the shared instance cache |
| `Inject` | inject.dfy | the `@inject` decorator |
| `Injectable` | injectable.dfy | `@injectable` and `@singleton` |
| `Container` | container.dfy | `DependencyContainer`: registration, the resolution engine, and the first use of a lazy handle |
| `Scenarios` | scenarios.dfy | the documented behaviour on small programs |

Resolution is written imperatively, as the source is. The registry and the singleton cache are
fields of the container. The chain and the cache are fields of the context. Each resolved object
is a `JsObject` whose field map is set one dependency at a time.

Termination of the mutually recursive engine rests on one fact: the chain of the current branch
gains an identifier that is not yet on it at every class or token step. The measure counts the
identifiers, out of the finite set reachable from the top identifier, that are not yet on the
chain.

Some behaviours of the code that the model keeps as written:
- A resolution that fails part-way keeps the singletons of the dependencies that were built before
  the failure, because each singleton is cached as soon as it is built (`src/container.ts:160-162`).
- `has('')` is false even when `''` is bound, because `has` tests the identifier's truthiness
  first (`src/container.ts:23`).
- A redirect to `''` is not a token provider (`src/provider.ts:32`), so `{useToken: ''}` is
  rejected as an invalid provider.
- Resolving an arrow function as a class fails with the engine's own `TypeError`
  ("serviceIdentifier is not a constructor"), because `new serviceIdentifier()` throws on it
  (`src/container.ts:175`).

What resolution may return is stated once, as the predicate `Yields` on the identifier and the
chain of the current branch, whatever the caches hold:
- a token: unbound fails; in progress is a cycle; a value binding gives its value, a factory
  binding an object of the factory, and a class or redirect binding what its target gives with
  the token pushed;
- a lazy wrapper gives a handle over its forward reference;
- a class: in progress is a cycle; required parameters and arrow functions fail; otherwise the
  result is an object of the class. A transient class succeeds only when each dependency can
  succeed with the class pushed. A failure is the failure of its first failing dependency, every
  earlier one having succeeded.

Every resolution method ensures `Yields` of its result. A newly built object's fields each hold
what their identifier yields (`FieldsYield`). `Sure` describes a dependency graph that cannot fail,
and `SureSucceeds` proves that it does not.

## Model

| member | source | states |
|---|---|---|
| Token.NormalTokenKinds | src/token.ts:13-15 | strings, symbols and `Token` objects are normal tokens; functions, lazy wrappers, `null` and `undefined` are not |
| Identifier.IdentifierKindsDisjoint | src/identifier.ts:8-14 | a normal token is neither a constructor nor a lazy wrapper, a constructor is no lazy wrapper, and every service identifier has a printed name |
| Identifier.NormalTokenNamesKeepKind | src/identifier.ts:16-28 | two normal tokens with the same printed name are of the same kind with the same text: `String(..)`, `Token(..)` and symbol names never collide |
| Identifier.JoinArrowsSnoc | src/context.ts:20-22 | joining one more name appends `" -> "` and the name, or gives the name alone on an empty list |
| Provider.AsProvider | src/container.ts:41-43 | a bare constructor becomes a class provider of exactly that class and of no other shape; anything else is left as it is |
| Provider.ProviderShapeEdges | src/provider.ts:23-41 | `undefined` and `null` are no provider; only object literals are; a value provider is one whose `useValue` is not `undefined`; a token provider needs a non-empty normal token |
| Metadata.GetClassMetadata | src/metadata.ts:29-37 | a class with a descriptor gets that descriptor; any other function gets the default (transient, no dependencies) |
| Metadata.CheckAndInitContextMetadata | src/metadata.ts:20-27 | an absent descriptor is initialised to the default; an existing one is left untouched |
| Metadata.InitialiseIdempotent | src/metadata.ts:20-27 | initialising an initialised descriptor changes nothing |
| Lazy.MakeLazy | src/lazy.ts:44-49 | `lazy(f)` succeeds exactly when `f` is a function, with a wrapper holding `f` that is a service identifier but neither a token nor a constructor; otherwise it fails with the forward-reference error |
| Context.SomeInProgress | src/context.ts:14-18 | the scan is true exactly when some chain entry is the identifier, with its kind, not yet done |
| Context.FindEntry | src/context.ts:43-45 | the index found is the first entry with the identifier and kind; none is found exactly when no entry matches |
| Context.ChainNamesSnoc | src/context.ts:20-22 | the printed chain after a push is the old printed chain, `" -> "`, and the new name |
| Context.StoredInstanceFound | src/context.ts:30-32 | a truthy stored instance is read back as stored; a falsy one, or a missing one, reads as `null` |
| Context.StartedIsInProgress | src/context.ts:35-38 | right after a start, the same identifier is reported as a circular dependency |
| Context.ResolutionContext.StartResolveServiceIdentifier | src/context.ts:35-38 | the chain gains one unfinished entry tagged with the identifier's kind, and the identifier is then in progress |
| Context.ResolutionContext.EndResolveServiceIdentifier | src/context.ts:41-50 | the first matching entry is marked done, or a done entry is pushed when none matches; the cache maps the identifier to the instance |
| Context.ResolutionContext.Fork | src/context.ts:53-58 | a fresh context with a copy of the chain and the very same cache |
| Context.ForkSharesCacheNotChain | src/context.ts:53-58 | a push in one fork is invisible to the parent and to a sibling, while the instance it records is visible to the sibling |
| Inject.WithoutField | src/decorators/inject.ts:49-51 | the filtered list holds no entry for the field, only entries of the input, and every input entry for another field |
| Inject.AddDependence | src/decorators/inject.ts:49-56 | after one `@inject` the list ends with the new entry, holds no other entry for the field, and keeps every entry for other fields |
| Inject.WithoutFieldKeepsOrder | src/decorators/inject.ts:49-51 | filtering keeps the other entries in their original order |
| Inject.LastApplicationWins | src/decorators/inject.ts:49-56 | two `@inject` on one field give the same list as the outer one alone |
| Inject.AddKeepsFieldsUnique | src/decorators/inject.ts:49-56 | a list with one entry per field keeps one entry per field |
| Inject.Inject | src/decorators/inject.ts:10-58 | rejects, in this order, an unsupported element kind, a missing identifier, an invalid one and a static field, leaving the descriptor alone; otherwise it initialises the descriptor and replaces the field's entry |
| Injectable.Injectable | src/decorators/injectable.ts:5-26 | rejects anything but a class; otherwise it initialises the descriptor and sets its lifecycle, keeping its dependencies |
| Injectable.SingletonDecorator | src/decorators/singleton.ts:4-6 | `@singleton()` is `@injectable` with the singleton lifecycle |
| Injectable.StackedDecorators | src/__tests__/decorator.test.ts:61-77 | `@singleton() @injectable()` over a field with `@inject('a') @inject('b')` gives a singleton whose one field is bound to `'a'` |
| Container.RedirectWalk | src/container.ts:53-73 | the walk over redirect bindings visits normal tokens only |
| Container.RedirectOf | src/container.ts:66-71 | a registered redirect always points at a normal token |
| Container.WalkExtends | src/container.ts:53-73 | a walk's path is its start, then the current token, then the tokens it went on to |
| Container.WalkFollowsRedirects | src/container.ts:66-71 | each step of the walk after its start goes through a registered redirect binding |
| Container.WalkStopsAtRepeat | src/container.ts:56-65 | from a duplicate-free start, the path before the last token has no repeats, the walk is a cycle exactly when the last token repeats an earlier one, and a walk that ends stops at a token without a redirect |
| Container.SelfRedirectIsCycle | src/container.ts:52-58 | redirecting a token to itself is a cycle of length two |
| Container.WalkIgnoresVisited | src/container.ts:56-70 | the walk never reads the bindings of tokens already on its path |
| Container.BoundRedirectTerminates | src/container.ts:53-75 | binding a redirect whose checked walk ended: the walk from the token in the new registry is that same walk, so it ends too |
| Container.CycleExampleNames | src/__tests__/error.test.ts:81-90 | the path `Symbol(c)`, `'a'`, `Token(b)`, `Symbol(c)` prints as `Symbol(c) -> String(a) -> Token(b) -> Symbol(c)` |
| Container.RegistrationCycleMessage | src/__tests__/error.test.ts:81-90 | binding `Symbol(c)` to `'a'`, with `'a'` redirected to `Token(b)` and `Token(b)` to `Symbol(c)`, reports the cycle `Symbol(c) -> String(a) -> Token(b) -> Symbol(c)` |
| Container.FieldsOfSnoc | src/container.ts:176-180 | one more dependency sets exactly one more field |
| Container.ProviderTarget | src/container.ts:192-207 | the identifier a class or redirect binding resolves next is a constructor or a normal token |
| Container.CircularIsMembership | src/context.ts:14-18 | on a resolution chain, the circular test is plain membership of the identifier, and the chain prints |
| Container.ChainIdsSnoc | src/context.ts:35-38 | a push adds exactly the identifier to the chain's identifiers |
| Container.PushedOk | src/container.ts:136 | pushing an identifier that is reachable and not yet on the chain keeps the chain well formed, adds exactly that identifier, and decreases the count of unvisited identifiers |
| Container.SeqOfHas | src/container.ts:93-124 | the enumeration of the reachable identifiers holds exactly the set's members |
| Container.CountShrinks | src/container.ts:126-136 | putting an identifier on the chain never increases the count of identifiers off the chain, and strictly decreases it when the identifier is one of them |
| Container.PushShrinks | src/container.ts:126-136 | every push onto the chain decreases the count of reachable identifiers not yet on it, so resolution terminates |
| Container.DependencyContainer.HasOnlyBoundTokens | src/container.ts:22-24 | `has` holds exactly for a truthy bound identifier, which is a normal token; never for a class or a lazy wrapper, and never for `''` |
| Container.DependencyContainer.Register | src/container.ts:37-76 | an invalid provider fails; a non-redirect binding is stored; a redirect whose walk ends is stored; one whose walk closes a cycle fails with the printed cycle; a failure leaves the registry unchanged and a success replaces only the token's binding |
| Container.DependencyContainer.Reset | src/container.ts:88-91 | the registry and the singleton cache are both empty |
| Container.DependencyContainer.SingletonStep | src/container.ts:160-162 | caching a newly built singleton keeps the singleton cache holding only objects of their own classes |
| Container.DependencyContainer.SharesAfterRecord | src/container.ts:156-158 | recording another class in the context keeps every field bound to a resolution-scoped class equal to the context's instance of it |
| Container.DependencyContainer.SharesStep | src/container.ts:176-180 | setting the next field keeps the sharing of the earlier fields and adds the new field's |
| Container.DependencyContainer.OkCanSucceed | src/container.ts:93-210 | whatever resolves successfully had a way to succeed: no cycle, every token on the way bound to a value, a factory or a target that can succeed, and every dependency of a transient class able to succeed |
| Container.DependencyContainer.FieldsYieldStep | src/container.ts:176-180 | setting the next declared field to what its identifier yields extends, by one, the prefix of fields that hold what their identifiers yield |
| Container.DependencyContainer.FieldsWitness | src/container.ts:176-180 | fields that each hold what their identifier yields show that each of those dependencies can succeed |
| Container.DependencyContainer.SureSucceeds | src/container.ts:93-210 | resolution of an identifier whose graph cannot fail (no cycle, every token bound to a value, a factory or a target that cannot fail, every class without required parameters, not an arrow function, and with dependencies that cannot fail) succeeds, whatever the caches hold |
| Container.DependencyContainer.Resolve | src/container.ts:81-83 | the result is what the identifier yields on the empty chain; a factory binding gives a new object and a lazy wrapper a new unused handle; a cached singleton is reused; otherwise a class gives a new object whose fields are exactly the declared ones, each holding what its identifier yields with the class pushed, and fields bound to one resolution-scoped class share one instance; the singleton cache only grows, and gains the class only on success |
| Container.DependencyContainer.TopLevelOutcome | src/container.ts:93-124 | read off a top-level result: an unbound token fails as unregistered, a value binding gives its value, a factory binding an object of the factory, a lazy wrapper a handle over its forward reference; a class with required parameters and an arrow function fail; a successful class gives an object of that class; nullish and unrecognized identifiers fail with their errors |
| Container.DependencyContainer.UseProxy | src/lazy.ts:26-32 | the first use of a handle over an arrow function gives what the function's result yields in a new top-level resolution (a newly built object's fields holding what their identifiers yield), and memoises it: the handle is initialised exactly when a use succeeds, and later uses return the same instance; a class as forward reference fails as called without `new`; a non-function fails |
| Container.DependencyContainer.ResolveDelegate | src/container.ts:93-124 | the result is what the identifier yields on the chain; a bound token's success is recorded in the context; a factory gives a new object, a lazy wrapper a new unused handle; for a class, the cache outcome of `ConstructorOutcome`, and a newly built object's fields hold what their identifiers yield; caches only grow |
| Container.DependencyContainer.ResolveConstructorDelegate | src/container.ts:134-164 | the result is what the class yields on the chain (a class on the chain is a circular dependency with the printed chain); the cached singleton or the context's resolution-scoped instance is reused, or a new object is built whose fields hold what their identifiers yield, recorded in the context and, for a singleton, cached |
| Container.DependencyContainer.ResolveLazy | src/container.ts:107-116 | a lazy wrapper yields a new, unused handle over its forward reference, which is not called; the handle is recorded in the context under the wrapper, and the caches keep their invariants |
| Container.DependencyContainer.BuildAndRecord | src/container.ts:156-163 | with the class on the chain and no cached instance, the result is what the class yields; a success is a new object of the class whose fields hold what their identifiers yield, recorded in the context and, for a singleton, cached; otherwise the class stays out of the singleton cache |
| Container.DependencyContainer.ResolveConstructor | src/container.ts:166-182 | a class with required parameters fails, and so does an arrow function; a class without dependencies succeeds; a failure is the failure of the first failing dependency, every earlier one having succeeded; a success is a new object of the class whose fields are exactly the declared ones, each holding what its identifier yields |
| Container.DependencyContainer.InjectFields | src/container.ts:176-181 | the declared fields are set in order, each to what its identifier yields in a fork; the first failure ends the loop and is the class's first failing dependency, every earlier one having succeeded; no dependencies means success; on success the object's fields are exactly the declared ones, each holding what its identifier yields, and resolution-scoped instances are shared |
| Container.DependencyContainer.FirstFailure | src/container.ts:176-180 | a dependency that fails after every earlier declared field has been set to what its identifier yields is the class's first failing dependency |
| Container.DependencyContainer.BuiltYields | src/container.ts:156-163 | what building the class gives with the class pushed on the chain (a refusal for required parameters or an arrow function, the first failing dependency, or an object whose fields hold what their identifiers yield) is what the class yields before the push |
| Container.DependencyContainer.InjectField | src/container.ts:176-180 | one dependency resolved in a fork: the result is what its identifier yields on the chain; on success the field is set to the result and nothing else changes; on failure the object is left unchanged |
| Container.DependencyContainer.ResolveProviderDelegate | src/container.ts:184-190 | the result is what the bound token yields on the chain (a token on the chain is a circular dependency); a success is recorded in the context under the token; a factory binding gives a new object |
| Container.DependencyContainer.ProvideAndRecord | src/container.ts:187-189 | with the token on the chain, the result is what the token yields; a factory binding gives a new object; every success is recorded in the context under the token |
| Container.DependencyContainer.ResolveProvider | src/container.ts:192-210 | a value binding yields its value, a factory binding a new object of the factory; class and redirect bindings give what their target yields on the chain; anything else fails as an unknown provider |
| Scenarios.HasAnswersForTokensOnly | src/__tests__/container.test.ts:7-15 | `has` is false for a class before and after binding it under a token, and true for the token only after binding |
| Scenarios.ResetDropsBindings | src/__tests__/container.test.ts:16-28 | after `reset`, a bound token is no longer bound |
| Scenarios.ResetForgetsSingletons | src/__tests__/container.test.ts:16-28 | after `reset`, a singleton class resolves to a new object |
| Scenarios.SingletonResolvesToOneObject | src/__tests__/decorator.test.ts:195-204 | three resolutions of a singleton class yield one object |
| Scenarios.TransientResolvesToNewObjects | src/__tests__/decorator.test.ts:205-215 | three resolutions of a transient class yield three distinct objects |
| Scenarios.LazyClassFailsOnFirstUse | src/__tests__/error.test.ts:108-127 | the wrapper `lazy(Bar)`, resolved directly rather than through a field, gives a handle whose first use fails because the class is called without `new` |
| Scenarios.LazyFailsWhenUsed | src/__tests__/error.test.ts:129-141 | the wrapper `lazy(() => Bar)`, with `Bar` needing a constructor argument and resolved directly rather than through a field, gives a handle whose first use fails with the required-parameters error |
| Scenarios.LazyFieldOutcome | src/__tests__/error.test.ts:118-124 | a class whose one dependency is a lazy wrapper resolves to an object of the class |
| Scenarios.LazyFieldHandle | src/__tests__/error.test.ts:118-124 | that object's field holds a handle over the wrapper's forward reference |
| Scenarios.LazyFieldResolves | src/__tests__/error.test.ts:118-124 | `resolve(Foo)` with `@inject(lazy(Bar)) bar` succeeds, and `bar` is a handle over `Bar` |
| Scenarios.LazyTokenUse | src/lazy.ts:26-32 | the first use of a handle over `() => 'a'`, with `'a'` bound to `{useValue: 1}`, gives 1 |
| Scenarios.LazyResolvesOnce | src/lazy.ts:26-32 | two uses of one handle over a transient class see the same object, and a direct resolution builds another one |
| Scenarios.SiblingsOutcome | src/__tests__/decorator.test.ts:226-244 | a transient class whose two fields inject one resolution-scoped class resolves to an object of that class |
| Scenarios.SiblingsShare | src/__tests__/decorator.test.ts:226-244 | the two fields of such an object hold the same instance |
| Scenarios.ResolutionScopedIsShared | src/__tests__/decorator.test.ts:226-244 | resolving that class succeeds, its two fields are set and hold the same instance, and a second resolution succeeds with a different object |
| Scenarios.ClassBindingOutcome | src/__tests__/provider.test.ts:35-41 | a token bound to a class without dependencies resolves to an object of the class |
| Scenarios.ClassBindingResolves | src/__tests__/provider.test.ts:35-41 | after `register('foo', Foo)`, both `resolve(Foo)` and `resolve('foo')` give objects of `Foo` |
| Scenarios.RedirectOutcome | src/__tests__/provider.test.ts:54-61 | with `'a'` redirected to `'b'` and `'b'` bound to `Foo`, resolving `'a'` gives an object of `Foo` |
| Scenarios.RedirectResolvesTarget | src/__tests__/provider.test.ts:54-61 | both registrations pass, the first before its target is bound, and `resolve('a')` gives an object of `Foo` |
| Scenarios.RedirectToValueOutcome | src/container.ts:199-207 | a token redirected to a token bound to the value 1 yields 1 |
| Scenarios.RedirectToValue | src/container.ts:199-207 | `'b'` redirected to `'a'`, with `'a'` bound to `{useValue: 1}`, resolves to 1 |
| Scenarios.InjectedFieldOutcome | src/__tests__/decorator.test.ts:52-60 | a class whose field injects a token bound to a value resolves to an object of the class |
| Scenarios.InjectedFieldValue | src/__tests__/decorator.test.ts:52-60 | that object's field holds the bound value |
| Scenarios.InjectedFieldHoldsValue | src/__tests__/decorator.test.ts:52-60 | `resolve(Foo)` gives an object of `Foo` whose field `a` is 1 |
| Scenarios.CycleCannotSucceed | src/__tests__/index.test.ts:85-93 | with `'b'` bound to `A`, `'b'` cannot succeed on the chain `A` |
| Scenarios.CycleChainNames | src/context.ts:20-22 | the chain `A`, then `'b'`, prints as `A -> String(b)` |
| Scenarios.CycleAtToken | src/__tests__/index.test.ts:85-93 | resolving `'b'` on the chain `A` fails with the circular dependency `A -> String(b)` meeting `A` |
| Scenarios.ClassProviderCycleOutcome | src/__tests__/index.test.ts:85-93 | resolving `A`, whose field injects `'b'`, fails with that circular dependency |
| Scenarios.ClassProviderCycle | src/__tests__/error.test.ts:91-101 | `resolve(A)` fails with the message `Discovery of circular dependencies: A -> String(b) -> A` |
| Scenarios.NestedNonInjectableOutcome | src/__tests__/error.test.ts:8-19 | a class injecting a class with a required constructor parameter fails with the latter's error |
| Scenarios.NestedNonInjectable | src/__tests__/error.test.ts:8-19 | `resolve(A02)` fails because `A01` has a required parameter |
| Scenarios.UnregisteredDependencyOutcome | src/__tests__/error.test.ts:41-47 | a class injecting the unbound token `'1'` fails as unregistered `String(1)` |
| Scenarios.UnregisteredDependency | src/__tests__/error.test.ts:41-47 | `resolve(Foo)` fails with the unregistered-token error for `String(1)` |
| Scenarios.NestedOutcome | src/__tests__/index.test.ts:23-37 | the chain `A -> B -> C` of transient classes resolves to an object of `A` |
| Scenarios.NestedField | src/__tests__/index.test.ts:23-37 | the field `b` of that object holds an object of `B` |
| Scenarios.NestedDependencies | src/__tests__/index.test.ts:23-37 | `resolve(A)` gives an object of `A` whose field `b` is an object of `B` |

## Left out

- The `Proxy` traps of a lazy handle (`src/lazy.ts:33-40`) are not modelled. `UseProxy` stands for the trap that fires first; the model does not forward each trap to `Reflect`.
- Container.DependencyContainer.Resolve: the identifier must not be a lazy handle itself (`!id.Proxy?`). In JavaScript such a handle forwards `typeof` and the resolution to its target, which would need the traps.
- Container.DependencyContainer.UseProxy: the forward reference must not be an arrow function that returns a lazy handle, for the same reason.
- Scenarios.LazyClassFailsOnFirstUse: the tests use the handle set on a field of `Foo` (`src/__tests__/error.test.ts:124-126`, `src/__tests__/error.test.ts:137-140`). The contracts say that the field holds a handle over the forward reference (`Scenarios.LazyFieldResolves`), but not that this handle is still unused, so its first use is shown on a handle from resolving the wrapper directly. The same holds for `Scenarios.LazyFailsWhenUsed`.
- Factory functions run user code. A factory call is modelled as returning a new object built by the factory. A factory that reads the container, resolves re-entrantly or returns an existing value is outside the model. For the same reason, a factory used as a forward reference returns a plain object, which `resolve` rejects as unrecognized.
- Forward references and classes are opaque: the model does not run constructor bodies, class field initialisers or arbitrary callbacks. `Function.length` is a number carried by each function value.
- Decorator-environment checks are not modelled: the `Symbol.metadata` polyfill and the test for stage-3 decorator support. Each class's descriptor is taken as given: a map from class to the descriptor its decorators left behind.
- Field setters (`setter.call`) are modelled as updates of the object's field map. Private fields and accessors are not told apart from public fields.
- A provider object is seen only through its four properties `useClass`, `useValue`, `useToken` and `useFactory` (a `Literal`). Prototype lookups and getters on provider objects are not modelled.
- Chain entries are copied by value when a context forks; JavaScript's `slice` copies references to the same entry objects. The difference is unobservable: `endResolveServiceIdentifier` could only match a shared entry that is still in progress, and the circular-dependency check fails before that happens.
- Container.DependencyContainer.Resolve: `Yields` constrains a successful result only at the top level. It says nothing about the fields of objects nested deeper: those fields are heap state of other objects, which the contracts do not follow. So a field's value is tied to its dependency only one level down. Nested checks such as `instance.b.c` (`src/__tests__/index.test.ts:36`, `src/__tests__/index.test.ts:107-109`) are not restated.
- Container.DependencyContainer.Resolve: a class reused from a cache succeeds whatever its dependencies would now give. A singleton built before a re-registration hides the new bindings, so success is not tied to the dependencies for reused instances.
- Scenarios.ResolutionScopedIsShared: the test shares a resolution-scoped class between a field of `A` and a field of `A`'s dependency `B` (`src/__tests__/decorator.test.ts:243`). The model states sharing among the fields of one object, two sibling fields here, because sharing across nesting levels needs the nested fields above.
- Class descriptors are found through the prototype chain in the source (`src/metadata.ts:21`, `src/metadata.ts:30`), so a subclass without decorators of its own sees its parent's descriptor. The model gives each class its own descriptor, or the default one.
- A decorated subclass finds its parent's descriptor through the prototype chain and so does not initialise one of its own. `@inject` and `@injectable` then change the parent's descriptor in place (`src/decorators/inject.ts:49-56`, `src/decorators/injectable.ts:24`), and the parent sees the change. The model updates one class's descriptor as a value and does not model this sharing.
- Field names are strings in the model. The source also accepts symbol-keyed fields (`src/metadata.ts:6`), which behave the same apart from their names.
- The exported global `container` (`src/container.ts:213`) is a single instance of the class and is not modelled separately.
- `src/index.ts` and `src/lifecycle.ts` are re-exports and an enum (`Lifecycle`, modelled as a datatype); build and test tooling files are not part of this model.
