/** The `@injectable(lifecycle)` class decorator and `@singleton()`, its singleton form. */
module Injectable {
  import opened Errors
  import opened Values
  import opened Metadata
  import opened Inject

  /**
   * `injectable(lifecycle)` applied to a class element: reject anything but a class; otherwise
   * initialise the descriptor and overwrite its lifecycle, leaving the dependency list alone.
   */
  method Injectable(context: DecoratorContext, lifecycle: Lifecycle := Transient) returns (r: Outcome)
    modifies context.metadata
    ensures context.kind != ClassElement ==>
      r == Fail(OnlyClass) && context.metadata.descriptor == old(context.metadata.descriptor)
    ensures context.kind == ClassElement ==>
      r == Pass && context.metadata.descriptor == Some(Initialised(old(context.metadata.descriptor)).(lifecycle := lifecycle))
    ensures r.Pass? ==> context.metadata.descriptor.value.dependencies == Initialised(old(context.metadata.descriptor)).dependencies
  {
    if context.kind != ClassElement {
      return Fail(OnlyClass);
    }
    CheckAndInitContextMetadata(context);
    var m := context.metadata.descriptor.value;
    context.metadata.descriptor := Some(m.(lifecycle := lifecycle));
    r := Pass;
  }

  /** `singleton()`: `injectable(Lifecycle.singleton)`. */
  method SingletonDecorator(context: DecoratorContext) returns (r: Outcome)
    modifies context.metadata
    ensures context.kind != ClassElement ==>
      r == Fail(OnlyClass) && context.metadata.descriptor == old(context.metadata.descriptor)
    ensures context.kind == ClassElement ==>
      r == Pass && context.metadata.descriptor == Some(Initialised(old(context.metadata.descriptor)).(lifecycle := Singleton))
  {
    r := Injectable(context, Singleton);
  }

  /**
   * `@singleton() @injectable() class Foo { @inject('a') @inject('b') c }`: decorators run innermost
   * first, field decorators before class decorators, so the class ends up singleton with the single
   * field `c` bound to 'a'.
   */
  method StackedDecorators() returns (descriptor: Option<ServiceMetadata>, outcomes: seq<Outcome>)
    ensures descriptor == Some(ServiceMetadata(Singleton, [Dependence("c", Str("a"))]))
    ensures outcomes == [Pass, Pass, Pass, Pass]
  {
    var slot := new MetadataSlot();
    var field := DecoratorContext(FieldElement, "c", false, slot);
    var cls := DecoratorContext(ClassElement, "Foo", false, slot);
    var r1 := Inject.Inject(Str("b"), field);
    var r2 := Inject.Inject(Str("a"), field);
    var r3 := Injectable(cls);
    var r4 := SingletonDecorator(cls);
    LastApplicationWins([], "c", Str("b"), Str("a"));
    assert AddDependence([], "c", Str("a")) == [Dependence("c", Str("a"))];
    descriptor := slot.descriptor;
    outcomes := [r1, r2, r3, r4];
  }
}
