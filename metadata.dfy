/**
 * The per-class dependency descriptor: a lifecycle and an ordered list of field injections.
 * Decorators build it in the class's metadata object; the engine only reads it.
 */
module Metadata {
  import opened Values

  datatype Lifecycle = Singleton | Transient | Resolution

  /** One field injection: the field to set and the identifier whose instance goes there. */
  datatype Dependence = Dependence(field: FieldKey, serviceIdentifier: Value)

  datatype ServiceMetadata = ServiceMetadata(lifecycle: Lifecycle, dependencies: seq<Dependence>)

  function DefaultMetadata(): ServiceMetadata
  {
    ServiceMetadata(Transient, [])
  }

  /**
   * `getClassMetadata`: the descriptor stored for a class, or the transient, dependency-free default
   * when the class carries none (a function that is no class never carries one).
   */
  function GetClassMetadata(descriptors: map<ClassId, ServiceMetadata>, target: Value): (m: ServiceMetadata)
    ensures target.Class? && target.cid in descriptors ==> m == descriptors[target.cid]
    ensures !(target.Class? && target.cid in descriptors) ==> m.lifecycle == Transient && m.dependencies == []
  {
    if target.Class? && target.cid in descriptors then descriptors[target.cid] else DefaultMetadata()
  }

  /** At most one injection per field: what the `@inject` decorator maintains. */
  ghost predicate UniqueFields(deps: seq<Dependence>)
  {
    forall i, j :: 0 <= i < j < |deps| ==> deps[i].field != deps[j].field
  }

  /** The kinds of class element a decorator can be applied to. */
  datatype ElementKind = ClassElement | MethodElement | GetterElement | SetterElement | FieldElement | AccessorElement

  /** The `kind` string a decorator context reports. */
  function KindName(k: ElementKind): string
  {
    match k
    case ClassElement => "class"
    case MethodElement => "method"
    case GetterElement => "getter"
    case SetterElement => "setter"
    case FieldElement => "field"
    case AccessorElement => "accessor"
  }

  /** The slot of a class's metadata object where the descriptor lives, shared by all its decorators. */
  class MetadataSlot {
    var descriptor: Option<ServiceMetadata>

    constructor ()
      ensures descriptor == None
    {
      descriptor := None;
    }
  }

  /** What a decorator receives: the element's kind, name and staticness, and the class's metadata. */
  datatype DecoratorContext = DecoratorContext(kind: ElementKind, name: FieldKey, isStatic: bool, metadata: MetadataSlot)

  /** `checkAndInitContextMetadata`: install the default descriptor unless one is already there. */
  method CheckAndInitContextMetadata(context: DecoratorContext)
    modifies context.metadata
    ensures old(context.metadata.descriptor).None? ==> context.metadata.descriptor == Some(DefaultMetadata())
    ensures old(context.metadata.descriptor).Some? ==> context.metadata.descriptor == old(context.metadata.descriptor)
  {
    if context.metadata.descriptor.None? {
      context.metadata.descriptor := Some(DefaultMetadata());
    }
  }

  /** The descriptor after `checkAndInitContextMetadata`, as a value. */
  function Initialised(d: Option<ServiceMetadata>): (m: ServiceMetadata)
    ensures d.Some? ==> m == d.value
    ensures d.None? ==> m.lifecycle == Transient && m.dependencies == []
  {
    if d.Some? then d.value else DefaultMetadata()
  }

  /** Initialising twice is initialising once: an existing descriptor is never reset. */
  lemma InitialiseIdempotent(d: Option<ServiceMetadata>)
    ensures Initialised(Some(Initialised(d))) == Initialised(d)
  {
  }
}
