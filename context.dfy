/**
 * The state of one top-level resolution: the dependency chain of the current branch (used to
 * detect cycles) and the instance cache shared by every branch forked from the same root.
 */
module Context {
  import opened Values
  import opened Token
  import opened Identifier

  /** Chain entries for normal tokens are tagged `provider`; every other identifier is tagged `class`. */
  datatype Kind = ClassKind | ProviderKind

  datatype ChainEntry = ChainEntry(serviceIdentifier: Value, done: bool, kind: Kind)

  function KindOf(id: Value): Kind
  {
    if IsNormalToken(id) then ProviderKind else ClassKind
  }

  /** The entry stands for `id` with `id`'s kind and has not been finished. */
  predicate InProgressFor(e: ChainEntry, id: Value)
  {
    e.serviceIdentifier == id && !e.done && e.kind == KindOf(id)
  }

  /** The `some(...)` scan of `hasCircularDependency`, entry by entry. */
  function SomeInProgress(chain: seq<ChainEntry>, id: Value): (b: bool)
    ensures b <==> exists i :: 0 <= i < |chain| && InProgressFor(chain[i], id)
    decreases |chain|
  {
    if |chain| == 0 then false
    else if InProgressFor(chain[0], id) then true
    else
      var rest := SomeInProgress(chain[1..], id);
      assert forall i :: 1 <= i < |chain| ==> chain[i] == chain[1..][i - 1];
      rest
  }

  predicate SameEntry(e: ChainEntry, id: Value, kind: Kind)
  {
    e.serviceIdentifier == id && e.kind == kind
  }

  /** The `find(...)` of `endResolveServiceIdentifier`: the first entry for `id` with `kind`, done or not. */
  function FindEntry(chain: seq<ChainEntry>, id: Value, kind: Kind): (r: Option<nat>)
    ensures r.Some? ==> r.value < |chain| && SameEntry(chain[r.value], id, kind)
    ensures r.Some? ==> forall j :: 0 <= j < r.value ==> !SameEntry(chain[j], id, kind)
    ensures r.None? ==> forall j :: 0 <= j < |chain| ==> !SameEntry(chain[j], id, kind)
    decreases |chain|
  {
    if |chain| == 0 then None
    else if SameEntry(chain[0], id, kind) then Some(0)
    else
      var rest := FindEntry(chain[1..], id, kind);
      assert forall j :: 1 <= j < |chain| ==> chain[j] == chain[1..][j - 1];
      match rest
      case None => None
      case Some(j) => Some(j + 1)
  }

  /** The identifiers on a chain, in order. */
  function Ids(chain: seq<ChainEntry>): (r: seq<Value>)
    ensures |r| == |chain| && forall i :: 0 <= i < |chain| ==> r[i] == chain[i].serviceIdentifier
  {
    seq(|chain|, i requires 0 <= i < |chain| => chain[i].serviceIdentifier)
  }

  function ChainIds(chain: seq<ChainEntry>): set<Value>
  {
    set i | 0 <= i < |chain| :: chain[i].serviceIdentifier
  }

  predicate PrintableChain(chain: seq<ChainEntry>)
  {
    forall i :: 0 <= i < |chain| ==> Printable(chain[i].serviceIdentifier)
  }

  /** `getDependencyChain`: the names of the chain's identifiers joined by " -> ". */
  function ChainNames(chain: seq<ChainEntry>): string
    requires PrintableChain(chain)
  {
    JoinArrows(Names(Ids(chain)))
  }

  /** One more entry prints as one more " -> name" at the end of the chain. */
  lemma {:induction false} ChainNamesSnoc(chain: seq<ChainEntry>, e: ChainEntry)
    requires PrintableChain(chain) && Printable(e.serviceIdentifier)
    ensures PrintableChain(chain + [e])
    ensures ChainNames(chain + [e]) ==
      if chain == [] then ServiceIdentifierName(e.serviceIdentifier)
      else ChainNames(chain) + " -> " + ServiceIdentifierName(e.serviceIdentifier)
  {
    assert PrintableChain(chain + [e]) by {
      forall i | 0 <= i < |chain + [e]| ensures Printable((chain + [e])[i].serviceIdentifier) {
        if i < |chain| { assert (chain + [e])[i] == chain[i]; }
      }
    }
    assert Names(Ids(chain + [e])) == Names(Ids(chain)) + [ServiceIdentifierName(e.serviceIdentifier)];
    JoinArrowsSnoc(Names(Ids(chain)), ServiceIdentifierName(e.serviceIdentifier));
  }

  /** `instances.get(token) || null` */
  function Lookup(entries: map<Value, Value>, token: Value): Value
  {
    if token in entries && Truthy(entries[token]) then entries[token] else Null
  }

  /** A stored truthy instance is found again; a stored falsy one reads back as `null`. */
  lemma StoredInstanceFound(entries: map<Value, Value>, token: Value, instance: Value)
    ensures Truthy(instance) ==> Lookup(entries[token := instance], token) == instance
    ensures !Truthy(instance) ==> Lookup(entries[token := instance], token) == Null
    ensures token !in entries ==> Lookup(entries, token) == Null
  {
  }

  /** A freshly started entry makes a second start of the same identifier a cycle. */
  lemma StartedIsInProgress(chain: seq<ChainEntry>, id: Value)
    ensures SomeInProgress(chain + [ChainEntry(id, false, KindOf(id))], id)
  {
    assert InProgressFor((chain + [ChainEntry(id, false, KindOf(id))])[|chain|], id);
  }

  /** The instance map of one resolution, shared by reference among all forks of one root context. */
  class InstanceCache {
    var entries: map<Value, Value>

    constructor ()
      ensures entries == map[]
    {
      entries := map[];
    }
  }

  class ResolutionContext {
    var dependencyChain: seq<ChainEntry>
    const instances: InstanceCache

    constructor ()
      ensures dependencyChain == [] && fresh(instances) && instances.entries == map[]
    {
      dependencyChain := [];
      instances := new InstanceCache();
    }

    /** A context over a given chain and an existing cache: the object `fork` builds. */
    constructor Branch(chain: seq<ChainEntry>, shared: InstanceCache)
      ensures dependencyChain == chain && instances == shared
    {
      dependencyChain := chain;
      instances := shared;
    }

    /** `hasCircularDependency`: some entry is the same identifier, with its kind, not yet done. */
    predicate HasCircularDependency(id: Value)
      reads this
    {
      if |dependencyChain| == 0 then false else SomeInProgress(dependencyChain, id)
    }

    function GetDependencyChain(): string
      reads this
      requires PrintableChain(dependencyChain)
    {
      ChainNames(dependencyChain)
    }

    predicate HasInstance(token: Value)
      reads this, instances
    {
      token in instances.entries
    }

    function GetInstance(token: Value): Value
      reads this, instances
    {
      Lookup(instances.entries, token)
    }

    /** `startResolveServiceIdentifier`: push one unfinished entry tagged with the identifier's kind. */
    method StartResolveServiceIdentifier(id: Value)
      modifies this`dependencyChain
      ensures dependencyChain == old(dependencyChain) + [ChainEntry(id, false, KindOf(id))]
      ensures HasCircularDependency(id)
    {
      StartedIsInProgress(dependencyChain, id);
      dependencyChain := dependencyChain + [ChainEntry(id, false, KindOf(id))];
    }

    /**
     * `endResolveServiceIdentifier`: mark the first entry for the identifier (same kind) done, or
     * push a done entry when there is none; then record the instance in the shared cache.
     */
    method EndResolveServiceIdentifier(id: Value, instance: Value)
      modifies this`dependencyChain, instances
      ensures FindEntry(old(dependencyChain), id, KindOf(id)).Some? ==>
        var i := FindEntry(old(dependencyChain), id, KindOf(id)).value;
        dependencyChain == old(dependencyChain)[i := old(dependencyChain)[i].(done := true)]
      ensures FindEntry(old(dependencyChain), id, KindOf(id)).None? ==>
        dependencyChain == old(dependencyChain) + [ChainEntry(id, true, KindOf(id))]
      ensures instances.entries == old(instances.entries)[id := instance]
      ensures HasInstance(id) && (Truthy(instance) ==> GetInstance(id) == instance)
    {
      var kind := KindOf(id);
      var found := FindEntry(dependencyChain, id, kind);
      if found.Some? {
        var i := found.value;
        dependencyChain := dependencyChain[i := dependencyChain[i].(done := true)];
      } else {
        dependencyChain := dependencyChain + [ChainEntry(id, true, kind)];
      }
      instances.entries := instances.entries[id := instance];
    }

    /** `fork`: a new context with a copy of the chain and the very same instance cache. */
    method Fork() returns (context: ResolutionContext)
      ensures fresh(context)
      ensures context.dependencyChain == dependencyChain && context.instances == instances
    {
      context := new ResolutionContext.Branch(dependencyChain, instances);
    }
  }

  /**
   * Two forks of one parent: an entry pushed in one is invisible to the parent and the sibling,
   * while the instance it records is visible through the sibling.
   */
  method ForkSharesCacheNotChain(id: Value, instance: Value)
    returns (childCircular: bool, siblingCircular: bool, parentLength: nat, siblingSees: Value)
    ensures childCircular && !siblingCircular && parentLength == 0
    ensures Truthy(instance) ==> siblingSees == instance
  {
    var parent := new ResolutionContext();
    var child := parent.Fork();
    var sibling := parent.Fork();
    child.StartResolveServiceIdentifier(id);
    childCircular := child.HasCircularDependency(id);
    siblingCircular := sibling.HasCircularDependency(id);
    child.EndResolveServiceIdentifier(id, instance);
    parentLength := |parent.dependencyChain|;
    siblingSees := sibling.GetInstance(id);
  }
}
