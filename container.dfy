/**
 * The dependency container: the registry of token bindings, the singleton cache and the
 * resolution engine that builds instances, plus the first use of a lazy handle.
 */
module Container {
  import opened Errors
  import opened Values
  import opened Token
  import opened Identifier
  import opened Provider
  import opened Metadata
  import opened Lazy
  import opened Context

  function Elems(s: seq<Value>): set<Value>
  {
    set x | x in s
  }

  predicate AllNormal(s: seq<Value>)
  {
    forall i :: 0 <= i < |s| ==> IsNormalToken(s[i])
  }

  /** The printed form of a walk: every token's name, joined by " -> ". */
  function PathNames(path: seq<Value>): string
    requires AllNormal(path)
  {
    JoinArrows(Names(path))
  }

  /** Where a registered redirect (`useToken`) binding points, if `t` has one. */
  function RedirectOf(registry: map<Value, Value>, t: Value): (next: Option<Value>)
    ensures next.Some? ==> IsNormalToken(next.value)
  {
    if t in registry && IsTokenProvider(registry[t]) then Some(UseToken(registry[t])) else None
  }

  /** Every token some registered redirect points to. */
  function RedirectTargets(registry: map<Value, Value>): set<Value>
  {
    set t | t in registry && IsTokenProvider(registry[t]) :: UseToken(registry[t])
  }

  datatype WalkOutcome = Ends(path: seq<Value>) | Cycle(path: seq<Value>)

  /**
   * The walk `register` performs before binding a redirect: starting from the tokens already on
   * `paths`, visit `current`, then follow registered redirects, until a token repeats (a cycle) or
   * a token has no redirect binding. The path includes the token that stopped the walk.
   */
  function RedirectWalk(registry: map<Value, Value>, paths: seq<Value>, current: Value): (w: WalkOutcome)
    ensures AllNormal(paths) && IsNormalToken(current) ==> AllNormal(w.path)
    decreases RedirectTargets(registry) + {current} - Elems(paths)
  {
    if current in paths then Cycle(paths + [current])
    else match RedirectOf(registry, current)
      case None => Ends(paths + [current])
      case Some(next) =>
        assert next in RedirectTargets(registry);
        assert Elems(paths + [current]) == Elems(paths) + {current};
        RedirectWalk(registry, paths + [current], next)
  }

  predicate Distinct(s: seq<Value>)
  {
    forall i, j :: 0 <= i < j < |s| ==> s[i] != s[j]
  }

  /** A walk extends its start: `paths`, then `current`, then the tokens it went on to visit. */
  lemma {:induction false} WalkExtends(registry: map<Value, Value>, paths: seq<Value>, current: Value)
    ensures var w := RedirectWalk(registry, paths, current);
      |w.path| > |paths| && w.path[..|paths|] == paths && w.path[|paths|] == current
    decreases RedirectTargets(registry) + {current} - Elems(paths)
  {
    if current !in paths {
      match RedirectOf(registry, current)
      case None =>
      case Some(next) =>
        var p2 := paths + [current];
        assert next in RedirectTargets(registry);
        assert Elems(p2) == Elems(paths) + {current};
        WalkExtends(registry, p2, next);
        var w := RedirectWalk(registry, p2, next);
        assert w.path[..|paths|] == w.path[..|p2|][..|paths|];
    }
  }

  /** Every step of a walk after its start goes through a registered redirect binding. */
  lemma {:induction false} WalkFollowsRedirects(registry: map<Value, Value>, paths: seq<Value>, current: Value)
    ensures var w := RedirectWalk(registry, paths, current);
      forall i :: |paths| <= i < |w.path| - 1 ==> RedirectOf(registry, w.path[i]) == Some(w.path[i + 1])
    decreases RedirectTargets(registry) + {current} - Elems(paths)
  {
    if current !in paths {
      match RedirectOf(registry, current)
      case None =>
      case Some(next) =>
        var p2 := paths + [current];
        assert next in RedirectTargets(registry);
        assert Elems(p2) == Elems(paths) + {current};
        WalkFollowsRedirects(registry, p2, next);
        WalkExtends(registry, p2, next);
    }
  }

  /**
   * From a duplicate-free start, the tokens before the last are distinct, the walk is a cycle
   * exactly when its last token repeats an earlier one, and a walk that ends stops at a token
   * without a redirect binding.
   */
  lemma {:induction false} WalkStopsAtRepeat(registry: map<Value, Value>, paths: seq<Value>, current: Value)
    requires Distinct(paths)
    ensures var w := RedirectWalk(registry, paths, current);
      var n := |w.path|;
      n > 0 && Distinct(w.path[..n - 1])
      && (w.Cycle? <==> w.path[n - 1] in w.path[..n - 1])
      && (w.Ends? ==> RedirectOf(registry, w.path[n - 1]).None?)
    decreases RedirectTargets(registry) + {current} - Elems(paths)
  {
    var w := RedirectWalk(registry, paths, current);
    if current in paths {
      assert w.path[..|w.path| - 1] == paths;
    } else {
      var p2 := paths + [current];
      match RedirectOf(registry, current)
      case None =>
        assert w.path[..|w.path| - 1] == paths;
      case Some(next) =>
        assert Distinct(p2);
        assert next in RedirectTargets(registry);
        assert Elems(p2) == Elems(paths) + {current};
        WalkStopsAtRepeat(registry, p2, next);
    }
  }

  /** A redirect back to the token being registered is a cycle of length two. */
  lemma SelfRedirectIsCycle(registry: map<Value, Value>, token: Value)
    ensures RedirectWalk(registry, [token], token) == Cycle([token, token])
  {
  }

  /** The walk never consults the bindings of tokens already on its path. */
  lemma {:induction false} WalkIgnoresVisited(r1: map<Value, Value>, r2: map<Value, Value>, paths: seq<Value>, current: Value)
    requires forall t :: t !in paths ==> RedirectOf(r1, t) == RedirectOf(r2, t)
    ensures RedirectWalk(r1, paths, current) == RedirectWalk(r2, paths, current)
    decreases RedirectTargets(r1) + {current} - Elems(paths)
  {
    if current !in paths {
      match RedirectOf(r1, current)
      case None =>
      case Some(next) =>
        assert next in RedirectTargets(r1);
        assert Elems(paths + [current]) == Elems(paths) + {current};
        WalkIgnoresVisited(r1, r2, paths + [current], next);
    }
  }

  /** A redirect whose walk ends can be bound: the walk from the token in the new registry ends too. */
  lemma BoundRedirectTerminates(registry: map<Value, Value>, token: Value, p: Value)
    requires IsTokenProvider(p)
    requires RedirectWalk(registry, [token], UseToken(p)).Ends?
    ensures RedirectWalk(registry[token := p], [], token) == RedirectWalk(registry, [token], UseToken(p))
  {
    var r2 := registry[token := p];
    assert RedirectOf(r2, token) == Some(UseToken(p));
    assert [] + [token] == [token];
    WalkIgnoresVisited(r2, registry, [token], UseToken(p));
  }

  /** Joining four names puts a separator between each neighbouring pair. */
  lemma JoinFour(n0: string, n1: string, n2: string, n3: string)
    ensures JoinArrows([n0, n1, n2, n3]) == n0 + " -> " + n1 + " -> " + n2 + " -> " + n3
  {
    assert [n0, n1, n2, n3][1..] == [n1, n2, n3] && [n1, n2, n3][1..] == [n2, n3] && [n2, n3][1..] == [n3];
    assert JoinArrows([n3]) == n3;
    assert JoinArrows([n2, n3]) == n2 + " -> " + n3;
    assert JoinArrows([n1, n2, n3]) == n1 + " -> " + n2 + " -> " + n3;
  }

  /** The names printed for the identifiers on the cycle of the registration-cycle example. */
  lemma CycleExampleNames()
    ensures Names([Sym(2, "c"), Str("a"), TokenObj(1, "b"), Sym(2, "c")]) == ["Symbol(c)", "String(a)", "Token(b)", "Symbol(c)"]
  {
    assert ServiceIdentifierName(Sym(2, "c")) == "Symbol(c)";
    assert ServiceIdentifierName(Str("a")) == "String(a)";
    assert ServiceIdentifierName(TokenObj(1, "b")) == "Token(b)";
  }

  /**
   * Those names joined into the printed cycle. Evaluating the literal concatenation is kept out of
   * `RegistrationCycleMessage`, and done one join at a time, so that each proof stays small.
   */
  lemma CycleExampleJoin()
    ensures JoinArrows(["Symbol(c)", "String(a)", "Token(b)", "Symbol(c)"]) == "Symbol(c) -> String(a) -> Token(b) -> Symbol(c)"
  {
    JoinFour("Symbol(c)", "String(a)", "Token(b)", "Symbol(c)");
    assert "Symbol(c)" + " -> " == "Symbol(c) -> ";
    assert "Symbol(c) -> " + "String(a)" == "Symbol(c) -> String(a)";
    assert "Symbol(c) -> String(a)" + " -> " == "Symbol(c) -> String(a) -> ";
    assert "Symbol(c) -> String(a) -> " + "Token(b)" == "Symbol(c) -> String(a) -> Token(b)";
    assert "Symbol(c) -> String(a) -> Token(b)" + " -> " == "Symbol(c) -> String(a) -> Token(b) -> ";
    assert "Symbol(c) -> String(a) -> Token(b) -> " + "Symbol(c)" == "Symbol(c) -> String(a) -> Token(b) -> Symbol(c)";
  }

  /**
   * The registration-cycle example: with 'a' redirected to Token(b) and Token(b) to Symbol(c),
   * binding Symbol(c) to 'a' walks back to Symbol(c).
   */
  lemma RegistrationCycleMessage()
    ensures var a := Str("a");
      var b := TokenObj(1, "b");
      var c := Sym(2, "c");
      var registry := map[a := Literal(Undefined, Undefined, b, Undefined), b := Literal(Undefined, Undefined, c, Undefined)];
      var w := RedirectWalk(registry, [c], a);
      w == Cycle([c, a, b, c]) && PathNames(w.path) == "Symbol(c) -> String(a) -> Token(b) -> Symbol(c)"
  {
    var a := Str("a");
    var b := TokenObj(1, "b");
    var c := Sym(2, "c");
    var registry := map[a := Literal(Undefined, Undefined, b, Undefined), b := Literal(Undefined, Undefined, c, Undefined)];
    assert RedirectOf(registry, a) == Some(b);
    assert RedirectOf(registry, b) == Some(c);
    assert RedirectWalk(registry, [c, a, b], c) == Cycle([c, a, b, c]);
    assert [c, a] + [b] == [c, a, b] && b !in [c, a];
    assert RedirectWalk(registry, [c, a], b) == RedirectWalk(registry, [c, a, b], c);
    assert [c] + [a] == [c, a] && a !in [c];
    assert RedirectWalk(registry, [c], a) == RedirectWalk(registry, [c, a], b);
    CycleExampleNames();
    CycleExampleJoin();
  }

  /** The field names a dependency list sets. */
  function FieldsOf(deps: seq<Dependence>): set<FieldKey>
  {
    set i | 0 <= i < |deps| :: deps[i].field
  }

  /** One more dependence declares one more field. */
  lemma FieldsOfSnoc(deps: seq<Dependence>, i: nat)
    requires i < |deps|
    ensures FieldsOf(deps[..i + 1]) == FieldsOf(deps[..i]) + {deps[i].field}
  {
    assert deps[..i + 1] == deps[..i] + [deps[i]];
    forall f | f in FieldsOf(deps[..i + 1]) ensures f in FieldsOf(deps[..i]) + {deps[i].field} {
      var k :| 0 <= k < i + 1 && deps[..i + 1][k].field == f;
      if k < i { assert deps[..i][k] == deps[k]; }
    }
    forall f | f in FieldsOf(deps[..i]) ensures f in FieldsOf(deps[..i + 1]) {
      var k :| 0 <= k < i && deps[..i][k].field == f;
      assert deps[..i + 1][k] == deps[..i][k];
    }
    assert deps[..i + 1][i] == deps[i];
  }

  /** What `@inject` lets into a descriptor: service identifiers, at most one per field. */
  ghost predicate DescriptorsOk(descriptors: map<ClassId, ServiceMetadata>)
  {
    forall c :: c in descriptors ==>
      UniqueFields(descriptors[c].dependencies) &&
      forall i :: 0 <= i < |descriptors[c].dependencies| ==> IsServiceIdentifier(descriptors[c].dependencies[i].serviceIdentifier)
  }

  /**
   * The identifier a registered binding sends resolution on to, in the order `resolveProvider`
   * tests the shapes: value and factory bindings end there, class and redirect bindings go on.
   */
  function ProviderTarget(p: Value): (next: Option<Value>)
    ensures next.Some? ==> IsConstructor(next.value) || IsNormalToken(next.value)
  {
    if IsValueProvider(p) || IsFactoryProvider(p) then None
    else if IsClassProvider(p) then Some(UseClass(p))
    else if IsTokenProvider(p) then Some(UseToken(p))
    else None
  }

  /**
   * The chain of the branch being resolved: every entry is unfinished and tagged with its
   * identifier's kind, and only tokens and classes are pushed before recursing.
   */
  predicate ChainOk(chain: seq<ChainEntry>)
  {
    forall i :: 0 <= i < |chain| ==>
      !chain[i].done && chain[i].kind == KindOf(chain[i].serviceIdentifier)
      && (IsNormalToken(chain[i].serviceIdentifier) || IsConstructor(chain[i].serviceIdentifier))
  }

  /** On such a chain, the circular-dependency test is plain membership, and the chain prints. */
  lemma CircularIsMembership(chain: seq<ChainEntry>, id: Value)
    requires ChainOk(chain)
    ensures SomeInProgress(chain, id) <==> id in ChainIds(chain)
    ensures PrintableChain(chain)
  {
    if id in ChainIds(chain) {
      var i :| 0 <= i < |chain| && chain[i].serviceIdentifier == id;
      assert InProgressFor(chain[i], id);
    }
  }

  /** Pushing an entry adds exactly its identifier to the chain's identifiers. */
  lemma ChainIdsSnoc(chain: seq<ChainEntry>, e: ChainEntry)
    ensures ChainIds(chain + [e]) == ChainIds(chain) + {e.serviceIdentifier}
  {
    forall x | x in ChainIds(chain + [e]) ensures x in ChainIds(chain) + {e.serviceIdentifier} {
      var i :| 0 <= i < |chain + [e]| && (chain + [e])[i].serviceIdentifier == x;
      if i < |chain| { assert chain[i] == (chain + [e])[i]; }
    }
    forall x | x in ChainIds(chain) ensures x in ChainIds(chain + [e]) {
      var i :| 0 <= i < |chain| && chain[i].serviceIdentifier == x;
      assert (chain + [e])[i] == chain[i];
    }
    assert (chain + [e])[|chain|] == e;
  }

  /** The elements of a finite set, in some order. */
  ghost function SeqOf(s: set<Value>): seq<Value>
    decreases |s|
  {
    if s == {} then [] else var x :| x in s; [x] + SeqOf(s - {x})
  }

  lemma {:induction false} SeqOfHas(s: set<Value>, y: Value)
    ensures y in SeqOf(s) <==> y in s
    decreases |s|
  {
    if s != {} {
      var x :| x in s && SeqOf(s) == [x] + SeqOf(s - {x});
      SeqOfHas(s - {x}, y);
    }
  }

  /** How many positions of `s` hold an identifier outside `visited`. */
  ghost function CountOutside(s: seq<Value>, visited: set<Value>): nat
    decreases |s|
  {
    if |s| == 0 then 0 else (if s[0] in visited then 0 else 1) + CountOutside(s[1..], visited)
  }

  /** Visiting one more identifier never raises the count, and lowers it when the identifier occurs. */
  lemma {:induction false} CountShrinks(s: seq<Value>, visited: set<Value>, x: Value)
    requires x !in visited
    ensures CountOutside(s, visited + {x}) <= CountOutside(s, visited)
    ensures x in s ==> CountOutside(s, visited + {x}) < CountOutside(s, visited)
    decreases |s|
  {
    if |s| > 0 {
      CountShrinks(s[1..], visited, x);
      if x in s && s[0] != x {
        assert x in s[1..];
      }
    }
  }

  /** The termination measure of resolution: the identifiers of the universe not yet on the chain. */
  ghost function Unvisited(U: set<Value>, chain: seq<ChainEntry>): nat
  {
    CountOutside(SeqOf(U), ChainIds(chain))
  }

  /** Pushing an identifier of the universe that is not yet on the chain shrinks the measure. */
  lemma PushShrinks(U: set<Value>, chain: seq<ChainEntry>, e: ChainEntry)
    requires e.serviceIdentifier in U && e.serviceIdentifier !in ChainIds(chain)
    ensures Unvisited(U, chain + [e]) < Unvisited(U, chain)
  {
    ChainIdsSnoc(chain, e);
    SeqOfHas(U, e.serviceIdentifier);
    CountShrinks(SeqOf(U), ChainIds(chain), e.serviceIdentifier);
  }

  /** The chain after pushing an unfinished entry for `id`, as `startResolveServiceIdentifier` does. */
  function Pushed(chain: seq<ChainEntry>, id: Value): seq<ChainEntry>
  {
    chain + [ChainEntry(id, false, KindOf(id))]
  }

  /** Pushing a token or a class of the universe that is not yet on the chain keeps the chain well formed and shrinks the measure. */
  lemma PushedOk(U: set<Value>, chain: seq<ChainEntry>, id: Value)
    requires ChainOk(chain) && id in U && id !in ChainIds(chain) && (IsNormalToken(id) || IsConstructor(id))
    ensures ChainOk(Pushed(chain, id)) && ChainIds(Pushed(chain, id)) == ChainIds(chain) + {id}
    ensures Unvisited(U, Pushed(chain, id)) < Unvisited(U, chain)
  {
    ChainIdsSnoc(chain, ChainEntry(id, false, KindOf(id)));
    PushShrinks(U, chain, ChainEntry(id, false, KindOf(id)));
  }

  /** Maps that agree on every key of the first. */
  predicate SubMap(m0: map<Value, Value>, m1: map<Value, Value>)
  {
    forall k :: k in m0 ==> k in m1 && m1[k] == m0[k]
  }

  /** The keys in `ids` are bound alike, to the same values, in both maps. */
  predicate Untouched(m0: map<Value, Value>, m1: map<Value, Value>, ids: set<Value>)
  {
    forall k :: k in ids ==> (k in m1 <==> k in m0) && (k in m0 ==> m1[k] == m0[k])
  }

  /**
   * Every cached instance of a class is an object built by that class, which therefore takes no
   * required constructor parameters and is not an arrow function.
   */
  predicate ObjectsFor(entries: map<Value, Value>)
  {
    forall k :: k in entries && IsConstructor(k) ==>
      entries[k].Obj? && entries[k].obj.ctor == k && k.length == 0 && !k.Arrow?
  }

  class DependencyContainer {
    /** Bindings added by `register`: normal token to provider. */
    var registry: map<Value, Value>
    /** The singleton cache: class to its one instance. */
    var instances: map<Value, Value>
    /** The descriptor every decorated class carries, by class; absent classes carry none. */
    const descriptors: map<ClassId, ServiceMetadata>

    /** The lifecycle the class's descriptor gives it (transient when it has none). */
    function LifecycleOf(c: Value): Lifecycle
    {
      GetClassMetadata(descriptors, c).lifecycle
    }

    ghost predicate Valid()
      reads this
    {
      DescriptorsOk(descriptors)
      && (forall t :: t in registry ==> IsNormalToken(t) && IsProvider(registry[t]))
      && SingletonsOk(instances)
    }

    /** The singleton cache holds, for singleton classes only, one object of each. */
    ghost predicate SingletonsOk(s: map<Value, Value>)
    {
      forall c :: c in s ==> c.Class? && c.length == 0 && LifecycleOf(c) == Singleton && s[c].Obj? && s[c].obj.ctor == c
    }

    constructor (descriptors: map<ClassId, ServiceMetadata>)
      requires DescriptorsOk(descriptors)
      ensures Valid()
      ensures this.descriptors == descriptors && registry == map[] && instances == map[]
    {
      this.descriptors := descriptors;
      registry := map[];
      instances := map[];
    }

    /** `has`: a truthy identifier with a binding. */
    predicate Has(id: Value)
      reads this
    {
      Truthy(id) && id in registry
    }

    /**
     * `has` answers only for bound tokens: never for a class, even one bound under a token, and
     * never for the empty string, even when '' is bound.
     */
    lemma HasOnlyBoundTokens(id: Value)
      requires Valid()
      ensures Has(id) ==> IsNormalToken(id) && id in registry
      ensures IsConstructor(id) || id.LazyObj? ==> !Has(id)
      ensures !Has(Str(""))
      ensures Truthy(id) && id in registry ==> Has(id)
    {
    }

    /**
     * `register`: turn a bare constructor into `{useClass}`, reject a value of none of the four
     * provider shapes, reject a redirect whose walk closes a cycle, and otherwise bind the token,
     * replacing any earlier binding.
     */
    method Register(token: Value, provider: Value) returns (r: Outcome)
      requires Valid() && IsNormalToken(token)
      modifies this`registry
      ensures Valid()
      ensures !IsProvider(AsProvider(provider)) ==> r == Fail(InvalidProvider)
      ensures IsProvider(AsProvider(provider)) && !IsTokenProvider(AsProvider(provider)) ==> r == Pass
      ensures IsProvider(AsProvider(provider)) && IsTokenProvider(AsProvider(provider)) ==>
        var w := RedirectWalk(old(registry), [token], UseToken(AsProvider(provider)));
        (w.Ends? ==> r == Pass) && (w.Cycle? ==> r == Fail(RegistrationCycle(PathNames(w.path))))
      ensures r.Fail? ==> registry == old(registry)
      ensures r.Pass? ==> registry == old(registry)[token := AsProvider(provider)]
    {
      var p := AsProvider(provider);
      if !IsProvider(p) {
        return Fail(InvalidProvider);
      }
      if IsTokenProvider(p) {
        ghost var walk := RedirectWalk(registry, [token], UseToken(p));
        var paths := [token];
        var next := Some(UseToken(p));
        while next.Some?
          invariant AllNormal(paths)
          invariant next.Some? ==> IsNormalToken(next.value) && walk == RedirectWalk(registry, paths, next.value)
          invariant next.None? ==> walk == Ends(paths)
          decreases if next.Some? then RedirectTargets(registry) + {next.value} - Elems(paths) else {}
        {
          var current := next.value;
          if current in paths {
            return Fail(RegistrationCycle(PathNames(paths + [current])));
          }
          assert Elems(paths + [current]) == Elems(paths) + {current};
          paths := paths + [current];
          next := RedirectOf(registry, current);
          if next.Some? {
            assert next.value in RedirectTargets(registry);
          }
        }
      }
      registry := registry[token := p];
      r := Pass;
    }

    /** `reset`: drop every binding and every singleton. */
    method Reset()
      requires Valid()
      modifies this`registry, this`instances
      ensures Valid()
      ensures registry == map[] && instances == map[]
    {
      registry := map[];
      instances := map[];
    }

    /** The dependency list of the class's descriptor. */
    function Deps(c: Value): seq<Dependence>
    {
      GetClassMetadata(descriptors, c).dependencies
    }

    /**
     * A set of identifiers closed under the steps resolution can take: the binding of a token, the
     * dependencies of a class. None of them is a lazy handle.
     */
    ghost predicate Closed(U: set<Value>)
      reads this`registry
    {
      (forall v :: v in U ==> !v.Proxy?)
      && (forall t {:trigger ProviderTarget(registry[t])} ::
            t in U && t in registry && ProviderTarget(registry[t]).Some? ==> ProviderTarget(registry[t]).value in U)
      && (forall c, i {:trigger Deps(c)[i]} :: c in U && 0 <= i < |Deps(c)| ==> Deps(c)[i].serviceIdentifier in U)
      && (forall c {:trigger Deps(c)} :: c in U ==> UniqueFields(Deps(c)))
    }

    /** Everything one resolution starting at `top` can reach. */
    ghost function Universe(top: Value): set<Value>
      reads this`registry
    {
      {top}
      + (set t | t in registry && ProviderTarget(registry[t]).Some? :: ProviderTarget(registry[t]).value)
      + (set c, i | c in descriptors && 0 <= i < |descriptors[c].dependencies| :: descriptors[c].dependencies[i].serviceIdentifier)
    }

    lemma UniverseClosed(top: Value)
      requires DescriptorsOk(descriptors) && !top.Proxy?
      ensures top in Universe(top) && Closed(Universe(top))
    {
      var U := Universe(top);
      forall c | c in U ensures UniqueFields(Deps(c)) {
        if c.Class? && c.cid in descriptors {
          assert Deps(c) == descriptors[c.cid].dependencies;
        }
      }
      forall c, i | c in U && 0 <= i < |Deps(c)| ensures Deps(c)[i].serviceIdentifier in U {
        assert c.Class? && c.cid in descriptors;
        assert Deps(c) == descriptors[c.cid].dependencies;
      }
      forall v | v in U ensures !v.Proxy? {
        if v != top && v !in (set t | t in registry && ProviderTarget(registry[t]).Some? :: ProviderTarget(registry[t]).value) {
          var c, i :| c in descriptors && 0 <= i < |descriptors[c].dependencies| && descriptors[c].dependencies[i].serviceIdentifier == v;
          assert IsServiceIdentifier(v);
        }
      }
    }

    /** Resolution-scoped instances, once in a context's cache, stay there unchanged. */
    ghost predicate ResolutionKept(e0: map<Value, Value>, e1: map<Value, Value>)
    {
      forall k :: k in e0 && k.Class? && LifecycleOf(k) == Resolution ==> k in e1 && e1[k] == e0[k]
    }

    /**
     * What any resolution step does to the two caches: the singleton cache only grows, the context's
     * resolution-scoped entries stay, nothing is recorded for an identifier on the chain the step
     * started from, and cached class instances are objects of their class.
     */
    ghost predicate CacheStep(s0: map<Value, Value>, s1: map<Value, Value>, e0: map<Value, Value>, e1: map<Value, Value>, onChain: set<Value>)
    {
      SubMap(s0, s1) && ResolutionKept(e0, e1) && Untouched(s0, s1, onChain) && Untouched(e0, e1, onChain) && ObjectsFor(e1)
    }

    lemma CacheStepRefl(s: map<Value, Value>, e: map<Value, Value>, X: set<Value>)
      requires ObjectsFor(e)
      ensures CacheStep(s, s, e, e, X)
    {
    }

    /** Recording the instance of an identifier that was on the chain the inner step started from. */
    lemma RecordedStep(s0: map<Value, Value>, s1: map<Value, Value>, e0: map<Value, Value>, e1: map<Value, Value>,
                       X: set<Value>, id: Value, v: Value)
      requires CacheStep(s0, s1, e0, e1, X + {id}) && id !in X
      requires IsConstructor(id) ==> v.Obj? && v.obj.ctor == id && id.length == 0 && !id.Arrow?
      requires id.Class? && LifecycleOf(id) == Resolution ==> id !in e0
      ensures CacheStep(s0, s1, e0, e1[id := v], X)
    {
    }

    /** Caching a singleton that was not cached before, as an object of its class. */
    lemma SingletonStep(s0: map<Value, Value>, s1: map<Value, Value>, e0: map<Value, Value>, e1: map<Value, Value>,
                        X: set<Value>, C: Value, v: Value)
      requires CacheStep(s0, s1, e0, e1, X) && C !in X && C !in s0
      requires SingletonsOk(s1) && LifecycleOf(C) == Singleton && C.length == 0 && v.Obj? && v.obj.ctor == C
      ensures CacheStep(s0, s1[C := v], e0, e1, X)
      ensures SingletonsOk(s1[C := v])
    {
    }

    lemma CacheStepTrans(s0: map<Value, Value>, s1: map<Value, Value>, s2: map<Value, Value>,
                         e0: map<Value, Value>, e1: map<Value, Value>, e2: map<Value, Value>, X: set<Value>, Y: set<Value>)
      requires CacheStep(s0, s1, e0, e1, X) && CacheStep(s1, s2, e1, e2, Y) && X <= Y
      ensures CacheStep(s0, s2, e0, e2, X)
    {
    }

    /**
     * What resolving `C` on `chain` does to the caches, from `s0`/`e0` to `s1`/`e1`: nothing when `C`
     * is in progress; otherwise the cached singleton, or the context's resolution-scoped instance,
     * when there is one; a success is recorded in the context and, for a singleton, in the
     * singleton cache, which gains `C` only on success.
     */
    ghost predicate ConstructorOutcome(C: Value, r: Result<Value>, s0: map<Value, Value>, s1: map<Value, Value>,
                                       e0: map<Value, Value>, e1: map<Value, Value>, chain: seq<ChainEntry>)
    {
      (C in ChainIds(chain) ==> s1 == s0 && e1 == e0)
      && (C !in ChainIds(chain) && LifecycleOf(C) == Singleton && C in s0 ==> r == Ok(s0[C]) && s1 == s0)
      && (C !in ChainIds(chain) && LifecycleOf(C) == Resolution && C in e0 ==> r == Ok(e0[C]) && s1 == s0 && e1 == e0)
      && (r.Ok? ==> C in e1 && e1[C] == r.value)
      && (r.Ok? && LifecycleOf(C) == Singleton ==> C in s1 && s1[C] == r.value)
      && (C in s1 ==> C in s0 || r.Ok?)
    }

    /** Whether the instance comes out of a cache rather than being built. */
    ghost predicate Reused(C: Value, s0: map<Value, Value>, e0: map<Value, Value>)
    {
      (LifecycleOf(C) == Singleton && C in s0) || (LifecycleOf(C) == Resolution && C in e0)
    }

    /**
     * What resolving `id` on `chain` may return, whatever the caches hold. A token: unbound fails;
     * in progress is a cycle; a value binding gives its value, a factory binding an object of the
     * factory, a class or redirect binding what its target gives on the chain with the token pushed;
     * anything else is an unknown provider. A `Lazy` gives a handle over its forward reference. A
     * function: in progress is a cycle; one with required parameters, and an arrow function, fail;
     * a class gives an object of that class, a transient one only when every dependency succeeds
     * on the chain with the class pushed, and a failure is the failure of its first failing
     * dependency. A nullish identifier and any other value fail.
     */
    ghost predicate Yields(U: set<Value>, id: Value, r: Result<Value>, chain: seq<ChainEntry>)
      requires Closed(U) && id in U && ChainOk(chain)
      reads this`registry
      decreases Unvisited(U, chain), 2
    {
      CircularIsMembership(chain, id);
      if IsNormalToken(id) && id !in registry then r == Err(Unregistered(ServiceIdentifierName(id)))
      else if IsNormalToken(id) then
        var p := registry[id];
        if id in ChainIds(chain) then r == Err(Circular(ChainNames(chain), ServiceIdentifierName(id)))
        else if IsValueProvider(p) then r == Ok(UseValue(p))
        else if IsFactoryProvider(p) then r.Ok? && r.value.Obj? && r.value.obj.ctor == UseFactory(p)
        else if ProviderTarget(p).Some? then
          PushedOk(U, chain, id);
          Yields(U, ProviderTarget(p).value, r, Pushed(chain, id))
        else r == Err(UnknownProvider)
      else if id.LazyObj? then r.Ok? && r.value.Proxy? && r.value.proxy.forwardRef == id.forwardRef
      else if IsConstructor(id) then
        if id in ChainIds(chain) then r == Err(Circular(ChainNames(chain), ServiceIdentifierName(id)))
        else if id.length > 0 then r == Err(NonInjectable(id.name))
        else if id.Arrow? then r == Err(NotConstructor)
        else
          PushedOk(U, chain, id);
          (r.Ok? ==> r.value.Obj? && r.value.obj.ctor == id
                     && (LifecycleOf(id) == Transient ==> DepsSucceed(U, id, |Deps(id)|, Pushed(chain, id))))
          && (r.Err? ==> exists i :: FailsAt(U, id, i, r, Pushed(chain, id)))
      else if IsNullish(id) then r == Err(NullishIdentifier(id.Null?))
      else r == Err(Unrecognized(ServiceIdentifierName(id)))
    }

    /**
     * Resolving `id` on `chain` has a way to succeed: no cycle, every token on the way bound to a
     * value, a factory or a target that can succeed, every class on the way without required
     * parameters and not an arrow function, and every dependency of a transient class able to
     * succeed.
     */
    ghost predicate CanSucceed(U: set<Value>, id: Value, chain: seq<ChainEntry>)
      requires Closed(U) && id in U && ChainOk(chain)
      reads this`registry
      decreases Unvisited(U, chain), 0
    {
      if IsNormalToken(id) then
        id in registry && id !in ChainIds(chain)
        && var p := registry[id];
        (IsValueProvider(p) || IsFactoryProvider(p)
         || (ProviderTarget(p).Some? && (PushedOk(U, chain, id); CanSucceed(U, ProviderTarget(p).value, Pushed(chain, id)))))
      else if id.LazyObj? then true
      else if IsConstructor(id) then
        id !in ChainIds(chain) && id.length == 0 && !id.Arrow?
        && (LifecycleOf(id) == Transient ==>
              (PushedOk(U, chain, id); DepsSucceed(U, id, |Deps(id)|, Pushed(chain, id))))
      else false
    }

    /** The first `n` dependencies of `C` can each succeed on `chain`. */
    ghost predicate DepsSucceed(U: set<Value>, C: Value, n: int, chain: seq<ChainEntry>)
      requires Closed(U) && C in U && ChainOk(chain) && n <= |Deps(C)|
      reads this`registry
      decreases Unvisited(U, chain), 1
    {
      forall j :: 0 <= j < n ==> CanSucceed(U, Deps(C)[j].serviceIdentifier, chain)
    }

    /** Whatever succeeds had a way to succeed. */
    lemma {:induction false} OkCanSucceed(U: set<Value>, id: Value, v: Value, chain: seq<ChainEntry>)
      requires Closed(U) && id in U && ChainOk(chain) && Yields(U, id, Ok(v), chain)
      ensures CanSucceed(U, id, chain)
      decreases Unvisited(U, chain)
    {
      if IsNormalToken(id) && ProviderTarget(registry[id]).Some? {
        PushedOk(U, chain, id);
        OkCanSucceed(U, ProviderTarget(registry[id]).value, v, Pushed(chain, id));
      }
    }

    /** `r` is the failure of the `i`-th dependency of `C` on `chain`, every earlier one succeeding. */
    ghost predicate FailsAt(U: set<Value>, C: Value, i: int, r: Result<Value>, chain: seq<ChainEntry>)
      requires Closed(U) && C in U && ChainOk(chain)
      reads this`registry
      decreases Unvisited(U, chain), 3
    {
      0 <= i < |Deps(C)| && r.Err? && Yields(U, Deps(C)[i].serviceIdentifier, r, chain) && DepsSucceed(U, C, i, chain)
    }

    /** The first `n` fields `C` declares are set, each to what its identifier gives on `chain`. */
    ghost predicate FieldsYieldUpTo(U: set<Value>, C: Value, n: int, fields: map<FieldKey, Value>, chain: seq<ChainEntry>)
      requires Closed(U) && C in U && ChainOk(chain) && n <= |Deps(C)|
      reads this`registry
    {
      forall j :: 0 <= j < n ==>
        Deps(C)[j].field in fields && Yields(U, Deps(C)[j].serviceIdentifier, Ok(fields[Deps(C)[j].field]), chain)
    }

    /** Every field `C` declares is set, to what its identifier gives on `chain`. */
    ghost predicate FieldsYield(U: set<Value>, C: Value, fields: map<FieldKey, Value>, chain: seq<ChainEntry>)
      requires Closed(U) && C in U && ChainOk(chain)
      reads this`registry
    {
      FieldsYieldUpTo(U, C, |Deps(C)|, fields, chain)
    }

    /** Setting the next declared field to what its identifier gives extends the prefix by one. */
    lemma FieldsYieldStep(U: set<Value>, C: Value, n: nat, fields: map<FieldKey, Value>, v: Value, chain: seq<ChainEntry>)
      requires Closed(U) && C in U && ChainOk(chain) && n < |Deps(C)|
      requires FieldsYieldUpTo(U, C, n, fields, chain) && Yields(U, Deps(C)[n].serviceIdentifier, Ok(v), chain)
      ensures FieldsYieldUpTo(U, C, n + 1, fields[Deps(C)[n].field := v], chain)
    {
      forall j | 0 <= j < n ensures Deps(C)[j].field != Deps(C)[n].field {
        assert UniqueFields(Deps(C));
      }
    }

    /** Fields that each hold what their identifier gives witness that those dependencies succeed. */
    lemma FieldsWitness(U: set<Value>, C: Value, n: int, fields: map<FieldKey, Value>, chain: seq<ChainEntry>)
      requires Closed(U) && C in U && ChainOk(chain) && n <= |Deps(C)| && FieldsYieldUpTo(U, C, n, fields, chain)
      ensures DepsSucceed(U, C, n, chain)
    {
      forall j | 0 <= j < n ensures CanSucceed(U, Deps(C)[j].serviceIdentifier, chain) {
        OkCanSucceed(U, Deps(C)[j].serviceIdentifier, fields[Deps(C)[j].field], chain);
      }
    }

    /** What `resolveConstructor` gives, with the class pushed, is what the class yields before the push. */
    lemma BuiltYields(U: set<Value>, C: Value, r: Result<Value>, fields: map<FieldKey, Value>, chain0: seq<ChainEntry>)
      requires Closed(U) && C in U && IsConstructor(C) && ChainOk(chain0) && C !in ChainIds(chain0) && ChainOk(Pushed(chain0, C))
      requires C.length > 0 ==> r == Err(NonInjectable(C.name))
      requires C.length == 0 && C.Arrow? ==> r == Err(NotConstructor)
      requires r.Err? && C.length == 0 && !C.Arrow? ==> exists i :: FailsAt(U, C, i, r, Pushed(chain0, C))
      requires r.Ok? ==> r.value.Obj? && r.value.obj.ctor == C && FieldsYield(U, C, fields, Pushed(chain0, C))
      ensures Yields(U, C, r, chain0)
    {
      CircularIsMembership(chain0, C);
      if r.Ok? {
        FieldsWitness(U, C, |Deps(C)|, fields, Pushed(chain0, C));
      }
    }

    /** A failing dependency after a prefix of set fields is the first failure of the class. */
    lemma FirstFailure(U: set<Value>, C: Value, i: nat, fields: map<FieldKey, Value>, r: Result<Value>, chain: seq<ChainEntry>)
      requires Closed(U) && C in U && ChainOk(chain) && i < |Deps(C)| && FieldsYieldUpTo(U, C, i, fields, chain)
      requires r.Err? && Yields(U, Deps(C)[i].serviceIdentifier, r, chain)
      ensures FailsAt(U, C, i, r, chain)
    {
      FieldsWitness(U, C, i, fields, chain);
    }

    /**
     * Resolution of `id` on `chain` cannot fail, whatever the caches hold: no cycle, every token on
     * the way bound to a value, a factory or a target that cannot fail, every class on the way
     * without required parameters, not an arrow function, and with dependencies that cannot fail.
     */
    ghost predicate Sure(U: set<Value>, id: Value, chain: seq<ChainEntry>)
      requires Closed(U) && id in U && ChainOk(chain)
      reads this`registry
      decreases Unvisited(U, chain)
    {
      if IsNormalToken(id) then
        id in registry && id !in ChainIds(chain)
        && var p := registry[id];
        (IsValueProvider(p) || IsFactoryProvider(p)
         || (ProviderTarget(p).Some? && (PushedOk(U, chain, id); Sure(U, ProviderTarget(p).value, Pushed(chain, id)))))
      else if id.LazyObj? then true
      else if IsConstructor(id) then
        id !in ChainIds(chain) && id.length == 0 && !id.Arrow?
        && (PushedOk(U, chain, id);
            forall i :: 0 <= i < |Deps(id)| ==> Sure(U, Deps(id)[i].serviceIdentifier, Pushed(chain, id)))
      else false
    }

    /** What cannot fail does not fail. */
    lemma {:induction false} SureSucceeds(U: set<Value>, id: Value, r: Result<Value>, chain: seq<ChainEntry>)
      requires Closed(U) && id in U && ChainOk(chain)
      requires Sure(U, id, chain) && Yields(U, id, r, chain)
      ensures r.Ok?
      decreases Unvisited(U, chain)
    {
      if IsNormalToken(id) {
        var p := registry[id];
        if !IsValueProvider(p) && !IsFactoryProvider(p) {
          PushedOk(U, chain, id);
          SureSucceeds(U, ProviderTarget(p).value, r, Pushed(chain, id));
        }
      } else if IsConstructor(id) && r.Err? {
        PushedOk(U, chain, id);
        var i :| FailsAt(U, id, i, r, Pushed(chain, id));
        SureSucceeds(U, Deps(id)[i].serviceIdentifier, r, Pushed(chain, id));
      }
    }

    /** Each field bound to a resolution-scoped class holds the context's instance of that class. */
    ghost predicate SharesResolutionScoped(fields: map<FieldKey, Value>, deps: seq<Dependence>, entries: map<Value, Value>)
    {
      forall i :: 0 <= i < |deps| && deps[i].serviceIdentifier.Class? && LifecycleOf(deps[i].serviceIdentifier) == Resolution ==>
        deps[i].serviceIdentifier in entries && deps[i].field in fields && fields[deps[i].field] == entries[deps[i].serviceIdentifier]
    }

    /** Fields bound to one resolution-scoped class hold one and the same instance. */
    ghost predicate SharedWithin(fields: map<FieldKey, Value>, deps: seq<Dependence>)
    {
      forall i, j ::
        (0 <= i < |deps| && 0 <= j < |deps| && deps[i].serviceIdentifier == deps[j].serviceIdentifier
         && deps[i].serviceIdentifier.Class? && LifecycleOf(deps[i].serviceIdentifier) == Resolution) ==>
        deps[i].field in fields && deps[j].field in fields && fields[deps[i].field] == fields[deps[j].field]
    }

    /** Recording another class in the context keeps the sharing, unless it is the very class shared. */
    lemma SharesAfterRecord(fields: map<FieldKey, Value>, deps: seq<Dependence>, e: map<Value, Value>, C: Value, v: Value)
      requires SharesResolutionScoped(fields, deps, e)
      requires C.Class? && LifecycleOf(C) == Resolution ==> C !in e
      ensures SharesResolutionScoped(fields, deps, e[C := v])
    {
    }

    /** Setting the next declared field keeps the earlier fields' sharing and adds the new field's. */
    lemma SharesStep(fields: map<FieldKey, Value>, deps: seq<Dependence>, i: nat, e0: map<Value, Value>, e1: map<Value, Value>, v: Value)
      requires i < |deps| && UniqueFields(deps)
      requires SharesResolutionScoped(fields, deps[..i], e0) && ResolutionKept(e0, e1)
      requires deps[i].serviceIdentifier.Class? && LifecycleOf(deps[i].serviceIdentifier) == Resolution ==>
        deps[i].serviceIdentifier in e1 && e1[deps[i].serviceIdentifier] == v
      ensures SharesResolutionScoped(fields[deps[i].field := v], deps[..i + 1], e1)
    {
      var next := deps[..i + 1];
      forall k | 0 <= k < |next| && next[k].serviceIdentifier.Class? && LifecycleOf(next[k].serviceIdentifier) == Resolution
        ensures next[k].serviceIdentifier in e1 && next[k].field in fields[deps[i].field := v]
          && fields[deps[i].field := v][next[k].field] == e1[next[k].serviceIdentifier]
      {
        assert next[k] == deps[k];
        if k < i {
          assert deps[..i][k] == deps[k];
          assert deps[k].field != deps[i].field;
        }
      }
    }

    /**
     * `resolve`: a new top-level resolution in a new context, on an empty chain, over everything
     * reachable from the identifier. The result is what the identifier yields; a factory binding
     * gives a new object and a lazy identifier a new, unused handle; a class yields its cached
     * singleton when there is one, and otherwise a new object whose declared fields hold what
     * their identifiers yield with the class pushed, fields bound to one resolution-scoped class
     * sharing one instance; a singleton is cached on success; the singleton cache only grows, and
     * gains the class only when the call succeeds.
     */
    method Resolve(id: Value) returns (r: Result<Value>)
      requires Valid() && !id.Proxy?
      modifies this`instances
      ensures Valid() && SubMap(old(instances), instances)
      ensures id in Universe(id) && Closed(Universe(id)) && Yields(Universe(id), id, r, [])
      ensures IsNormalToken(id) && id in registry && !IsValueProvider(registry[id]) && IsFactoryProvider(registry[id]) ==>
        r.Ok? && r.value.Obj? && fresh(r.value.obj)
      ensures id.LazyObj? ==> r.Ok? && r.value.Proxy? && fresh(r.value.proxy) && !r.value.proxy.isInit && instances == old(instances)
      ensures IsConstructor(id) && LifecycleOf(id) == Singleton && id in old(instances) ==>
        r == Ok(old(instances)[id]) && instances == old(instances)
      ensures IsConstructor(id) && r.Ok? && LifecycleOf(id) == Singleton ==> id in instances && instances[id] == r.value
      ensures IsConstructor(id) && r.Ok? && !(LifecycleOf(id) == Singleton && id in old(instances)) ==>
        r.value.Obj? && fresh(r.value.obj) && r.value.obj.fields.Keys == FieldsOf(Deps(id))
        && SharedWithin(r.value.obj.fields, Deps(id))
        && ChainOk(Pushed([], id)) && FieldsYield(Universe(id), id, r.value.obj.fields, Pushed([], id))
      ensures id in instances ==> id in old(instances) || r.Ok?
    {
      var ctx := new ResolutionContext();
      UniverseClosed(id);
      r := ResolveDelegate(id, ctx, Universe(id));
    }

    /**
     * What a top-level result is, read off `Yields` on the empty chain: an unbound token fails, a
     * value binding gives its value, a factory binding an object of the factory, a lazy identifier
     * a handle over its forward reference; a class with required parameters and an arrow function
     * fail, and any other class gives an object of that class; nullish and unrecognized
     * identifiers fail.
     */
    lemma TopLevelOutcome(id: Value, r: Result<Value>)
      requires Closed(Universe(id)) && id in Universe(id) && Yields(Universe(id), id, r, [])
      ensures IsNormalToken(id) && id !in registry ==> r == Err(Unregistered(ServiceIdentifierName(id)))
      ensures IsNormalToken(id) && id in registry && IsValueProvider(registry[id]) ==> r == Ok(UseValue(registry[id]))
      ensures IsNormalToken(id) && id in registry && !IsValueProvider(registry[id]) && IsFactoryProvider(registry[id]) ==>
        r.Ok? && r.value.Obj? && r.value.obj.ctor == UseFactory(registry[id])
      ensures id.LazyObj? ==> r.Ok? && r.value.Proxy? && r.value.proxy.forwardRef == id.forwardRef
      ensures IsConstructor(id) && id.length > 0 ==> r == Err(NonInjectable(id.name))
      ensures IsConstructor(id) && id.length == 0 && id.Arrow? ==> r == Err(NotConstructor)
      ensures IsConstructor(id) && r.Ok? ==> r.value.Obj? && r.value.obj.ctor == id
      ensures IsNullish(id) ==> r == Err(NullishIdentifier(id.Null?))
      ensures !IsServiceIdentifier(id) && !IsNullish(id) ==> r == Err(Unrecognized(ServiceIdentifierName(id)))
    {
    }

    /**
     * The memoised thunk every trap of a lazy handle runs first (`lazy` inside `createProxy`): on the
     * first use, call the forward reference and resolve what it returns in a new top-level
     * resolution, remembering the instance only when that succeeds; later uses return it unchanged.
     */
    method UseProxy(handle: LazyProxy) returns (r: Result<Value>)
      requires Valid() && !(handle.forwardRef.Arrow? && handle.forwardRef.result.Proxy?)
      modifies this`instances, handle
      ensures Valid() && SubMap(old(instances), instances)
      ensures handle.isInit <==> r.Ok?
      ensures r.Ok? ==> handle.instance == r.value
      ensures old(handle.isInit) ==> r == Ok(old(handle.instance)) && instances == old(instances)
      ensures !old(handle.isInit) && handle.forwardRef.Class? ==>
        r == Err(ClassCalledWithoutNew(handle.forwardRef.name)) && instances == old(instances)
      ensures !old(handle.isInit) && !IsFunction(handle.forwardRef) ==> r == Err(NotAFunction) && instances == old(instances)
      ensures !old(handle.isInit) && handle.forwardRef.FactoryFn? ==> r == Err(Unrecognized("[object Object]"))
      ensures !old(handle.isInit) && handle.forwardRef.Arrow? ==>
        var target := handle.forwardRef.result;
        (IsNormalToken(target) && target !in registry ==> r == Err(Unregistered(ServiceIdentifierName(target))))
        && (IsConstructor(target) && LifecycleOf(target) == Singleton && target in old(instances) ==> r == Ok(old(instances)[target]))
        && (IsConstructor(target) && target !in old(instances) && target.length > 0 ==> r == Err(NonInjectable(target.name)))
        && (IsConstructor(target) && target.length == 0 && !target.Arrow? && Deps(target) == [] ==> r.Ok?)
        && (IsConstructor(target) && r.Ok? ==> r.value.Obj? && r.value.obj.ctor == target)
      ensures !old(handle.isInit) && handle.forwardRef.Arrow? ==>
        var target := handle.forwardRef.result;
        target in Universe(target) && Closed(Universe(target)) && Yields(Universe(target), target, r, [])
        && (IsConstructor(target) && r.Ok? && !(LifecycleOf(target) == Singleton && target in old(instances)) ==>
              r.value.Obj? && fresh(r.value.obj) && r.value.obj.fields.Keys == FieldsOf(Deps(target))
              && ChainOk(Pushed([], target)) && FieldsYield(Universe(target), target, r.value.obj.fields, Pushed([], target)))
    {
      if handle.isInit {
        return Ok(handle.instance);
      }
      var target: Value;
      match handle.forwardRef {
        case Class(_, name, _) =>
          return Err(ClassCalledWithoutNew(name));
        case Arrow(_, _, _, result) =>
          target := result;
        case FactoryFn(_, _, _) =>
          var made := new JsObject(handle.forwardRef);
          target := Obj(made);
        case _ =>
          return Err(NotAFunction);
      }
      r := Resolve(target);
      if r.Ok? {
        handle.instance := r.value;
        handle.isInit := true;
      }
    }

    /**
     * `resolveDelegate`: dispatch on the identifier, in this order: an unbound token fails, a bound
     * token goes to its binding, a `Lazy` yields a new handle without resolving anything, a
     * function goes to the constructor path; anything else fails.
     */
    method ResolveDelegate(id: Value, ctx: ResolutionContext, ghost U: set<Value>) returns (r: Result<Value>)
      requires SingletonsOk(instances) && Closed(U) && id in U
      requires ChainOk(ctx.dependencyChain) && ObjectsFor(ctx.instances.entries)
      modifies this`instances, ctx, ctx.instances
      decreases Unvisited(U, ctx.dependencyChain), 2
      ensures SingletonsOk(instances)
      ensures CacheStep(old(instances), instances, old(ctx.instances.entries), ctx.instances.entries, ChainIds(old(ctx.dependencyChain)))
      ensures Yields(U, id, r, old(ctx.dependencyChain))
      ensures IsNormalToken(id) && id in registry && r.Ok? ==> id in ctx.instances.entries && ctx.instances.entries[id] == r.value
      ensures (IsNormalToken(id) && id in registry && id !in ChainIds(old(ctx.dependencyChain))
               && !IsValueProvider(registry[id]) && IsFactoryProvider(registry[id])) ==> r.Ok? && fresh(r.value.obj)
      ensures id.LazyObj? ==> r.Ok? && r.value.Proxy? && fresh(r.value.proxy) && !r.value.proxy.isInit && instances == old(instances)
      ensures IsConstructor(id) ==>
        ConstructorOutcome(id, r, old(instances), instances, old(ctx.instances.entries), ctx.instances.entries, old(ctx.dependencyChain))
      ensures IsConstructor(id) && r.Ok? && !Reused(id, old(instances), old(ctx.instances.entries)) ==>
        fresh(r.value.obj) && r.value.obj.fields.Keys == FieldsOf(Deps(id))
        && SharesResolutionScoped(r.value.obj.fields, Deps(id), ctx.instances.entries)
        && ChainOk(Pushed(old(ctx.dependencyChain), id)) && FieldsYield(U, id, r.value.obj.fields, Pushed(old(ctx.dependencyChain), id))
    {
      if IsNormalToken(id) && id !in registry {
        return Err(Unregistered(ServiceIdentifierName(id)));
      }
      if IsNormalToken(id) {
        r := ResolveProviderDelegate(id, registry[id], ctx, U);
        return;
      }
      if IsLazy(id) {
        r := ResolveLazy(id, ctx);
        return;
      }
      if IsConstructor(id) {
        r := ResolveConstructorDelegate(id, ctx, U);
        return;
      }
      if IsNullish(id) {
        return Err(NullishIdentifier(id.Null?));
      }
      return Err(Unrecognized(ServiceIdentifierName(id)));
    }

    /**
     * The lazy branch of `resolveDelegate`: push the wrapper, create a handle over its forward
     * reference without calling it, and record the handle as the wrapper's instance.
     */
    method ResolveLazy(id: Value, ctx: ResolutionContext) returns (r: Result<Value>)
      requires id.LazyObj? && ChainOk(ctx.dependencyChain) && ObjectsFor(ctx.instances.entries)
      modifies ctx, ctx.instances
      ensures r.Ok? && r.value.Proxy? && fresh(r.value.proxy) && r.value.proxy.forwardRef == id.forwardRef
      ensures !r.value.proxy.isInit
      ensures ctx.instances.entries == old(ctx.instances.entries)[id := r.value]
      ensures CacheStep(instances, instances, old(ctx.instances.entries), ctx.instances.entries, ChainIds(old(ctx.dependencyChain)))
    {
      ctx.StartResolveServiceIdentifier(id);
      var handle := new LazyProxy(id.forwardRef);
      ctx.EndResolveServiceIdentifier(id, Proxy(handle));
      r := Ok(Proxy(handle));
    }

    /**
     * `resolveConstructorDelegate` (with `throwIfCircularDependency`): fail on a cycle; otherwise push
     * the class, reuse a cached singleton or resolution-scoped instance, or build one, record it in
     * the context and, for a singleton, in the singleton cache.
     */
    method ResolveConstructorDelegate(C: Value, ctx: ResolutionContext, ghost U: set<Value>) returns (r: Result<Value>)
      requires SingletonsOk(instances) && Closed(U) && C in U && IsConstructor(C)
      requires ChainOk(ctx.dependencyChain) && ObjectsFor(ctx.instances.entries)
      modifies this`instances, ctx, ctx.instances
      decreases Unvisited(U, ctx.dependencyChain), 1
      ensures SingletonsOk(instances)
      ensures CacheStep(old(instances), instances, old(ctx.instances.entries), ctx.instances.entries, ChainIds(old(ctx.dependencyChain)))
      ensures ConstructorOutcome(C, r, old(instances), instances, old(ctx.instances.entries), ctx.instances.entries, old(ctx.dependencyChain))
      ensures Yields(U, C, r, old(ctx.dependencyChain))
      ensures r.Ok? && !Reused(C, old(instances), old(ctx.instances.entries)) ==>
        fresh(r.value.obj) && r.value.obj.fields.Keys == FieldsOf(Deps(C))
        && SharesResolutionScoped(r.value.obj.fields, Deps(C), ctx.instances.entries)
        && ChainOk(Pushed(old(ctx.dependencyChain), C)) && FieldsYield(U, C, r.value.obj.fields, Pushed(old(ctx.dependencyChain), C))
    {
      CircularIsMembership(ctx.dependencyChain, C);
      if ctx.HasCircularDependency(C) {
        return Err(Circular(ctx.GetDependencyChain(), ServiceIdentifierName(C)));
      }
      ghost var chain0, s0, e0 := ctx.dependencyChain, instances, ctx.instances.entries;
      ghost var X := ChainIds(chain0);
      ctx.StartResolveServiceIdentifier(C);
      PushedOk(U, chain0, C);
      CacheStepRefl(s0, e0, X + {C});
      var metadata := GetClassMetadata(descriptors, C);
      if metadata.lifecycle == Singleton && C in instances {
        var instance := instances[C];
        ctx.EndResolveServiceIdentifier(C, instance);
        RecordedStep(s0, s0, e0, e0, X, C, instance);
        return Ok(instance);
      }
      if metadata.lifecycle == Resolution && ctx.HasInstance(C) {
        return Ok(ctx.GetInstance(C));
      }
      r := BuildAndRecord(C, metadata, ctx, U, chain0);
    }

    /**
     * The rest of `resolveConstructorDelegate` once `C` is on the chain and no cached instance
     * applies: build the object, record it in the context and, for a singleton, in the cache.
     */
    method BuildAndRecord(C: Value, metadata: ServiceMetadata, ctx: ResolutionContext, ghost U: set<Value>, ghost chain0: seq<ChainEntry>)
      returns (r: Result<Value>)
      requires SingletonsOk(instances) && Closed(U) && C in U && IsConstructor(C) && metadata == GetClassMetadata(descriptors, C)
      requires ChainOk(chain0) && C !in ChainIds(chain0) && ctx.dependencyChain == Pushed(chain0, C)
      requires ChainOk(ctx.dependencyChain) && ObjectsFor(ctx.instances.entries) && !Reused(C, instances, ctx.instances.entries)
      modifies this`instances, ctx, ctx.instances
      decreases Unvisited(U, ctx.dependencyChain), 6
      ensures SingletonsOk(instances)
      ensures CacheStep(old(instances), instances, old(ctx.instances.entries), ctx.instances.entries, ChainIds(chain0))
      ensures Yields(U, C, r, chain0)
      ensures r.Ok? ==>
        r.value.Obj? && fresh(r.value.obj) && r.value.obj.ctor == C
        && C in ctx.instances.entries && ctx.instances.entries[C] == r.value
        && r.value.obj.fields.Keys == FieldsOf(Deps(C))
        && SharesResolutionScoped(r.value.obj.fields, Deps(C), ctx.instances.entries)
        && FieldsYield(U, C, r.value.obj.fields, Pushed(chain0, C))
      ensures r.Ok? && LifecycleOf(C) == Singleton ==> C in instances && instances[C] == r.value
      ensures C in instances ==> C in old(instances) || r.Ok?
    {
      ghost var s0, e0, X := instances, ctx.instances.entries, ChainIds(chain0);
      PushedOk(U, chain0, C);
      CacheStepRefl(s0, e0, X);
      r := ResolveConstructor(C, metadata, ctx, U);
      ghost var s1, e1 := instances, ctx.instances.entries;
      assert C in X + {C};
      assert C in s1 <==> C in s0;
      assert metadata.lifecycle == LifecycleOf(C);
      if r.Err? {
        BuiltYields(U, C, r, map[], chain0);
        CacheStepTrans(s0, s0, s1, e0, e0, e1, X, X + {C});
        return;
      }
      ghost var fields := r.value.obj.fields;
      BuiltYields(U, C, r, fields, chain0);
      ctx.EndResolveServiceIdentifier(C, r.value);
      assert r.value.obj.fields == fields;
      RecordedStep(s0, s1, e0, e1, X, C, r.value);
      SharesAfterRecord(fields, Deps(C), e1, C, r.value);
      if metadata.lifecycle == Singleton {
        SingletonStep(s0, s1, e0, ctx.instances.entries, X, C, r.value);
        instances := instances[C := r.value];
      }
    }

    /**
     * `resolveConstructor`: refuse a class with required constructor parameters, and a function that
     * cannot be called with `new`; otherwise build the object and set its declared fields.
     */
    method ResolveConstructor(C: Value, metadata: ServiceMetadata, ctx: ResolutionContext, ghost U: set<Value>)
      returns (r: Result<Value>)
      requires SingletonsOk(instances) && Closed(U) && C in U && IsConstructor(C) && metadata == GetClassMetadata(descriptors, C)
      requires ChainOk(ctx.dependencyChain) && ObjectsFor(ctx.instances.entries)
      modifies this`instances, ctx.instances
      decreases Unvisited(U, ctx.dependencyChain), 5
      ensures SingletonsOk(instances)
      ensures CacheStep(old(instances), instances, old(ctx.instances.entries), ctx.instances.entries, ChainIds(ctx.dependencyChain))
      ensures C.length > 0 ==> r == Err(NonInjectable(C.name)) && instances == old(instances)
      ensures C.length == 0 && C.Arrow? ==> r == Err(NotConstructor) && instances == old(instances)
      ensures C.length == 0 && !C.Arrow? && metadata.dependencies == [] ==> r.Ok?
      ensures r.Err? && C.length == 0 && !C.Arrow? ==> exists i :: FailsAt(U, C, i, r, ctx.dependencyChain)
      ensures r.Ok? ==>
        r.value.Obj? && fresh(r.value.obj) && r.value.obj.ctor == C
        && r.value.obj.fields.Keys == FieldsOf(metadata.dependencies)
        && SharesResolutionScoped(r.value.obj.fields, metadata.dependencies, ctx.instances.entries)
        && FieldsYield(U, C, r.value.obj.fields, ctx.dependencyChain)
    {
      if C.length > 0 {
        return Err(NonInjectable(C.name));
      }
      if C.Arrow? {
        return Err(NotConstructor);
      }
      var instance := new JsObject(C);
      r := InjectFields(C, instance, metadata.dependencies, ctx, U);
    }

    /**
     * The loop of `resolveConstructor`: set each declared field of the new object, in order, to the
     * resolution of its identifier in a fresh fork of the context; the first failure ends it.
     */
    method InjectFields(C: Value, instance: JsObject, deps: seq<Dependence>, ctx: ResolutionContext, ghost U: set<Value>)
      returns (r: Result<Value>)
      requires SingletonsOk(instances) && Closed(U) && C in U && deps == Deps(C)
      requires ChainOk(ctx.dependencyChain) && ObjectsFor(ctx.instances.entries) && instance.fields == map[]
      modifies this`instances, ctx.instances, instance
      decreases Unvisited(U, ctx.dependencyChain), 4
      ensures SingletonsOk(instances)
      ensures CacheStep(old(instances), instances, old(ctx.instances.entries), ctx.instances.entries, ChainIds(ctx.dependencyChain))
      ensures deps == [] ==> r.Ok?
      ensures r.Err? ==> exists i :: FailsAt(U, C, i, r, ctx.dependencyChain)
      ensures r.Ok? ==>
        r.value == Obj(instance) && instance.fields.Keys == FieldsOf(deps)
        && SharesResolutionScoped(instance.fields, deps, ctx.instances.entries)
        && FieldsYield(U, C, instance.fields, ctx.dependencyChain)
    {
      ghost var s0 := instances;
      ghost var e0 := ctx.instances.entries;
      assert UniqueFields(Deps(C));
      CacheStepRefl(s0, e0, ChainIds(ctx.dependencyChain));
      var i := 0;
      while i < |deps|
        invariant 0 <= i <= |deps|
        invariant instance.fields.Keys == FieldsOf(deps[..i])
        invariant SharesResolutionScoped(instance.fields, deps[..i], ctx.instances.entries)
        invariant SingletonsOk(instances)
        invariant CacheStep(s0, instances, e0, ctx.instances.entries, ChainIds(ctx.dependencyChain))
        invariant FieldsYieldUpTo(U, C, i, instance.fields, ctx.dependencyChain)
      {
        assert deps[i] == Deps(C)[i];
        ghost var s1, e1, f1 := instances, ctx.instances.entries, instance.fields;
        var value := InjectField(instance, deps, i, ctx, U);
        CacheStepTrans(s0, s1, instances, e0, e1, ctx.instances.entries, ChainIds(ctx.dependencyChain), ChainIds(ctx.dependencyChain));
        if value.Err? {
          FirstFailure(U, C, i, instance.fields, value, ctx.dependencyChain);
          return value;
        }
        FieldsYieldStep(U, C, i, f1, value.value, ctx.dependencyChain);
        FieldsOfSnoc(deps, i);
        i := i + 1;
      }
      assert deps[..i] == deps;
      r := Ok(Obj(instance));
    }

    /**
     * One turn of `resolveConstructor`'s loop: resolve the `i`-th dependence in a fresh fork of the
     * context and, on success, set its field of the object under construction.
     */
    method InjectField(instance: JsObject, deps: seq<Dependence>, i: nat, ctx: ResolutionContext, ghost U: set<Value>)
      returns (r: Result<Value>)
      requires SingletonsOk(instances) && Closed(U) && i < |deps| && deps[i].serviceIdentifier in U && UniqueFields(deps)
      requires ChainOk(ctx.dependencyChain) && ObjectsFor(ctx.instances.entries)
      requires SharesResolutionScoped(instance.fields, deps[..i], ctx.instances.entries)
      modifies this`instances, ctx.instances, instance
      decreases Unvisited(U, ctx.dependencyChain), 3
      ensures SingletonsOk(instances)
      ensures CacheStep(old(instances), instances, old(ctx.instances.entries), ctx.instances.entries, ChainIds(ctx.dependencyChain))
      ensures r.Err? ==> instance.fields == old(instance.fields)
      ensures r.Ok? ==> instance.fields == old(instance.fields)[deps[i].field := r.value]
      ensures r.Ok? ==> SharesResolutionScoped(instance.fields, deps[..i + 1], ctx.instances.entries)
      ensures Yields(U, deps[i].serviceIdentifier, r, ctx.dependencyChain)
    {
      var child := ctx.Fork();
      ghost var e0 := ctx.instances.entries;
      r := ResolveDelegate(deps[i].serviceIdentifier, child, U);
      if r.Ok? {
        SharesStep(instance.fields, deps, i, e0, ctx.instances.entries, r.value);
        instance.fields := instance.fields[deps[i].field := r.value];
      }
    }

    /** `resolveProviderDelegate`: fail on a cycle; otherwise push the token, resolve its binding, record the result. */
    method ResolveProviderDelegate(id: Value, p: Value, ctx: ResolutionContext, ghost U: set<Value>) returns (r: Result<Value>)
      requires SingletonsOk(instances) && Closed(U) && id in U && IsNormalToken(id) && id in registry && p == registry[id]
      requires ChainOk(ctx.dependencyChain) && ObjectsFor(ctx.instances.entries)
      modifies this`instances, ctx, ctx.instances
      decreases Unvisited(U, ctx.dependencyChain), 1
      ensures SingletonsOk(instances)
      ensures CacheStep(old(instances), instances, old(ctx.instances.entries), ctx.instances.entries, ChainIds(old(ctx.dependencyChain)))
      ensures Yields(U, id, r, old(ctx.dependencyChain))
      ensures r.Ok? ==> id in ctx.instances.entries && ctx.instances.entries[id] == r.value
      ensures id !in ChainIds(old(ctx.dependencyChain)) && !IsValueProvider(p) && IsFactoryProvider(p) ==> r.Ok? && fresh(r.value.obj)
    {
      CircularIsMembership(ctx.dependencyChain, id);
      if ctx.HasCircularDependency(id) {
        return Err(Circular(ctx.GetDependencyChain(), ServiceIdentifierName(id)));
      }
      ghost var chain0 := ctx.dependencyChain;
      ctx.StartResolveServiceIdentifier(id);
      PushedOk(U, chain0, id);
      r := ProvideAndRecord(id, p, ctx, U, chain0);
    }

    /**
     * The rest of `resolveProviderDelegate` once the token is on the chain: resolve the binding and
     * record its result in the context under the token.
     */
    method ProvideAndRecord(id: Value, p: Value, ctx: ResolutionContext, ghost U: set<Value>, ghost chain0: seq<ChainEntry>)
      returns (r: Result<Value>)
      requires SingletonsOk(instances) && Closed(U) && id in U && IsNormalToken(id) && id in registry && p == registry[id]
      requires ChainOk(chain0) && id !in ChainIds(chain0) && ctx.dependencyChain == Pushed(chain0, id)
      requires ChainOk(ctx.dependencyChain) && ObjectsFor(ctx.instances.entries)
      modifies this`instances, ctx, ctx.instances
      decreases Unvisited(U, ctx.dependencyChain), 5
      ensures SingletonsOk(instances)
      ensures CacheStep(old(instances), instances, old(ctx.instances.entries), ctx.instances.entries, ChainIds(chain0))
      ensures Yields(U, id, r, chain0)
      ensures !IsValueProvider(p) && IsFactoryProvider(p) ==> r.Ok? && r.value.Obj? && fresh(r.value.obj)
      ensures r.Ok? ==> id in ctx.instances.entries && ctx.instances.entries[id] == r.value
    {
      ghost var s0, e0, X := instances, ctx.instances.entries, ChainIds(chain0);
      PushedOk(U, chain0, id);
      r := ResolveProvider(p, ctx, U);
      ghost var s1, e1 := instances, ctx.instances.entries;
      CacheStepRefl(s0, e0, X);
      if r.Err? {
        CacheStepTrans(s0, s0, s1, e0, e0, e1, X, X + {id});
        return;
      }
      ctx.EndResolveServiceIdentifier(id, r.value);
      RecordedStep(s0, s1, e0, e1, X, id, r.value);
    }

    /**
     * `resolveProvider`: a value binding yields its value, a factory binding a new object; class and
     * redirect bindings resolve their target in a fork of the context.
     */
    method ResolveProvider(p: Value, ctx: ResolutionContext, ghost U: set<Value>) returns (r: Result<Value>)
      requires SingletonsOk(instances) && Closed(U) && (ProviderTarget(p).Some? ==> ProviderTarget(p).value in U)
      requires ChainOk(ctx.dependencyChain) && ObjectsFor(ctx.instances.entries)
      modifies this`instances, ctx.instances
      decreases Unvisited(U, ctx.dependencyChain), 3
      ensures SingletonsOk(instances)
      ensures CacheStep(old(instances), instances, old(ctx.instances.entries), ctx.instances.entries, ChainIds(ctx.dependencyChain))
      ensures IsValueProvider(p) ==> r == Ok(UseValue(p))
      ensures !IsValueProvider(p) && IsFactoryProvider(p) ==>
        r.Ok? && r.value.Obj? && fresh(r.value.obj) && r.value.obj.ctor == UseFactory(p)
      ensures !IsProvider(p) ==> r == Err(UnknownProvider)
      ensures ProviderTarget(p).Some? ==> Yields(U, ProviderTarget(p).value, r, ctx.dependencyChain)
    {
      if IsValueProvider(p) {
        return Ok(UseValue(p));
      }
      if IsFactoryProvider(p) {
        var made := new JsObject(UseFactory(p));
        return Ok(Obj(made));
      }
      if IsClassProvider(p) {
        var child := ctx.Fork();
        r := ResolveDelegate(UseClass(p), child, U);
        return;
      }
      if IsTokenProvider(p) {
        var child := ctx.Fork();
        r := ResolveDelegate(UseToken(p), child, U);
        return;
      }
      return Err(UnknownProvider);
    }
  }
}
