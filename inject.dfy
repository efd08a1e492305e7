/** The `@inject` field decorator: validation, then replacing the field's entry in the descriptor. */
module Inject {
  import opened Errors
  import opened Values
  import opened Identifier
  import opened Metadata

  /** `dependencies.filter(val => val.field !== name)` */
  function WithoutField(deps: seq<Dependence>, field: FieldKey): (r: seq<Dependence>)
    ensures forall i :: 0 <= i < |r| ==> r[i].field != field
    ensures forall d :: d in r ==> d in deps
    ensures forall d :: d in deps && d.field != field ==> d in r
    decreases |deps|
  {
    if |deps| == 0 then []
    else if deps[0].field == field then WithoutField(deps[1..], field)
    else [deps[0]] + WithoutField(deps[1..], field)
  }

  /**
   * The effect of one `@inject(id)` on field `field`: the list afterwards holds exactly one entry for
   * the field, the new one, at the end; every entry for another field is still there.
   */
  function AddDependence(deps: seq<Dependence>, field: FieldKey, id: Value): (r: seq<Dependence>)
    ensures |r| > 0 && r[|r| - 1] == Dependence(field, id)
    ensures forall i :: 0 <= i < |r| - 1 ==> r[i].field != field
    ensures forall d :: d in deps && d.field != field ==> d in r
    ensures forall d :: d in r ==> d in deps || d == Dependence(field, id)
  {
    WithoutField(deps, field) + [Dependence(field, id)]
  }

  /** `a` occurs in `b` in the same relative order (greedy matching). */
  ghost predicate SubsequenceOf<T>(a: seq<T>, b: seq<T>)
    decreases |b|
  {
    if |a| == 0 then true
    else if |b| == 0 then false
    else if a[0] == b[0] then SubsequenceOf(a[1..], b[1..])
    else SubsequenceOf(a, b[1..])
  }

  /** Filtering keeps the remaining entries in their original relative order. */
  lemma {:induction false} WithoutFieldKeepsOrder(deps: seq<Dependence>, field: FieldKey)
    ensures SubsequenceOf(WithoutField(deps, field), deps)
    decreases |deps|
  {
    if |deps| > 0 {
      WithoutFieldKeepsOrder(deps[1..], field);
      var rest := WithoutField(deps[1..], field);
      if deps[0].field == field {
        if |rest| > 0 {
          assert rest[0].field != field;
        }
      } else {
        assert WithoutField(deps, field) == [deps[0]] + rest;
        assert ([deps[0]] + rest)[1..] == rest;
      }
    }
  }

  /** Filtering distributes over concatenation. */
  lemma {:induction false} WithoutFieldAppend(a: seq<Dependence>, b: seq<Dependence>, field: FieldKey)
    ensures WithoutField(a + b, field) == WithoutField(a, field) + WithoutField(b, field)
    decreases |a|
  {
    if |a| > 0 {
      assert (a + b)[1..] == a[1..] + b;
      WithoutFieldAppend(a[1..], b, field);
    } else {
      assert a + b == b;
    }
  }

  /** A list with no entry for the field is left as it is. */
  lemma {:induction false} WithoutAbsentField(deps: seq<Dependence>, field: FieldKey)
    requires forall i :: 0 <= i < |deps| ==> deps[i].field != field
    ensures WithoutField(deps, field) == deps
    decreases |deps|
  {
    if |deps| > 0 {
      WithoutAbsentField(deps[1..], field);
    }
  }

  /**
   * Repeated use on one field: the decorator applied last (the outermost) wins outright, as if the
   * inner one had never run.
   */
  lemma LastApplicationWins(deps: seq<Dependence>, field: FieldKey, inner: Value, outer: Value)
    ensures AddDependence(AddDependence(deps, field, inner), field, outer) == AddDependence(deps, field, outer)
  {
    var w := WithoutField(deps, field);
    WithoutFieldAppend(w, [Dependence(field, inner)], field);
    WithoutAbsentField(w, field);
    assert WithoutField([Dependence(field, inner)], field) == [];
  }

  /** Filtering keeps the fields of a list with unique fields unique. */
  lemma {:induction false} WithoutFieldKeepsUnique(deps: seq<Dependence>, field: FieldKey)
    requires UniqueFields(deps)
    ensures UniqueFields(WithoutField(deps, field))
    decreases |deps|
  {
    if |deps| > 0 {
      var rest := deps[1..];
      assert UniqueFields(rest) by {
        forall i, j | 0 <= i < j < |rest| ensures rest[i].field != rest[j].field {
          assert rest[i] == deps[i + 1] && rest[j] == deps[j + 1];
        }
      }
      WithoutFieldKeepsUnique(rest, field);
      if deps[0].field != field {
        var w := WithoutField(rest, field);
        forall k | 0 <= k < |w| ensures w[k].field != deps[0].field {
          assert w[k] in rest;
          var m :| 0 <= m < |rest| && rest[m] == w[k];
          assert rest[m] == deps[m + 1];
        }
      }
    }
  }

  /** Every application of `@inject` keeps at most one entry per field. */
  lemma AddKeepsFieldsUnique(deps: seq<Dependence>, field: FieldKey, id: Value)
    requires UniqueFields(deps)
    ensures UniqueFields(AddDependence(deps, field, id))
  {
    WithoutFieldKeepsUnique(deps, field);
  }

  /**
   * `inject(serviceIdentifier)` applied to a class element: reject unsupported element kinds, a
   * missing identifier, an invalid one and static fields, in that order; otherwise initialise the
   * descriptor and replace this field's entry.
   */
  method Inject(serviceIdentifier: Value, context: DecoratorContext) returns (r: Outcome)
    modifies context.metadata
    ensures context.kind != FieldElement && context.kind != AccessorElement ==>
      r == Fail(KindNotSupported(KindName(context.kind)))
    ensures context.kind == FieldElement || context.kind == AccessorElement ==>
      r == if serviceIdentifier == Undefined then Fail(NoServiceIdentifier)
           else if !IsServiceIdentifier(serviceIdentifier) then Fail(InvalidServiceIdentifier)
           else if context.isStatic then Fail(StaticField)
           else Pass
    ensures r.Fail? ==> context.metadata.descriptor == old(context.metadata.descriptor)
    ensures r.Pass? ==>
      var m := Initialised(old(context.metadata.descriptor));
      context.metadata.descriptor == Some(m.(dependencies := AddDependence(m.dependencies, context.name, serviceIdentifier)))
  {
    if context.kind != FieldElement && context.kind != AccessorElement {
      return Fail(KindNotSupported(KindName(context.kind)));
    }
    if serviceIdentifier == Undefined {
      return Fail(NoServiceIdentifier);
    }
    if !IsServiceIdentifier(serviceIdentifier) {
      return Fail(InvalidServiceIdentifier);
    }
    if context.isStatic {
      return Fail(StaticField);
    }
    CheckAndInitContextMetadata(context);
    var m := context.metadata.descriptor.value;
    var dependencies := AddDependence(m.dependencies, context.name, serviceIdentifier);
    context.metadata.descriptor := Some(m.(dependencies := dependencies));
    r := Pass;
  }
}
