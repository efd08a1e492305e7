/** Service identifiers: how they are recognised and how they print in error messages. */
module Identifier {
  import opened Values
  import opened Token

  /** `isConstructor`: anything whose `typeof` is 'function'. */
  predicate IsConstructor(v: Value)
  {
    IsFunction(v)
  }

  /** `isServiceIdentifier`: a normal token, a function or a `Lazy` wrapper. */
  predicate IsServiceIdentifier(v: Value)
  {
    IsNormalToken(v) || IsConstructor(v) || v.LazyObj?
  }

  /**
   * The values whose name can be printed without running user code: `undefined.toString()` and
   * `null.toString()` throw, and a proxy handle would forward `toString` to its lazily built target.
   */
  predicate Printable(v: Value)
  {
    !IsNullish(v) && !v.Proxy?
  }

  /** `serviceIdentifierName`: the text used for `v` in every error message. */
  function ServiceIdentifierName(v: Value): string
    requires Printable(v)
  {
    if v.TokenObj? then "Token(" + TokenToString(v) + ")"
    else if IsConstructor(v) then v.name
    else if v.Str? then "String(" + v.s + ")"
    else match v
      case Sym(_, desc) => "Symbol(" + desc + ")"
      case Bool(b) => if b then "true" else "false"
      case Num(n) => IntToString(n)
      case _ => "[object Object]"
  }

  /**
   * The printed names of normal tokens keep their kind and their text apart: a string, a symbol
   * and a `Token` never print alike, and two of one kind print alike only with equal text.
   */
  lemma {:induction false} NormalTokenNamesKeepKind(a: Value, b: Value)
    requires IsNormalToken(a) && IsNormalToken(b)
    requires ServiceIdentifierName(a) == ServiceIdentifierName(b)
    ensures a.Str? <==> b.Str?
    ensures a.Sym? <==> b.Sym?
    ensures a.TokenObj? <==> b.TokenObj?
    ensures a.Str? ==> a.s == b.s
    ensures a.Sym? ==> a.desc == b.desc
    ensures a.TokenObj? ==> a.description == b.description
  {
    var n := ServiceIdentifierName(a);
    assert n == ServiceIdentifierName(b);
    assert n[0] == (if a.TokenObj? then 'T' else 'S');
    assert n[0] == (if b.TokenObj? then 'T' else 'S');
    assert !a.TokenObj? ==> n[1] == (if a.Str? then 't' else 'y');
    assert !b.TokenObj? ==> n[1] == (if b.Str? then 't' else 'y');
    var text := if a.TokenObj? then a.description else if a.Str? then a.s else a.desc;
    var prefix := if a.TokenObj? then 6 else 7;
    assert n == n[..prefix] + text + ")";
    assert n[prefix..|n| - 1] == text;
    if b.Str? {
      assert n == "String(" + b.s + ")";
      assert n[prefix..|n| - 1] == b.s;
    } else if b.Sym? {
      assert n == "Symbol(" + b.desc + ")";
      assert n[prefix..|n| - 1] == b.desc;
    } else {
      assert n == "Token(" + b.description + ")";
      assert n[prefix..|n| - 1] == b.description;
    }
  }

  /** The names of a sequence of identifiers, in order (the `map` in the chain printers). */
  function Names(ids: seq<Value>): (r: seq<string>)
    requires forall i :: 0 <= i < |ids| ==> Printable(ids[i])
    ensures |r| == |ids|
    ensures forall i :: 0 <= i < |ids| ==> r[i] == ServiceIdentifierName(ids[i])
  {
    seq(|ids|, i requires 0 <= i < |ids| => ServiceIdentifierName(ids[i]))
  }

  /** `names.join(' -> ')` */
  function JoinArrows(names: seq<string>): string
  {
    if |names| == 0 then ""
    else if |names| == 1 then names[0]
    else names[0] + " -> " + JoinArrows(names[1..])
  }

  /** Appending one name to a joined chain adds exactly one separator and that name at the end. */
  lemma {:induction false} JoinArrowsSnoc(names: seq<string>, last: string)
    ensures JoinArrows(names + [last]) == if names == [] then last else JoinArrows(names) + " -> " + last
  {
    if |names| == 0 {
    } else if |names| == 1 {
      assert names + [last] == [names[0], last];
      assert [names[0], last][1..] == [last];
    } else {
      assert (names + [last])[1..] == names[1..] + [last];
      JoinArrowsSnoc(names[1..], last);
    }
  }

  /** Normal tokens, functions and `Lazy` wrappers are three disjoint kinds of identifier. */
  lemma IdentifierKindsDisjoint(v: Value)
    ensures IsNormalToken(v) ==> !IsConstructor(v) && !v.LazyObj?
    ensures IsConstructor(v) ==> !v.LazyObj?
    ensures IsServiceIdentifier(v) ==> Printable(v)
  {
  }
}
