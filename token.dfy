/** `Token` wrappers and the test for the three kinds of normal tokens. */
module Token {
  import opened Values

  /** `isNormalToken`: an instance of `Token`, or a value whose `typeof` is 'string' or 'symbol'. */
  predicate IsNormalToken(v: Value)
  {
    v.TokenObj? || v.Str? || v.Sym?
  }

  /** `Token.prototype.toString`: the description the token was built with. */
  function TokenToString(t: Value): string
    requires t.TokenObj?
  {
    t.description
  }

  /** Every string, every symbol and every `Token` is a normal token; nothing callable and no `Lazy` is. */
  lemma NormalTokenKinds(v: Value)
    ensures (v.Str? || v.Sym? || v.TokenObj?) ==> IsNormalToken(v)
    ensures (IsFunction(v) || v.LazyObj? || IsNullish(v)) ==> !IsNormalToken(v)
  {
  }
}
