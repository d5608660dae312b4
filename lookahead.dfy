/** The lookahead primitives of `CompilerParser` (`current`, `have`, `mustBe`),
    stated over the token list they read. `next` changes the list and lives in
    the parser class; `mustBe` here is the specification its method meets. */
module Lookahead {
  import opened Trees

  /** A token matches an expectation when each given part equals the token's
      part; `None` accepts anything. */
  predicate Matches(t: Token, expectedType: Option<string>, expectedValue: Option<string>)
  {
    (expectedType.None? || t.kind == expectedType.value) &&
    (expectedValue.None? || t.value == expectedValue.value)
  }

  /** `current`: the head of the list. On an empty list the source indexes
      `self.tokens[0]` and raises `IndexError` instead of returning `None`. */
  function Current(ts: seq<Token>): (r: Result<Token>)
    ensures r.Ok? <==> ts != []
    ensures r.Ok? ==> r.value == ts[0]
    ensures r.Raise? ==> r.failure == IndexError
  {
    if ts == [] then Raise(IndexError) else Ok(ts[0])
  }

  /** `have`: whether the current token matches. It reads nothing but the head,
      and it raises `IndexError` (through `current`) on an empty list. */
  function Have(ts: seq<Token>, expectedType: Option<string>, expectedValue: Option<string>): (r: Result<bool>)
    ensures r == Raise(IndexError) <==> ts == []
    ensures r == Ok(true) <==> ts != [] && Matches(ts[0], expectedType, expectedValue)
    ensures r == Ok(false) <==> ts != [] && !Matches(ts[0], expectedType, expectedValue)
  {
    match Current(ts)
    case Raise(f) => Raise(f)
    case Ok(currentToken) =>
      if (expectedType.Some? && currentToken.kind == expectedType.value) || expectedType.None? then
        if (expectedValue.Some? && currentToken.value == expectedValue.value) || expectedValue.None? then
          Ok(true)
        else
          Ok(false)
      else
        Ok(false)
  }

  /** `mustBe`: on a match, the old head is returned and exactly that token is
      consumed; otherwise the call raises and the list is left as it was. */
  function MustBe(ts: seq<Token>, expectedType: Option<string>, expectedValue: Option<string>): (s: Step<Token>)
    ensures s.result.Ok? <==> ts != [] && Matches(ts[0], expectedType, expectedValue)
    ensures s.result.Ok? ==> s.result.value == ts[0] && s.rest == ts[1..]
    ensures s.result.Raise? ==> s.rest == ts
    ensures s.result.Raise? ==>
      s.result.failure == (if ts == [] then IndexError else ParseException("Not Matching"))
  {
    match Have(ts, expectedType, expectedValue)
    case Raise(f) => Step(Raise(f), ts)
    case Ok(true) =>
      (match Current(ts)
       case Ok(currentToken) => Step(Ok(currentToken), ts[1..])
       case Raise(f) => Step(Raise(f), ts))
    case Ok(false) => Step(Raise(ParseException("Not Matching")), ts)
  }
}
