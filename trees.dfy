/** Tokens, parse trees and the parser's exception: the part of the `ParseTree`
    module that `CompilerParser` relies on. A tree is built with a rule name and grows
    only by `addChild`; a token answers `getType()` and `getValue()`. */
module Trees {

  /** Python's `None` where the parser uses it as a wildcard or an empty result. */
  datatype Option<+T> = None | Some(value: T)

  /** A lexical token. `kind` is what `getType()` returns and `value` what
      `getValue()` returns. The parser compares kinds as plain strings, so any
      string is a possible kind here. */
  datatype Token = Token(kind: string, value: string)

  function Kw(v: string): Token { Token("keyword", v) }
  function Sym(v: string): Token { Token("symbol", v) }
  function Ident(v: string): Token { Token("identifier", v) }

  /** A child of a parse tree: a token or a nested tree. */
  datatype Child = Terminal(token: Token) | Nonterminal(tree: ParseTree)

  /** A parse tree node: its rule name and its children in the order they were added. */
  datatype ParseTree = ParseTree(rule: string, children: seq<Child>)
  {
    /** `addChild`: appends one child after the existing ones. */
    function AddChild(c: Child): ParseTree
    {
      ParseTree(rule, children + [c])
    }
  }

  /** How a parser operation can end other than by returning a value. */
  datatype Failure =
    | ParseException(msg: string)  // the parser's own exception, with its message
    | IndexError                   // `self.tokens[0]` on an empty token list
    | AttributeError               // `self.tree` used before `compileProgram` set it
    | Diverges                     // a loop iteration that consumes nothing: the call never returns

  datatype Result<+T> = Ok(value: T) | Raise(failure: Failure)

  /** The outcome of an operation together with the token list it leaves behind. */
  datatype Step<+T> = Step(result: Result<T>, rest: seq<Token>)

  /** `except ParseException: raise ParseException(msg)`: the parser's own exception
      is replaced by one with the rule's message; Python errors pass through. */
  function Rewrap(f: Failure, msg: string): Failure
  {
    if f.ParseException? then ParseException(msg) else f
  }

  /** The tokens of a tree read left to right (its frontier). */
  function Yield(t: ParseTree): seq<Token>
    decreases t
  {
    YieldAll(t.children)
  }

  function YieldAll(cs: seq<Child>): seq<Token>
    decreases cs
  {
    if cs == [] then [] else YieldAll(cs[..|cs| - 1]) + YieldChild(cs[|cs| - 1])
  }

  function YieldChild(c: Child): seq<Token>
    decreases c
  {
    match c
    case Terminal(t) => [t]
    case Nonterminal(t) => Yield(t)
  }

  /** One terminal child per token, in order. */
  function Terminals(ts: seq<Token>): (cs: seq<Child>)
    ensures |cs| == |ts| && forall i :: 0 <= i < |ts| ==> cs[i] == Terminal(ts[i])
  {
    seq(|ts|, i requires 0 <= i < |ts| => Terminal(ts[i]))
  }

  lemma YieldAllSnoc(cs: seq<Child>, c: Child)
    ensures YieldAll(cs + [c]) == YieldAll(cs) + YieldChild(c)
  {
    assert (cs + [c])[..|cs|] == cs;
  }

  lemma {:induction false} YieldOfTerminals(ts: seq<Token>)
    ensures YieldAll(Terminals(ts)) == ts
    decreases |ts|
  {
    if ts != [] {
      var init := ts[..|ts| - 1];
      YieldOfTerminals(init);
      assert Terminals(ts)[..|ts| - 1] == Terminals(init);
      assert init + [ts[|ts| - 1]] == ts;
    }
  }

  lemma TerminalsAppend(a: seq<Token>, b: seq<Token>)
    ensures Terminals(a + b) == Terminals(a) + Terminals(b)
  {
  }
}
