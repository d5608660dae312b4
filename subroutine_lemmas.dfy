/** `compileSubroutineBody` and `compileSubroutine`: the nodes they build, the
    tokens those nodes hold, and the inputs on which the body loop never ends. */
module SubroutineLemmas {
  import opened Trees
  import opened Lookahead
  import opened Grammar
  import opened RuleOutcomes
  import opened ParameterListLemmas

  /** What a successful body loop adds: only `varDec` nodes, after the children
      it started with, holding exactly the tokens it consumed. */
  predicate AddedVarDecs(ts: seq<Token>, acc: seq<Child>, s: Step<seq<Child>>)
  {
    s.result.Ok? ==>
      var cs := s.result.value;
      && |cs| >= |acc|
      && cs[..|acc|] == acc
      && (forall i :: |acc| <= i < |cs| ==> cs[i].Nonterminal? && cs[i].tree.rule == "varDec")
      && YieldAll(cs) + s.rest == YieldAll(acc) + ts
  }

  /** A `varDec` node in front of what the rest of the loop added is what the
      whole loop added. */
  lemma ExtendVarDecs(ts: seq<Token>, acc: seq<Child>, s: Step<seq<Child>>)
    requires |ts| >= 4
    requires AddedVarDecs(ts[4..], acc + [Nonterminal(ParseTree("varDec", Terminals(ts[..4])))], s)
    ensures AddedVarDecs(ts, acc, s)
  {
    if s.result.Ok? {
      var d := ParseTree("varDec", Terminals(ts[..4]));
      var acc' := acc + [Nonterminal(d)];
      var cs := s.result.value;
      assert cs[..|acc|] == cs[..|acc'|][..|acc|];
      assert acc'[..|acc|] == acc;
      assert cs[|acc|] == acc'[|acc|];
      calc {
        YieldAll(cs) + s.rest;
        YieldAll(acc') + ts[4..];
        { YieldAllSnoc(acc, Nonterminal(d)); }
        YieldAll(acc) + YieldAll(Terminals(ts[..4])) + ts[4..];
        { YieldOfTerminals(ts[..4]); }
        YieldAll(acc) + ts[..4] + ts[4..];
        { assert ts[..4] + ts[4..] == ts; }
        YieldAll(acc) + ts;
      }
    }
  }

  lemma {:induction false} BodyLoopSound(ts: seq<Token>, acc: seq<Child>)
    ensures AddedVarDecs(ts, acc, BodyLoop(ts, acc))
    decreases |ts|
  {
    match Have(ts, Some("symbol"), Some("}"))
    case Raise(_) =>
    case Ok(true) =>
    case Ok(false) =>
      if Have(ts, Some("keyword"), Some("var")) == Ok(true) {
        var v := VarDec(ts);
        match v.result
        case Raise(_) =>
        case Ok(d) =>
          VarDecOutcome(ts);
          BodyLoopSound(ts[4..], acc + [Nonterminal(d)]);
          ExtendVarDecs(ts, acc, BodyLoop(ts[4..], acc + [Nonterminal(d)]));
      }
  }

  /** `compileSubroutineBody` on success: a `subroutineBody` node whose first
      child is the `{` it consumed and whose other children are `varDec` nodes;
      the closing `}` is current and not consumed, and the node holds exactly the
      consumed tokens. */
  lemma SubroutineBodySound(ts: seq<Token>)
    ensures var s := SubroutineBody(ts);
            s.result.Ok? ==>
              var b := s.result.value;
              && b.rule == "subroutineBody"
              && |b.children| >= 1 && b.children[0] == Terminal(Sym("{")) && ts[0] == Sym("{")
              && (forall i :: 1 <= i < |b.children| ==>
                    b.children[i].Nonterminal? && b.children[i].tree.rule == "varDec")
              && Yield(b) + s.rest == ts
              && s.rest != [] && s.rest[0] == Sym("}")
  {
    var open := Then(Start(ts), Some("symbol"), Some("{"));
    match open.result
    case Raise(_) =>
    case Ok(cs) =>
      assert cs == [Terminal(ts[0])];
      BodyLoopSound(ts[1..], cs);
      assert YieldAll(cs) == [ts[0]] by { YieldAllSnoc([], Terminal(ts[0])); assert [] + cs == cs; }
      assert [ts[0]] + ts[1..] == ts;
  }

  /** The input `{ }`: a one-child node, `}` left current. */
  lemma SubroutineBodyEmpty(more: seq<Token>)
    ensures SubroutineBody([Sym("{"), Sym("}")] + more) ==
      Step(Ok(ParseTree("subroutineBody", [Terminal(Sym("{"))])), [Sym("}")] + more)
  {
    var ts := [Sym("{"), Sym("}")] + more;
    var open := Then(Start(ts), Some("symbol"), Some("{"));
    assert ts[0] == Sym("{") && ts[1..] == [Sym("}")] + more;
    assert open == Step(Ok([] + [Terminal(Sym("{"))]), ts[1..]);
    assert [] + [Terminal(Sym("{"))] == [Terminal(Sym("{"))];
    assert Have(ts[1..], Some("symbol"), Some("}")) == Ok(true);
    assert BodyLoop(ts[1..], [Terminal(Sym("{"))]) == Step(Ok([Terminal(Sym("{"))]), ts[1..]);
  }

  /** After `{`, any token other than `}` and `var` (every statement keyword
      among them) is never consumed: the loop makes no progress. */
  lemma SubroutineBodyStuck(ts: seq<Token>)
    requires |ts| >= 2 && ts[0] == Sym("{") && ts[1] != Sym("}") && ts[1] != Kw("var")
    ensures SubroutineBody(ts) == Step(Raise(Diverges), ts[1..])
  {
    var open := Then(Start(ts), Some("symbol"), Some("{"));
    assert [] + [Terminal(ts[0])] == [Terminal(ts[0])];
    assert open == Step(Ok([Terminal(ts[0])]), ts[1..]);
    assert Have(ts[1..], Some("symbol"), Some("}")) == Ok(false);
    assert Have(ts[1..], Some("keyword"), Some("var")) == Ok(false);
  }

  /** With tokens of the lexer's kinds (never the misspelt "indentifier"), the
      only body `compileSubroutineBody` accepts is the empty one: `{` followed by `}`. */
  lemma LexedBodyIsEmpty(ts: seq<Token>)
    requires forall i :: 0 <= i < |ts| ==> ts[i].kind != "indentifier"
    ensures var s := SubroutineBody(ts);
            s.result.Ok? ==>
              |ts| >= 2 && ts[1] == Sym("}") &&
              s == Step(Ok(ParseTree("subroutineBody", [Terminal(Sym("{"))])), ts[1..])
  {
    var open := Then(Start(ts), Some("symbol"), Some("{"));
    match open.result
    case Raise(_) =>
    case Ok(cs) =>
      var body := ts[1..];
      assert cs == [Terminal(ts[0])] && open.rest == body;
      match Have(body, Some("symbol"), Some("}"))
      case Raise(_) =>
      case Ok(true) =>
      case Ok(false) =>
        if Have(body, Some("keyword"), Some("var")) == Ok(true) {
          VarDecOutcome(body);
          var k := MatchedPrefix(body, VarDecShape);
          assert k < 4;
        }
  }

  /** The `subroutine` node holds exactly the tokens `compileSubroutine` consumed, in order. */
  lemma SubroutineYieldsInput(ts: seq<Token>)
    ensures var s := Subroutine(ts);
            s.result.Ok? ==> Yield(s.result.value) + s.rest == ts
  {
    if Subroutine(ts).result.Ok? {
      SubroutineParts(ts);
      var params := ParameterList(ts[4..]);
      ParameterListYield(ts[4..]);
      var body := SubroutineBody(params.rest[1..]);
      SubroutineBodyYield(params.rest[1..]);
      SubroutineYield(ts, params.result.value, params.rest, body.result.value, body.rest);
    }
  }

  lemma ParameterListYield(ts: seq<Token>)
    ensures var s := ParameterList(ts);
            s.result.Ok? ==> Yield(s.result.value) + s.rest == ts
  {
    ParameterListSound(ts);
  }

  lemma SubroutineBodyYield(ts: seq<Token>)
    ensures var s := SubroutineBody(ts);
            s.result.Ok? ==> Yield(s.result.value) + s.rest == ts
  {
    SubroutineBodySound(ts);
  }

  /** A successful `compileSubroutine` is its four head tokens (keyword,
      keyword, identifier, `(`), then `compileParameterList`, then `)`, then
      `compileSubroutineBody`: a `subroutine` node with exactly those seven
      children in that order. */
  lemma SubroutineParts(ts: seq<Token>)
    requires Subroutine(ts).result.Ok?
    ensures |ts| >= 4
    ensures ts[0].kind == "keyword" && ts[1].kind == "keyword" && ts[2].kind == "identifier" && ts[3] == Sym("(")
    ensures var params := ParameterList(ts[4..]);
            && params.result.Ok? && params.rest != [] && params.rest[0] == Sym(")")
            && var body := SubroutineBody(params.rest[1..]);
            && body.result.Ok?
            && Subroutine(ts) == Step(Ok(ParseTree("subroutine",
                 [Terminal(ts[0]), Terminal(ts[1]), Terminal(ts[2]), Terminal(ts[3]),
                  Nonterminal(params.result.value), Terminal(params.rest[0]), Nonterminal(body.result.value)])), body.rest)
  {
    var head := MustBeEach(Start(ts), SubroutineHeadShape);
    assert head.result.Ok?;
    SubroutineHeadOk(ts);
    var cs := [Terminal(ts[0]), Terminal(ts[1]), Terminal(ts[2]), Terminal(ts[3])];
    assert head == Step(Ok(cs), ts[4..]);
    var params := ParameterList(ts[4..]);
    assert params.result.Ok?;
    var p := params.result.value;
    var close := Then(Step(Ok(cs + [Nonterminal(p)]), params.rest), Some("symbol"), Some(")"));
    assert close == Step(Ok(cs + [Nonterminal(p)] + [Terminal(params.rest[0])]), params.rest[1..]);
    var body := SubroutineBody(params.rest[1..]);
    assert body.result.Ok?;
    assert Subroutine(ts) == Step(Ok(ParseTree("subroutine", close.result.value + [Nonterminal(body.result.value)])), body.rest);
    assert cs + [Nonterminal(p)] + [Terminal(params.rest[0])] + [Nonterminal(body.result.value)] ==
      [Terminal(ts[0]), Terminal(ts[1]), Terminal(ts[2]), Terminal(ts[3]),
       Nonterminal(p), Terminal(params.rest[0]), Nonterminal(body.result.value)];
  }

  /** The head of `compileSubroutine`: on success, its four tokens in order. */
  lemma SubroutineHeadOk(ts: seq<Token>)
    requires MustBeEach(Start(ts), SubroutineHeadShape).result.Ok?
    ensures |ts| >= 4
    ensures ts[0].kind == "keyword" && ts[1].kind == "keyword" && ts[2].kind == "identifier" && ts[3] == Sym("(")
    ensures MustBeEach(Start(ts), SubroutineHeadShape) ==
      Step(Ok([Terminal(ts[0]), Terminal(ts[1]), Terminal(ts[2]), Terminal(ts[3])]), ts[4..])
  {
    MustBeEachOk(ts, SubroutineHeadShape);
    SubroutineHead(ts, Terminals(ts[..4]));
    assert Matches(ts[3], SubroutineHeadShape[3].kind, SubroutineHeadShape[3].value);
  }

  /** The four children `mustBe` adds at the head of a subroutine. */
  lemma SubroutineHead(ts: seq<Token>, cs: seq<Child>)
    requires |ts| >= 4 && cs == Terminals(ts[..4])
    ensures cs == [Terminal(ts[0]), Terminal(ts[1]), Terminal(ts[2]), Terminal(ts[3])]
    ensures YieldAll(cs) == ts[..4]
  {
    YieldOfTerminals(ts[..4]);
  }

  /** The tokens of a subroutine node are its head, its parameters, `)` and its body. */
  lemma SubroutineYield(ts: seq<Token>, p: ParseTree, afterParams: seq<Token>, b: ParseTree, rest: seq<Token>)
    requires |ts| >= 4 && Yield(p) + afterParams == ts[4..] && afterParams != []
    requires Yield(b) + rest == afterParams[1..]
    ensures Yield(ParseTree("subroutine", [Terminal(ts[0]), Terminal(ts[1]), Terminal(ts[2]), Terminal(ts[3]),
                  Nonterminal(p), Terminal(afterParams[0]), Nonterminal(b)])) + rest == ts
  {
    var cs := Terminals(ts[..4]);
    SubroutineHead(ts, cs);
    var cs' := cs + [Nonterminal(p)] + [Terminal(afterParams[0])];
    assert cs' + [Nonterminal(b)] == [Terminal(ts[0]), Terminal(ts[1]), Terminal(ts[2]), Terminal(ts[3]),
                  Nonterminal(p), Terminal(afterParams[0]), Nonterminal(b)];
    YieldAllSnoc(cs, Nonterminal(p));
    YieldAllSnoc(cs + [Nonterminal(p)], Terminal(afterParams[0]));
    YieldAllSnoc(cs', Nonterminal(b));
    calc {
      YieldAll(cs' + [Nonterminal(b)]) + rest;
      YieldAll(cs) + Yield(p) + [afterParams[0]] + Yield(b) + rest;
      { assert [afterParams[0]] + afterParams[1..] == afterParams; }
      ts[..4] + (Yield(p) + afterParams);
      { assert ts[..4] + ts[4..] == ts; }
      ts;
    }
  }

  /** Every failure inside `compileSubroutine` surfaces as "Error Subroutine",
      except running out of tokens (`IndexError`, which is not a
      `ParseException`) and a body loop that never ends. */
  lemma SubroutineFailures(ts: seq<Token>)
    ensures var s := Subroutine(ts);
            s.result.Raise? ==> s.result.failure in {ParseException(SubroutineError), IndexError, Diverges}
  {
    var head := MustBeEach(Start(ts), SubroutineHeadShape);
    match head.result
    case Raise(_) =>
      MustBeEachOutcome([], ts, SubroutineHeadShape);
    case Ok(cs) =>
      var params := ParameterList(ts[4..]);
      match params.result
      case Raise(_) =>
        ParamLoopFailures(ts[4..], []);
      case Ok(p) =>
        var close := Then(Step(Ok(cs + [Nonterminal(p)]), params.rest), Some("symbol"), Some(")"));
        match close.result
        case Raise(_) =>
        case Ok(cs') =>
          BodyFailures(close.rest);
  }

  /** The body loop raises a `ParseException`, `IndexError`, or never ends. */
  lemma {:induction false} BodyLoopFailures(ts: seq<Token>, acc: seq<Child>)
    ensures var s := BodyLoop(ts, acc);
            s.result.Raise? ==> s.result.failure.ParseException? || s.result.failure in {IndexError, Diverges}
    decreases |ts|
  {
    match Have(ts, Some("symbol"), Some("}"))
    case Raise(_) =>
    case Ok(true) =>
    case Ok(false) =>
      if Have(ts, Some("keyword"), Some("var")) == Ok(true) {
        var v := VarDec(ts);
        VarDecOutcome(ts);
        match v.result
        case Raise(_) =>
        case Ok(d) =>
          BodyLoopFailures(v.rest, acc + [Nonterminal(d)]);
      }
  }

  lemma BodyFailures(ts: seq<Token>)
    ensures var s := SubroutineBody(ts);
            s.result.Raise? ==> s.result.failure in {ParseException(BodyError), IndexError, Diverges}
  {
    var open := Then(Start(ts), Some("symbol"), Some("{"));
    match open.result
    case Raise(_) =>
    case Ok(cs) =>
      BodyLoopFailures(open.rest, cs);
  }

  /** Since the body leaves its `}` unconsumed, a successful `compileSubroutine`
      always leaves that `}` current. */
  lemma SubroutineLeavesBrace(ts: seq<Token>)
    ensures var s := Subroutine(ts);
            s.result.Ok? ==> s.rest != [] && s.rest[0] == Sym("}")
  {
    if Subroutine(ts).result.Ok? {
      SubroutineParts(ts);
    }
  }
}
