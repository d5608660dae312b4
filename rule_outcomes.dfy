/** The rules made only of `mustBe` calls (`compileClassVarDec`,
    `compileVarDec`, and the first four children of `compileSubroutine`): what
    they consume, the node they build and what they raise. */
module RuleOutcomes {
  import opened Trees
  import opened Lookahead
  import opened Grammar

  /** How many leading tokens match the expectations one by one. */
  function MatchedPrefix(ts: seq<Token>, shape: seq<Expect>): (k: nat)
    ensures k <= |ts| && k <= |shape|
    ensures forall i :: 0 <= i < k ==> Matches(ts[i], shape[i].kind, shape[i].value)
    ensures k < |ts| && k < |shape| ==> !Matches(ts[k], shape[k].kind, shape[k].value)
    decreases |shape|
  {
    if ts == [] || shape == [] || !Matches(ts[0], shape[0].kind, shape[0].value) then 0
    else 1 + MatchedPrefix(ts[1..], shape[1..])
  }

  /** A run of `mustBe` calls consumes the matched prefix and stops there: it
      succeeds when every expectation matched, raises `IndexError` when the list
      ran out first, and raises "Not Matching" at the first mismatch. The tokens
      matched before a failure stay consumed. */
  lemma {:induction false} MustBeEachOutcome(got: seq<Child>, ts: seq<Token>, shape: seq<Expect>)
    ensures var k := MatchedPrefix(ts, shape);
            var s := MustBeEach(Step(Ok(got), ts), shape);
            && s.rest == ts[k..]
            && (k == |shape| ==> s.result == Ok(got + Terminals(ts[..k])))
            && (k < |shape| ==> s.result == Raise(if k == |ts| then IndexError else ParseException("Not Matching")))
    decreases |shape|
  {
    if shape == [] {
      assert ts[..0] == [];
      assert got + Terminals([]) == got;
    } else if ts != [] && Matches(ts[0], shape[0].kind, shape[0].value) {
      var next := got + [Terminal(ts[0])];
      assert MustBeEach(Step(Ok(got), ts), shape) == MustBeEach(Step(Ok(next), ts[1..]), shape[1..]);
      MustBeEachOutcome(next, ts[1..], shape[1..]);
      var k' := MatchedPrefix(ts[1..], shape[1..]);
      assert MatchedPrefix(ts, shape) == 1 + k';
      assert ts[1..][k'..] == ts[1 + k'..];
      TerminalsAfterFirst(got, ts, k');
    }
  }

  /** Children built one token at a time are the children of the whole prefix. */
  lemma TerminalsAfterFirst(got: seq<Child>, ts: seq<Token>, k: nat)
    requires 1 + k <= |ts|
    ensures got + [Terminal(ts[0])] + Terminals(ts[1..][..k]) == got + Terminals(ts[..1 + k])
  {
    assert ts[..1 + k] == [ts[0]] + ts[1..][..k];
    TerminalsAppend([ts[0]], ts[1..][..k]);
  }

  /** On success a run of `mustBe` calls has matched every expectation and
      added exactly the tokens it consumed. */
  lemma MustBeEachOk(ts: seq<Token>, shape: seq<Expect>)
    requires MustBeEach(Start(ts), shape).result.Ok?
    ensures |ts| >= |shape|
    ensures forall i :: 0 <= i < |shape| ==> Matches(ts[i], shape[i].kind, shape[i].value)
    ensures MustBeEach(Start(ts), shape) == Step(Ok(Terminals(ts[..|shape|])), ts[|shape|..])
  {
    MustBeEachOutcome([], ts, shape);
    assert [] + Terminals(ts[..|shape|]) == Terminals(ts[..|shape|]);
  }

  /** A rule made of `mustBe` calls only builds its node from the matched
      prefix or raises its own message. */
  lemma RuleOutcome(ts: seq<Token>, shape: seq<Expect>, rule: string, msg: string)
    ensures var k := MatchedPrefix(ts, shape);
            var s := Finish(rule, MustBeEach(Start(ts), shape), msg);
            && s.rest == ts[k..]
            && (k == |shape| ==> s.result == Ok(ParseTree(rule, Terminals(ts[..k]))))
            && (k < |shape| ==> s.result == Raise(if k == |ts| then IndexError else ParseException(msg)))
  {
    MustBeEachOutcome([], ts, shape);
    assert [] + Terminals(ts[..MatchedPrefix(ts, shape)]) == Terminals(ts[..MatchedPrefix(ts, shape)]);
  }

  /** `compileClassVarDec` consumes exactly the matched prefix of keyword,
      keyword, identifier, `;`. With all four it returns a `classVarDec` node of
      those four tokens in order; otherwise it raises "Error ClassVarDec" (or
      `IndexError` when the list ran out) and the matched tokens stay consumed. */
  lemma ClassVarDecOutcome(ts: seq<Token>)
    ensures var k := MatchedPrefix(ts, ClassVarDecShape);
            var s := ClassVarDec(ts);
            && s.rest == ts[k..]
            && (k == 4 ==> s.result == Ok(ParseTree("classVarDec", Terminals(ts[..4]))))
            && (k < 4 ==> s.result == Raise(if k == |ts| then IndexError else ParseException(ClassVarDecError)))
  {
    RuleOutcome(ts, ClassVarDecShape, "classVarDec", ClassVarDecError);
  }

  /** The same, written out for the success case. */
  lemma ClassVarDecSuccess(ts: seq<Token>)
    ensures ClassVarDec(ts).result.Ok? <==>
      |ts| >= 4 && ts[0].kind == "keyword" && ts[1].kind == "keyword" &&
      ts[2].kind == "identifier" && ts[3] == Sym(";")
    ensures var s := ClassVarDec(ts);
      s.result.Ok? ==>
        && s.result.value == ParseTree("classVarDec", [Terminal(ts[0]), Terminal(ts[1]), Terminal(ts[2]), Terminal(ts[3])])
        && s.rest == ts[4..]
        && Yield(s.result.value) + s.rest == ts
  {
    ClassVarDecOutcome(ts);
    var k := MatchedPrefix(ts, ClassVarDecShape);
    if k == 4 {
      assert Terminals(ts[..4]) == [Terminal(ts[0]), Terminal(ts[1]), Terminal(ts[2]), Terminal(ts[3])];
      YieldOfTerminals(ts[..4]);
      assert ts[..4] + ts[4..] == ts;
    }
  }

  /** `compileVarDec` likewise consumes the matched prefix of `var`, keyword, a
      token of kind "indentifier", `;`, and raises "Error Var Dec" at a mismatch. */
  lemma VarDecOutcome(ts: seq<Token>)
    ensures var k := MatchedPrefix(ts, VarDecShape);
            var s := VarDec(ts);
            && s.rest == ts[k..]
            && (k == 4 ==> s.result == Ok(ParseTree("varDec", Terminals(ts[..4]))))
            && (k < 4 ==> s.result == Raise(if k == |ts| then IndexError else ParseException(VarDecError)))
  {
    RuleOutcome(ts, VarDecShape, "varDec", VarDecError);
  }

  /** Because of the misspelt kind, a declaration whose name the lexer
      classified as an identifier is rejected after `var` and the type have
      been consumed. */
  lemma VarDecRejectsIdentifier(ts: seq<Token>)
    requires |ts| >= 3 && ts[0] == Kw("var") && ts[1].kind == "keyword" && ts[2].kind == "identifier"
    ensures VarDec(ts) == Step(Raise(ParseException(VarDecError)), ts[2..])
  {
    VarDecOutcome(ts);
    assert MatchedPrefix(ts, VarDecShape) == 2 by {
      assert "identifier" != "indentifier" by { assert |"identifier"| != |"indentifier"|; }
      assert Matches(ts[0], VarDecShape[0].kind, VarDecShape[0].value);
      assert Matches(ts[1], VarDecShape[1].kind, VarDecShape[1].value);
      assert !Matches(ts[2], VarDecShape[2].kind, VarDecShape[2].value);
    }
  }
}
