/** What each `compile*` rule of `CompilerParser` does to the token list, as a
    function from the list it starts with to its outcome and the list it leaves.
    A `while` loop of the source is a recursive function with an accumulator
    holding the children added so far. Every rule catches the parser's own
    exception and raises a new one with its own message (`Rewrap`). */
module Grammar {
  import opened Trees
  import opened Lookahead

  const ClassError := "Error creating class tree"
  const ClassVarDecError := "Error ClassVarDec"
  const SubroutineError := "Error Subroutine"
  const ParamsError := "Error Subroutine Params"
  const BodyError := "Error Subroutine Body"
  const VarDecError := "Error Var Dec"
  const ProgramError := "Not Class"

  /** The arguments of one `mustBe(expectedType, expectedValue)` call. */
  datatype Expect = Expect(kind: Option<string>, value: Option<string>)

  /** `compileClassVarDec`: keyword, keyword, identifier, `;`. */
  const ClassVarDecShape: seq<Expect> := [
    Expect(Some("keyword"), None), Expect(Some("keyword"), None),
    Expect(Some("identifier"), None), Expect(Some("symbol"), Some(";"))]

  /** `compileVarDec`: `var`, keyword, a token of kind "indentifier" (sic), `;`. */
  const VarDecShape: seq<Expect> := [
    Expect(Some("keyword"), Some("var")), Expect(Some("keyword"), None),
    Expect(Some("indentifier"), None), Expect(Some("symbol"), Some(";"))]

  /** The first four children of `compileSubroutine`: keyword, keyword, identifier, `(`. */
  const SubroutineHeadShape: seq<Expect> := [
    Expect(Some("keyword"), None), Expect(Some("keyword"), None),
    Expect(Some("identifier"), None), Expect(Some("symbol"), Some("("))]

  /** A node under construction that has no children yet. */
  function Start(ts: seq<Token>): Step<seq<Child>>
  {
    Step(Ok([]), ts)
  }

  /** `node.addChild(self.mustBe(expectedType, expectedValue))`: once a step has
      failed nothing more happens; otherwise the matched token becomes the next child. */
  function Then(s: Step<seq<Child>>, expectedType: Option<string>, expectedValue: Option<string>): (r: Step<seq<Child>>)
    ensures s.result.Raise? ==> r == s
    ensures r.result.Ok? <==> s.result.Ok? && s.rest != [] && Matches(s.rest[0], expectedType, expectedValue)
    ensures r.result.Ok? ==> r.result.value == s.result.value + [Terminal(s.rest[0])] && r.rest == s.rest[1..]
    ensures s.result.Ok? && r.result.Raise? ==> r == Step(Raise(MustBe(s.rest, expectedType, expectedValue).result.failure), s.rest)
  {
    match s.result
    case Raise(_) => s
    case Ok(got) =>
      var m := MustBe(s.rest, expectedType, expectedValue);
      match m.result
      case Ok(t) => Step(Ok(got + [Terminal(t)]), m.rest)
      case Raise(f) => Step(Raise(f), m.rest)
  }

  /** A run of `addChild(mustBe(...))` lines, one per expectation, in order. */
  function MustBeEach(s: Step<seq<Child>>, shape: seq<Expect>): (r: Step<seq<Child>>)
    ensures s.result.Raise? ==> r == s
    ensures |r.rest| <= |s.rest|
    ensures r.result.Ok? ==> |s.rest| >= |shape| && r.rest == s.rest[|shape|..]
    decreases |shape|
  {
    if shape == [] then s else MustBeEach(Then(s, shape[0].kind, shape[0].value), shape[1..])
  }

  /** Four `addChild(mustBe(...))` lines in a row are `MustBeEach` over their four expectations. */
  lemma MustBeEachFour(s: Step<seq<Child>>, shape: seq<Expect>)
    requires |shape| == 4
    ensures MustBeEach(s, shape) ==
      Then(Then(Then(Then(s, shape[0].kind, shape[0].value), shape[1].kind, shape[1].value),
                shape[2].kind, shape[2].value), shape[3].kind, shape[3].value)
  {
    var s1 := Then(s, shape[0].kind, shape[0].value);
    var s2 := Then(s1, shape[1].kind, shape[1].value);
    var s3 := Then(s2, shape[2].kind, shape[2].value);
    var s4 := Then(s3, shape[3].kind, shape[3].value);
    assert MustBeEach(s3, shape[3..]) == MustBeEach(s4, []);
    assert MustBeEach(s2, shape[2..]) == MustBeEach(s3, shape[3..]);
    assert MustBeEach(s1, shape[1..]) == MustBeEach(s2, shape[2..]);
  }

  /** Wraps the children of a finished rule in a node labelled `rule`, or turns
      its failure into the rule's own exception. */
  function Finish(rule: string, s: Step<seq<Child>>, msg: string): Step<ParseTree>
  {
    match s.result
    case Ok(cs) => Step(Ok(ParseTree(rule, cs)), s.rest)
    case Raise(f) => Step(Raise(Rewrap(f, msg)), s.rest)
  }

  /** `compileClassVarDec`. */
  function ClassVarDec(ts: seq<Token>): (s: Step<ParseTree>)
    ensures |s.rest| <= |ts|
    ensures s.result.Ok? ==> |ts| >= 4 && s.rest == ts[4..]
  {
    Finish("classVarDec", MustBeEach(Start(ts), ClassVarDecShape), ClassVarDecError)
  }

  /** `compileVarDec`. */
  function VarDec(ts: seq<Token>): (s: Step<ParseTree>)
    ensures |s.rest| <= |ts|
    ensures s.result.Ok? ==> |ts| >= 4 && s.rest == ts[4..]
  {
    Finish("varDec", MustBeEach(Start(ts), VarDecShape), VarDecError)
  }

  /** The loop of `compileParameterList`: while `)` is not current, a keyword and
      an identifier, then a `,` if one is current. */
  function ParamLoop(ts: seq<Token>, children: seq<Child>): (s: Step<seq<Child>>)
    ensures |s.rest| <= |ts|
    ensures s.result.Ok? ==> s.rest != [] && s.rest[0] == Sym(")")
    decreases |ts|
  {
    match Have(ts, Some("symbol"), Some(")"))
    case Raise(f) => Step(Raise(f), ts)
    case Ok(true) => Step(Ok(children), ts)
    case Ok(false) =>
      var pair := Then(Then(Step(Ok(children), ts), Some("keyword"), None), Some("identifier"), None);
      match pair.result
      case Raise(f) => pair
      case Ok(got) =>
        match Have(pair.rest, Some("symbol"), Some(","))
        case Raise(f) => Step(Raise(f), pair.rest)
        case Ok(false) => ParamLoop(pair.rest, got)
        case Ok(true) =>
          var comma := Then(pair, Some("symbol"), Some(","));
          match comma.result
          case Raise(f) => comma
          case Ok(got') => ParamLoop(comma.rest, got')
  }

  /** `compileParameterList`. */
  function ParameterList(ts: seq<Token>): (s: Step<ParseTree>)
    ensures |s.rest| <= |ts|
    ensures s.result.Ok? ==> s.rest != [] && s.rest[0] == Sym(")")
  {
    Finish("parameterList", ParamLoop(ts, []), ParamsError)
  }

  /** The loop of `compileSubroutineBody`: while `}` is not current, a `var`
      declaration; any other token (a statement keyword, for which the stub
      `compileStatements` consumes nothing, or anything else) is never consumed,
      so the source repeats that iteration forever. */
  function BodyLoop(ts: seq<Token>, children: seq<Child>): (s: Step<seq<Child>>)
    ensures |s.rest| <= |ts|
    ensures s.result.Ok? ==> s.rest != [] && s.rest[0] == Sym("}")
    decreases |ts|
  {
    match Have(ts, Some("symbol"), Some("}"))
    case Raise(f) => Step(Raise(f), ts)
    case Ok(true) => Step(Ok(children), ts)
    case Ok(false) =>
      if Have(ts, Some("keyword"), Some("var")) == Ok(true) then
        var v := VarDec(ts);
        match v.result
        case Raise(f) => Step(Raise(f), v.rest)
        case Ok(d) => BodyLoop(v.rest, children + [Nonterminal(d)])
      else
        Step(Raise(Diverges), ts)
  }

  /** `compileSubroutineBody`: `{`, then the loop; the closing `}` is left current. */
  function SubroutineBody(ts: seq<Token>): (s: Step<ParseTree>)
    ensures |s.rest| <= |ts|
    ensures s.result.Ok? ==> |s.rest| < |ts| && s.rest != [] && s.rest[0] == Sym("}")
  {
    var open := Then(Start(ts), Some("symbol"), Some("{"));
    match open.result
    case Raise(_) => Finish("subroutineBody", open, BodyError)
    case Ok(cs) => Finish("subroutineBody", BodyLoop(open.rest, cs), BodyError)
  }

  /** `compileSubroutine`. */
  function Subroutine(ts: seq<Token>): (s: Step<ParseTree>)
    ensures |s.rest| <= |ts|
    ensures s.result.Ok? ==> |s.rest| < |ts|
  {
    var head := MustBeEach(Start(ts), SubroutineHeadShape);
    match head.result
    case Raise(f) => Step(Raise(Rewrap(f, SubroutineError)), head.rest)
    case Ok(cs) =>
      var params := ParameterList(head.rest);
      match params.result
      case Raise(f) => Step(Raise(Rewrap(f, SubroutineError)), params.rest)
      case Ok(p) =>
        var close := Then(Step(Ok(cs + [Nonterminal(p)]), params.rest), Some("symbol"), Some(")"));
        match close.result
        case Raise(f) => Step(Raise(Rewrap(f, SubroutineError)), close.rest)
        case Ok(cs') =>
          var body := SubroutineBody(close.rest);
          match body.result
          case Raise(f) => Step(Raise(Rewrap(f, SubroutineError)), body.rest)
          case Ok(b) => Step(Ok(ParseTree("subroutine", cs' + [Nonterminal(b)])), body.rest)
  }

  /** The outcome of a rule that also updates `self.tree`. */
  datatype TreeStep = TreeStep(result: Result<ParseTree>, tree: Option<ParseTree>, rest: seq<Token>)

  /** The loop of `compileClass` and its closing `mustBe("symbol", "}")`. The
      declarations it parses are discarded; only the closing brace is added to
      `root`. */
  function ClassBody(root: ParseTree, ts: seq<Token>): (s: TreeStep)
    ensures |s.rest| <= |ts|
    ensures s.tree.Some?
    ensures s.result.Ok? ==> s.tree == Some(s.result.value)
    decreases |ts|, 1
  {
    match Have(ts, Some("symbol"), Some("}"))
    case Raise(f) => TreeStep(Raise(Rewrap(f, ClassError)), Some(root), ts)
    case Ok(false) => ClassMember(root, ts)
    case Ok(true) =>
      var close := MustBe(ts, Some("symbol"), Some("}"));
      match close.result
      case Raise(f) => TreeStep(Raise(Rewrap(f, ClassError)), Some(root), close.rest)
      case Ok(brace) =>
        var done := root.AddChild(Terminal(brace));
        TreeStep(Ok(done), Some(done), close.rest)
  }

  /** One iteration of that loop, when `}` is not current: a class variable
      declaration or a subroutine, whose node is dropped, then the rest of the
      loop. A token that starts no declaration is never consumed, so the source
      repeats that iteration forever. */
  function ClassMember(root: ParseTree, ts: seq<Token>): (s: TreeStep)
    ensures |s.rest| <= |ts|
    ensures s.tree.Some?
    ensures s.result.Ok? ==> s.tree == Some(s.result.value)
    decreases |ts|, 0
  {
    if Have(ts, Some("keyword"), Some("static")) == Ok(true) || Have(ts, Some("keyword"), Some("field")) == Ok(true) then
      var member := ClassVarDec(ts);
      match member.result
      case Raise(f) => TreeStep(Raise(Rewrap(f, ClassError)), Some(root), member.rest)
      case Ok(_) => ClassBody(root, member.rest)
    else if Have(ts, Some("keyword"), Some("constructor")) == Ok(true) ||
            Have(ts, Some("keyword"), Some("function")) == Ok(true) ||
            Have(ts, Some("keyword"), Some("method")) == Ok(true) then
      var member := Subroutine(ts);
      match member.result
      case Raise(f) => TreeStep(Raise(Rewrap(f, ClassError)), Some(root), member.rest)
      case Ok(_) => ClassBody(root, member.rest)
    else
      TreeStep(Raise(Diverges), Some(root), ts)
  }

  /** `compileClass`, which extends `self.tree`: a synthesized `class` keyword
      token, then an identifier and `{` taken from the list, then the body. */
  function Class(tree: Option<ParseTree>, ts: seq<Token>): (s: TreeStep)
    ensures |s.rest| <= |ts|
    ensures s.tree.Some? <==> tree.Some?
    ensures s.result.Ok? ==> s.tree == Some(s.result.value)
  {
    match tree
    case None => TreeStep(Raise(AttributeError), tree, ts)
    case Some(root) =>
      var withKeyword := root.AddChild(Terminal(Kw("class")));
      var name := MustBe(ts, Some("identifier"), None);
      match name.result
      case Raise(f) => TreeStep(Raise(Rewrap(f, ClassError)), Some(withKeyword), name.rest)
      case Ok(id) =>
        var withName := withKeyword.AddChild(Terminal(id));
        var open := MustBe(name.rest, Some("symbol"), Some("{"));
        match open.result
        case Raise(f) => TreeStep(Raise(Rewrap(f, ClassError)), Some(withName), open.rest)
        case Ok(brace) => ClassBody(withName.AddChild(Terminal(brace)), open.rest)
  }

  /** `compileProgram`. It tests for `class` without consuming it, sets
      `self.tree` to a fresh `class` node and appends to it what `compileClass`
      returns (that same node: here a copy of it, see `Class`). */
  function Program(tree: Option<ParseTree>, ts: seq<Token>): TreeStep
  {
    match Have(ts, Some("keyword"), Some("class"))
    case Raise(f) => TreeStep(Raise(Rewrap(f, ProgramError)), tree, ts)
    case Ok(false) => TreeStep(Raise(Rewrap(ParseException("Error Program"), ProgramError)), tree, ts)
    case Ok(true) =>
      var c := Class(Some(ParseTree("class", [])), ts);
      match c.result
      case Raise(f) => TreeStep(Raise(Rewrap(f, ProgramError)), c.tree, c.rest)
      case Ok(root) =>
        var appended := root.AddChild(Nonterminal(root));
        TreeStep(Ok(appended), Some(appended), c.rest)
  }
}
