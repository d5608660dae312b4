/** `compileClass` and `compileProgram`: what the class tree ends up holding,
    where the class loop gets stuck, and why `compileProgram` never succeeds. */
module ClassLemmas {
  import opened Trees
  import opened Lookahead
  import opened Grammar
  import opened SubroutineLemmas

  /** `rest` is what is left of `ts` after some tokens were taken from its front. */
  predicate SuffixOf(rest: seq<Token>, ts: seq<Token>)
  {
    |rest| <= |ts| && ts[|ts| - |rest|..] == rest
  }

  lemma SuffixOfTransitive(a: seq<Token>, b: seq<Token>, c: seq<Token>)
    requires SuffixOf(b, a) && SuffixOf(c, b)
    ensures SuffixOf(c, a)
  {
    assert a[|a| - |c|..] == a[|a| - |b|..][|b| - |c|..];
  }

  /** What a successful class member rule leaves is a proper suffix of what it was given. */
  lemma ClassVarDecLeavesSuffix(ts: seq<Token>)
    ensures var s := ClassVarDec(ts);
            s.result.Ok? ==> SuffixOf(s.rest, ts) && |s.rest| < |ts|
  {
    var s := ClassVarDec(ts);
    if s.result.Ok? {
      assert ts[4..] == ts[|ts| - |s.rest|..];
    }
  }

  lemma SubroutineLeavesSuffix(ts: seq<Token>)
    ensures var s := Subroutine(ts);
            s.result.Ok? ==> SuffixOf(s.rest, ts) && |s.rest| < |ts|
  {
    var s := Subroutine(ts);
    if s.result.Ok? {
      SubroutineYieldsInput(ts);
      assert ts == Yield(s.result.value) + s.rest;
      assert ts[|ts| - |s.rest|..] == s.rest;
    }
  }

  /** The class loop ends only at a `}` it consumes as its last token, and of
      everything it parsed on the way it adds only that `}` to the tree. */
  lemma {:induction false} ClassBodyAddsBrace(root: ParseTree, ts: seq<Token>)
    ensures var s := ClassBody(root, ts);
            s.result.Ok? ==>
              && s.result.value == root.AddChild(Terminal(Sym("}")))
              && SuffixOf(s.rest, ts) && |s.rest| < |ts| && ts[|ts| - |s.rest| - 1] == Sym("}")
    decreases |ts|
  {
    if ClassBody(root, ts).result.Ok? {
      ClassBodyOk(root, ts);
      if ts[0] == Sym("}") {
        assert ts[|ts| - |ts[1..]|..] == ts[1..];
      } else if ts[0] == Kw("static") || ts[0] == Kw("field") {
        ClassBodyAfterVarDec(root, ts);
        var member := ClassVarDec(ts);
        ClassVarDecLeavesSuffix(ts);
        ClassBodyAddsBrace(root, member.rest);
        ClosingBraceCarries(ts, member.rest, ClassBody(root, member.rest).rest);
      } else {
        ClassBodyAfterSubroutine(root, ts);
        var member := Subroutine(ts);
        SubroutineLeavesSuffix(ts);
        ClassBodyAddsBrace(root, member.rest);
        ClosingBraceCarries(ts, member.rest, ClassBody(root, member.rest).rest);
      }
    }
  }

  /** The one token on which the loop stops. */
  lemma ClassBodyOk(root: ParseTree, ts: seq<Token>)
    requires ClassBody(root, ts).result.Ok?
    ensures ts != []
    ensures ts[0] != Sym("}") ==>
      if ts[0] == Kw("static") || ts[0] == Kw("field") then ClassVarDec(ts).result.Ok?
      else (ts[0] == Kw("constructor") || ts[0] == Kw("function") || ts[0] == Kw("method")) && Subroutine(ts).result.Ok?
  {
    if ts != [] && ts[0] != Sym("}") {
      assert ClassBody(root, ts) == ClassMember(root, ts);
    }
  }

  /** After a class variable declaration the loop goes on with what it left. */
  lemma ClassBodyAfterVarDec(root: ParseTree, ts: seq<Token>)
    requires ts != [] && ts[0] != Sym("}") && (ts[0] == Kw("static") || ts[0] == Kw("field"))
    requires ClassVarDec(ts).result.Ok?
    ensures ClassBody(root, ts) == ClassBody(root, ClassVarDec(ts).rest)
  {
  }

  /** After a subroutine the loop goes on with what it left. */
  lemma ClassBodyAfterSubroutine(root: ParseTree, ts: seq<Token>)
    requires ts != [] && ts[0] != Sym("}") && ts[0] != Kw("static") && ts[0] != Kw("field")
    requires ts[0] == Kw("constructor") || ts[0] == Kw("function") || ts[0] == Kw("method")
    requires Subroutine(ts).result.Ok?
    ensures ClassBody(root, ts) == ClassBody(root, Subroutine(ts).rest)
  {
    assert ClassBody(root, ts) == ClassMember(root, ts);
  }

  lemma ClosingBraceCarries(a: seq<Token>, b: seq<Token>, c: seq<Token>)
    requires SuffixOf(b, a) && SuffixOf(c, b) && |c| < |b| && b[|b| - |c| - 1] == Sym("}")
    ensures SuffixOf(c, a) && a[|a| - |c| - 1] == Sym("}")
  {
    SuffixOfTransitive(a, b, c);
    assert a[|a| - |c| - 1] == a[|a| - |b|..][|b| - |c| - 1];
  }

  /** On a token that is neither `}` nor starts a declaration the loop makes
      no progress: nothing is consumed and the tree is left as it was. */
  lemma ClassBodyStuck(root: ParseTree, ts: seq<Token>)
    requires ts != [] && ts[0] != Sym("}")
    requires ts[0] != Kw("static") && ts[0] != Kw("field")
    requires ts[0] != Kw("constructor") && ts[0] != Kw("function") && ts[0] != Kw("method")
    ensures ClassBody(root, ts) == TreeStep(Raise(Diverges), Some(root), ts)
  {
    assert ClassBody(root, ts) == ClassMember(root, ts);
  }

  /** A successful `compileClass` extends the existing tree by exactly four
      children: the synthesized `class` keyword, the class name, `{` and the
      closing `}`. The declarations in between are parsed and discarded. */
  lemma ClassShape(tree: Option<ParseTree>, ts: seq<Token>)
    ensures var s := Class(tree, ts);
            s.result.Ok? ==>
              && tree.Some? && |ts| >= 3 && ts[0].kind == "identifier" && ts[1] == Sym("{")
              && s.result.value == ParseTree(tree.value.rule, tree.value.children +
                   [Terminal(Kw("class")), Terminal(ts[0]), Terminal(Sym("{")), Terminal(Sym("}"))])
              && s.tree == Some(s.result.value)
              && SuffixOf(s.rest, ts) && |s.rest| <= |ts| - 3 && ts[|ts| - |s.rest| - 1] == Sym("}")
  {
    var s := Class(tree, ts);
    if s.result.Ok? {
      var root := tree.value;
      var full := root.AddChild(Terminal(Kw("class"))).AddChild(Terminal(ts[0])).AddChild(Terminal(ts[1]));
      assert s == ClassBody(full, ts[2..]);
      ClassBodyAddsBrace(full, ts[2..]);
      assert ts[2..][|ts[2..]| - |s.rest|..] == ts[|ts| - |s.rest|..];
      assert ts[2..][|ts[2..]| - |s.rest| - 1] == ts[|ts| - |s.rest| - 1];
      assert root.children + [Terminal(Kw("class"))] + [Terminal(ts[0])] + [Terminal(ts[1])] + [Terminal(Sym("}"))] ==
        root.children + [Terminal(Kw("class")), Terminal(ts[0]), Terminal(Sym("{")), Terminal(Sym("}"))];
    }
  }

  /** `compileProgram` tests for `class` without consuming it, so `compileClass`
      then finds the `class` keyword where it expects the class name: every
      call raises and consumes nothing. On an empty list the `IndexError` of
      `current` escapes; otherwise the error is "Not Class", and when the list
      starts with `class` the tree is left as a fresh `class` node holding only
      the synthesized keyword. */
  lemma ProgramNeverSucceeds(tree: Option<ParseTree>, ts: seq<Token>)
    ensures Program(tree, ts) ==
      if ts == [] then TreeStep(Raise(IndexError), tree, ts)
      else if ts[0] == Kw("class") then
        TreeStep(Raise(ParseException(ProgramError)), Some(ParseTree("class", [Terminal(Kw("class"))])), ts)
      else TreeStep(Raise(ParseException(ProgramError)), tree, ts)
  {
    if ts != [] && ts[0] == Kw("class") {
      assert [] + [Terminal(Kw("class"))] == [Terminal(Kw("class"))];
      assert MustBe(ts, Some("identifier"), None) == Step(Raise(ParseException("Not Matching")), ts);
    }
  }

  /** The class in the module's own example, `class MyClass { }`, handed to
      `compileClass` directly (as if `class` had been consumed) with a fresh
      `class` node: a four-child tree and nothing left. */
  lemma EmptyClassParses()
    ensures Class(Some(ParseTree("class", [])), [Ident("MyClass"), Sym("{"), Sym("}")]) ==
      var t := ParseTree("class", [Terminal(Kw("class")), Terminal(Ident("MyClass")), Terminal(Sym("{")), Terminal(Sym("}"))]);
      TreeStep(Ok(t), Some(t), [])
  {
    var ts := [Ident("MyClass"), Sym("{"), Sym("}")];
    var t3 := ParseTree("class", [Terminal(Kw("class")), Terminal(Ident("MyClass")), Terminal(Sym("{"))]);
    assert ts[1..] == [Sym("{"), Sym("}")] && ts[1..][1..] == [Sym("}")];
    assert MustBe(ts, Some("identifier"), None) == Step(Ok(Ident("MyClass")), ts[1..]);
    assert MustBe(ts[1..], Some("symbol"), Some("{")) == Step(Ok(Sym("{")), [Sym("}")]);
    var root := ParseTree("class", []);
    assert root.AddChild(Terminal(Kw("class"))).AddChild(Terminal(Ident("MyClass"))).AddChild(Terminal(Sym("{"))) == t3;
    assert Class(Some(root), ts) == ClassBody(t3, [Sym("}")]);
    assert MustBe([Sym("}")], Some("symbol"), Some("}")) == Step(Ok(Sym("}")), []);
    assert ClassBody(t3, [Sym("}")]) == TreeStep(Ok(t3.AddChild(Terminal(Sym("}")))), Some(t3.AddChild(Terminal(Sym("}")))), []);
    assert t3.AddChild(Terminal(Sym("}"))) ==
      ParseTree("class", [Terminal(Kw("class")), Terminal(Ident("MyClass")), Terminal(Sym("{")), Terminal(Sym("}"))]);
  }

  /** The module's own example: the token list of `class MyClass { }` given to
      `compileProgram`, which the driver reports as "Error Parsing!". */
  lemma DemoProgramFails()
    ensures Program(None, [Kw("class"), Ident("MyClass"), Sym("{"), Sym("}")]) ==
      TreeStep(Raise(ParseException(ProgramError)), Some(ParseTree("class", [Terminal(Kw("class"))])),
               [Kw("class"), Ident("MyClass"), Sym("{"), Sym("}")])
  {
    ProgramNeverSucceeds(None, [Kw("class"), Ident("MyClass"), Sym("{"), Sym("}")]);
  }

  /** Because the subroutine's `}` is left current, the class loop takes it for
      the class's own `}` and closes the class right after its first
      subroutine: whatever follows (further members, the real closing brace)
      is left unread. */
  lemma SubroutineEndsClass(root: ParseTree, ts: seq<Token>)
    requires ts != [] && (ts[0] == Kw("constructor") || ts[0] == Kw("function") || ts[0] == Kw("method"))
    requires Subroutine(ts).result.Ok?
    ensures var rest := Subroutine(ts).rest;
            rest != [] &&
            ClassBody(root, ts) == TreeStep(Ok(root.AddChild(Terminal(Sym("}")))), Some(root.AddChild(Terminal(Sym("}")))), rest[1..])
  {
    SubroutineLeavesBrace(ts);
    ClassBodyAfterSubroutine(root, ts);
    var rest := Subroutine(ts).rest;
    assert MustBe(rest, Some("symbol"), Some("}")) == Step(Ok(Sym("}")), rest[1..]);
  }
}
