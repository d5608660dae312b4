/** The recursive-descent parser `CompilerParser`. It owns the token list it
    consumes from the front (`tokens`) and the tree `compileProgram` builds
    (`tree`, unset until then). Every method is proved to end exactly as the
    corresponding function of `Grammar` says: same outcome, same tokens left,
    same tree. */
module Parser {
  import opened Trees
  import Lookahead
  import Grammar
  import ClassLemmas

  class CompilerParser {
    var tokens: seq<Token>
    var tree: Option<ParseTree>

    constructor (tokens: seq<Token>)
      ensures this.tokens == tokens && tree == None
    {
      this.tokens := tokens;
      tree := None;
    }

    /** `next`: drops the head of the list. */
    method Next()
      requires tokens != []
      modifies this`tokens
      ensures tokens == old(tokens)[1..]
    {
      tokens := tokens[1..];
    }

    /** `mustBe`: returns the old head and leaves the old tail, or raises and
        leaves the list as it was. */
    method MustBe(expectedType: Option<string>, expectedValue: Option<string>) returns (r: Result<Token>)
      modifies this`tokens
      ensures Step(r, tokens) == Lookahead.MustBe(old(tokens), expectedType, expectedValue)
      ensures r.Ok? ==> old(tokens) != [] && r.value == old(tokens)[0] && tokens == old(tokens)[1..]
      ensures r.Raise? ==> tokens == old(tokens)
    {
      match Lookahead.Have(tokens, expectedType, expectedValue)
      case Raise(f) =>
        r := Raise(f);
      case Ok(true) =>
        var currentToken := Lookahead.Current(tokens).value;
        Next();
        r := Ok(currentToken);
      case Ok(false) =>
        r := Raise(ParseException("Not Matching"));
    }

    /** `compileProgram`. It never returns a tree: see
        `ClassLemmas.ProgramNeverSucceeds`. */
    method CompileProgram() returns (r: Result<ParseTree>)
      modifies this
      ensures Grammar.TreeStep(r, tree, tokens) == Grammar.Program(old(tree), old(tokens))
      ensures tokens == old(tokens)
      ensures r == Raise(if old(tokens) == [] then IndexError else ParseException(Grammar.ProgramError))
    {
      ClassLemmas.ProgramNeverSucceeds(tree, tokens);
      match Lookahead.Have(tokens, Some("keyword"), Some("class"))
      case Raise(f) =>
        r := Raise(Rewrap(f, Grammar.ProgramError));
      case Ok(false) =>
        r := Raise(Rewrap(ParseException("Error Program"), Grammar.ProgramError));
      case Ok(true) =>
        tree := Some(ParseTree("class", []));
        var c := CompileClass();
        match c
        case Raise(f) =>
          r := Raise(Rewrap(f, Grammar.ProgramError));
        case Ok(root) =>
          // the source appends `self.tree` to itself; here a copy is appended
          tree := Some(root.AddChild(Nonterminal(root)));
          r := Ok(root.AddChild(Nonterminal(root)));
    }

    /** `compileClass`. */
    method CompileClass() returns (r: Result<ParseTree>)
      modifies this
      ensures Grammar.TreeStep(r, tree, tokens) == Grammar.Class(old(tree), old(tokens))
    {
      if tree == None {
        return Raise(AttributeError);
      }
      var root := tree.value.AddChild(Terminal(Kw("class")));
      tree := Some(root);
      var name := MustBe(Some("identifier"), None);
      match name {
        case Raise(f) => return Raise(Rewrap(f, Grammar.ClassError));
        case Ok(id) => root := root.AddChild(Terminal(id));
      }
      tree := Some(root);
      var open := MustBe(Some("symbol"), Some("{"));
      match open {
        case Raise(f) => return Raise(Rewrap(f, Grammar.ClassError));
        case Ok(brace) => root := root.AddChild(Terminal(brace));
      }
      tree := Some(root);

      ghost var target := Grammar.ClassBody(root, tokens);
      var closing := Lookahead.Have(tokens, Some("symbol"), Some("}"));
      while closing == Ok(false)
        invariant closing == Lookahead.Have(tokens, Some("symbol"), Some("}"))
        invariant tree == Some(root)
        invariant Grammar.ClassBody(root, tokens) == target
        decreases |tokens|
      {
        if Lookahead.Have(tokens, Some("keyword"), Some("static")) == Ok(true) ||
           Lookahead.Have(tokens, Some("keyword"), Some("field")) == Ok(true)
        {
          var member := CompileClassVarDec();  // the declaration is discarded
          match member {
            case Raise(f) => return Raise(Rewrap(f, Grammar.ClassError));
            case Ok(_) =>
          }
        } else if Lookahead.Have(tokens, Some("keyword"), Some("constructor")) == Ok(true) ||
                  Lookahead.Have(tokens, Some("keyword"), Some("function")) == Ok(true) ||
                  Lookahead.Have(tokens, Some("keyword"), Some("method")) == Ok(true)
        {
          var member := CompileSubroutine();  // the subroutine is discarded
          match member {
            case Raise(f) => return Raise(Rewrap(f, Grammar.ClassError));
            case Ok(_) =>
          }
        } else {
          // nothing is consumed, so the next iteration is this one again
          return Raise(Diverges);
        }
        closing := Lookahead.Have(tokens, Some("symbol"), Some("}"));
      }
      match closing {
        case Raise(f) => return Raise(Rewrap(f, Grammar.ClassError));
        case Ok(_) =>
      }
      var close := MustBe(Some("symbol"), Some("}"));
      match close {
        case Raise(f) => return Raise(Rewrap(f, Grammar.ClassError));
        case Ok(brace) => root := root.AddChild(Terminal(brace));
      }
      tree := Some(root);
      r := Ok(root);
    }

    /** `compileClassVarDec`. */
    method CompileClassVarDec() returns (r: Result<ParseTree>)
      modifies this`tokens
      ensures Step(r, tokens) == Grammar.ClassVarDec(old(tokens))
    {
      Grammar.MustBeEachFour(Grammar.Start(tokens), Grammar.ClassVarDecShape);
      var classVar := ParseTree("classVarDec", []);
      var t := MustBe(Some("keyword"), None);
      match t {
        case Raise(f) => return Raise(Rewrap(f, Grammar.ClassVarDecError));
        case Ok(k) => classVar := classVar.AddChild(Terminal(k));
      }
      t := MustBe(Some("keyword"), None);
      match t {
        case Raise(f) => return Raise(Rewrap(f, Grammar.ClassVarDecError));
        case Ok(k) => classVar := classVar.AddChild(Terminal(k));
      }
      t := MustBe(Some("identifier"), None);
      match t {
        case Raise(f) => return Raise(Rewrap(f, Grammar.ClassVarDecError));
        case Ok(k) => classVar := classVar.AddChild(Terminal(k));
      }
      t := MustBe(Some("symbol"), Some(";"));
      match t {
        case Raise(f) => return Raise(Rewrap(f, Grammar.ClassVarDecError));
        case Ok(k) => classVar := classVar.AddChild(Terminal(k));
      }
      r := Ok(classVar);
    }

    /** `compileSubroutine`. */
    method CompileSubroutine() returns (r: Result<ParseTree>)
      modifies this`tokens
      ensures Step(r, tokens) == Grammar.Subroutine(old(tokens))
    {
      Grammar.MustBeEachFour(Grammar.Start(tokens), Grammar.SubroutineHeadShape);
      var subroutine := ParseTree("subroutine", []);
      var t := MustBe(Some("keyword"), None);
      match t {
        case Raise(f) => return Raise(Rewrap(f, Grammar.SubroutineError));
        case Ok(k) => subroutine := subroutine.AddChild(Terminal(k));
      }
      t := MustBe(Some("keyword"), None);
      match t {
        case Raise(f) => return Raise(Rewrap(f, Grammar.SubroutineError));
        case Ok(k) => subroutine := subroutine.AddChild(Terminal(k));
      }
      t := MustBe(Some("identifier"), None);
      match t {
        case Raise(f) => return Raise(Rewrap(f, Grammar.SubroutineError));
        case Ok(k) => subroutine := subroutine.AddChild(Terminal(k));
      }
      t := MustBe(Some("symbol"), Some("("));
      match t {
        case Raise(f) => return Raise(Rewrap(f, Grammar.SubroutineError));
        case Ok(k) => subroutine := subroutine.AddChild(Terminal(k));
      }
      var params := CompileParameterList();
      match params {
        case Raise(f) => return Raise(Rewrap(f, Grammar.SubroutineError));
        case Ok(p) => subroutine := subroutine.AddChild(Nonterminal(p));
      }
      t := MustBe(Some("symbol"), Some(")"));
      match t {
        case Raise(f) => return Raise(Rewrap(f, Grammar.SubroutineError));
        case Ok(k) => subroutine := subroutine.AddChild(Terminal(k));
      }
      var body := CompileSubroutineBody();
      match body {
        case Raise(f) => return Raise(Rewrap(f, Grammar.SubroutineError));
        case Ok(b) => subroutine := subroutine.AddChild(Nonterminal(b));
      }
      r := Ok(subroutine);
    }

    /** `compileParameterList`. */
    method CompileParameterList() returns (r: Result<ParseTree>)
      modifies this`tokens
      ensures Step(r, tokens) == Grammar.ParameterList(old(tokens))
    {
      var params := ParseTree("parameterList", []);
      ghost var target := Grammar.ParamLoop(tokens, []);
      var closing := Lookahead.Have(tokens, Some("symbol"), Some(")"));
      while closing == Ok(false)
        invariant closing == Lookahead.Have(tokens, Some("symbol"), Some(")"))
        invariant params.rule == "parameterList"
        invariant Grammar.ParamLoop(tokens, params.children) == target
        decreases |tokens|
      {
        var t := MustBe(Some("keyword"), None);
        match t {
          case Raise(f) => return Raise(Rewrap(f, Grammar.ParamsError));
          case Ok(k) => params := params.AddChild(Terminal(k));
        }
        t := MustBe(Some("identifier"), None);
        match t {
          case Raise(f) => return Raise(Rewrap(f, Grammar.ParamsError));
          case Ok(k) => params := params.AddChild(Terminal(k));
        }
        match Lookahead.Have(tokens, Some("symbol"), Some(",")) {
          case Raise(f) => return Raise(Rewrap(f, Grammar.ParamsError));
          case Ok(false) =>
          case Ok(true) =>
            t := MustBe(Some("symbol"), Some(","));
            match t {
              case Raise(f) => return Raise(Rewrap(f, Grammar.ParamsError));
              case Ok(k) => params := params.AddChild(Terminal(k));
            }
        }
        closing := Lookahead.Have(tokens, Some("symbol"), Some(")"));
      }
      match closing {
        case Raise(f) => return Raise(Rewrap(f, Grammar.ParamsError));
        case Ok(_) =>
      }
      r := Ok(params);
    }

    /** `compileSubroutineBody`. */
    method CompileSubroutineBody() returns (r: Result<ParseTree>)
      modifies this`tokens
      ensures Step(r, tokens) == Grammar.SubroutineBody(old(tokens))
    {
      var body := ParseTree("subroutineBody", []);
      var open := MustBe(Some("symbol"), Some("{"));
      match open {
        case Raise(f) => return Raise(Rewrap(f, Grammar.BodyError));
        case Ok(brace) => body := body.AddChild(Terminal(brace));
      }
      ghost var target := Grammar.BodyLoop(tokens, body.children);
      var closing := Lookahead.Have(tokens, Some("symbol"), Some("}"));
      while closing == Ok(false)
        invariant closing == Lookahead.Have(tokens, Some("symbol"), Some("}"))
        invariant body.rule == "subroutineBody"
        invariant Grammar.BodyLoop(tokens, body.children) == target
        decreases |tokens|
      {
        if Lookahead.Have(tokens, Some("keyword"), Some("var")) == Ok(true) {
          var v := CompileVarDec();
          match v {
            case Raise(f) => return Raise(Rewrap(f, Grammar.BodyError));
            case Ok(d) => body := body.AddChild(Nonterminal(d));
          }
        } else if Lookahead.Have(tokens, Some("keyword"), Some("let")) == Ok(true) ||
                  Lookahead.Have(tokens, Some("keyword"), Some("if")) == Ok(true) ||
                  Lookahead.Have(tokens, Some("keyword"), Some("while")) == Ok(true) ||
                  Lookahead.Have(tokens, Some("keyword"), Some("do")) == Ok(true) ||
                  Lookahead.Have(tokens, Some("keyword"), Some("return")) == Ok(true)
        {
          // the stub returns None and consumes nothing, so the next iteration is this one again
          var statements := CompileStatements();
          return Raise(Diverges);
        } else {
          return Raise(Diverges);
        }
        closing := Lookahead.Have(tokens, Some("symbol"), Some("}"));
      }
      match closing {
        case Raise(f) => return Raise(Rewrap(f, Grammar.BodyError));
        case Ok(_) =>
      }
      r := Ok(body);
    }

    /** `compileVarDec`. */
    method CompileVarDec() returns (r: Result<ParseTree>)
      modifies this`tokens
      ensures Step(r, tokens) == Grammar.VarDec(old(tokens))
    {
      Grammar.MustBeEachFour(Grammar.Start(tokens), Grammar.VarDecShape);
      var varDec := ParseTree("varDec", []);
      var t := MustBe(Some("keyword"), Some("var"));
      match t {
        case Raise(f) => return Raise(Rewrap(f, Grammar.VarDecError));
        case Ok(k) => varDec := varDec.AddChild(Terminal(k));
      }
      t := MustBe(Some("keyword"), None);
      match t {
        case Raise(f) => return Raise(Rewrap(f, Grammar.VarDecError));
        case Ok(k) => varDec := varDec.AddChild(Terminal(k));
      }
      t := MustBe(Some("indentifier"), None);
      match t {
        case Raise(f) => return Raise(Rewrap(f, Grammar.VarDecError));
        case Ok(k) => varDec := varDec.AddChild(Terminal(k));
      }
      t := MustBe(Some("symbol"), Some(";"));
      match t {
        case Raise(f) => return Raise(Rewrap(f, Grammar.VarDecError));
        case Ok(k) => varDec := varDec.AddChild(Terminal(k));
      }
      r := Ok(varDec);
    }

    /** The statement and expression rules are stubs: each returns `None` and
        consumes nothing. */
    method CompileStatements() returns (r: Option<ParseTree>)
      ensures r == None
    {
      r := None;
    }

    method CompileLet() returns (r: Option<ParseTree>)
      ensures r == None
    {
      r := None;
    }

    method CompileIf() returns (r: Option<ParseTree>)
      ensures r == None
    {
      r := None;
    }

    method CompileWhile() returns (r: Option<ParseTree>)
      ensures r == None
    {
      r := None;
    }

    method CompileDo() returns (r: Option<ParseTree>)
      ensures r == None
    {
      r := None;
    }

    method CompileReturn() returns (r: Option<ParseTree>)
      ensures r == None
    {
      r := None;
    }

    method CompileExpression() returns (r: Option<ParseTree>)
      ensures r == None
    {
      r := None;
    }

    method CompileTerm() returns (r: Option<ParseTree>)
      ensures r == None
    {
      r := None;
    }

    method CompileExpressionList() returns (r: Option<ParseTree>)
      ensures r == None
    {
      r := None;
    }
  }
}
