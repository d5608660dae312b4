/** `compileParameterList`: which token runs it accepts, what it builds from
    them, and where it stops. */
module ParameterListLemmas {
  import opened Trees
  import opened Lookahead
  import opened Grammar

  /** The token runs the loop accepts: groups of a keyword and an identifier,
      each followed by an optional `,`. */
  predicate ParamTokens(c: seq<Token>)
    decreases |c|
  {
    c == [] ||
    (|c| >= 2 && c[0].kind == "keyword" && c[1].kind == "identifier" &&
     if |c| >= 3 && c[2] == Sym(",") then ParamTokens(c[3..]) else ParamTokens(c[2..]))
  }

  /** What a successful loop leaves: it consumed an accepted run and added
      exactly those tokens, in order, to the children it started with. */
  predicate ConsumedRun(ts: seq<Token>, acc: seq<Child>, s: Step<seq<Child>>)
  {
    s.result.Ok? ==>
      var n := |ts| - |s.rest|;
      && 0 <= n <= |ts|
      && ts == ts[..n] + s.rest
      && ParamTokens(ts[..n])
      && s.result.value == acc + Terminals(ts[..n])
  }

  /** One iteration of the loop (a group of `m` tokens) in front of a run
      the rest of the loop consumed is a run the whole loop consumed. */
  lemma ExtendRun(ts: seq<Token>, m: nat, acc: seq<Child>, s: Step<seq<Child>>)
    requires m == 2 || m == 3
    requires |ts| >= m && ts[0].kind == "keyword" && ts[1].kind == "identifier"
    requires m == 3 ==> ts[2] == Sym(",")
    requires m == 2 ==> |ts| > 2 && ts[2] != Sym(",")
    requires ConsumedRun(ts[m..], acc + Terminals(ts[..m]), s)
    ensures ConsumedRun(ts, acc, s)
  {
    if s.result.Ok? {
      var n := |ts| - |s.rest|;
      ExtendRunSplit(ts, m, acc, s);
      ExtendRunValue(ts, m, acc, s);
      var c := ts[..n];
      assert c[m..] == ts[m..][..n - m];
      ParamTokensCons(c, m);
    }
  }

  lemma ExtendRunSplit(ts: seq<Token>, m: nat, acc: seq<Child>, s: Step<seq<Child>>)
    requires |ts| >= m
    requires ConsumedRun(ts[m..], acc + Terminals(ts[..m]), s) && s.result.Ok?
    ensures m <= |ts| - |s.rest| <= |ts| && ts == ts[..|ts| - |s.rest|] + s.rest
  {
    var tail := ts[m..];
    var n := |ts| - |s.rest|;
    assert ts == ts[..n] + s.rest by {
      assert tail == tail[..n - m] + s.rest;
    }
  }

  lemma ExtendRunValue(ts: seq<Token>, m: nat, acc: seq<Child>, s: Step<seq<Child>>)
    requires |ts| >= m
    requires ConsumedRun(ts[m..], acc + Terminals(ts[..m]), s) && s.result.Ok?
    ensures s.result.value == acc + Terminals(ts[..|ts| - |s.rest|])
  {
    var tail := ts[m..];
    var n' := |tail| - |s.rest|;
    var c := ts[..n' + m];
    assert c[..m] == ts[..m];
    assert c[m..] == tail[..n'];
    calc {
      s.result.value;
      (acc + Terminals(ts[..m])) + Terminals(tail[..n']);
      acc + (Terminals(c[..m]) + Terminals(c[m..]));
      { TerminalsAppend(c[..m], c[m..]); assert c == c[..m] + c[m..]; }
      acc + Terminals(c);
    }
  }

  /** An accepted run after one keyword-identifier group (and its `,` when
      `m` is 3) is an accepted run. */
  lemma ParamTokensCons(c: seq<Token>, m: nat)
    requires m == 2 || m == 3
    requires |c| >= m && c[0].kind == "keyword" && c[1].kind == "identifier"
    requires m == 3 ==> c[2] == Sym(",")
    requires m == 2 && |c| > 2 ==> c[2] != Sym(",")
    requires ParamTokens(c[m..])
    ensures ParamTokens(c)
  {
  }

  lemma {:induction false} ParamLoopSound(ts: seq<Token>, acc: seq<Child>)
    ensures ConsumedRun(ts, acc, ParamLoop(ts, acc))
    decreases |ts|
  {
    if ParamLoop(ts, acc).result.Ok? {
      ParamLoopOkGroup(ts, acc);
      if ts[0] == Sym(")") {
        ParamLoopClosed(ts, acc);
      } else {
        var m := GroupLength(ts);
        ParamLoopSound(ts[m..], acc + Terminals(ts[..m]));
        ParamLoopSoundStep(ts, acc);
      }
    }
  }

  /** With `)` current the loop stops at once, leaving the children as they
      were. */
  lemma ParamLoopClosed(ts: seq<Token>, acc: seq<Child>)
    requires ts != [] && ts[0] == Sym(")")
    ensures ParamLoop(ts, acc) == Step(Ok(acc), ts)
    ensures ConsumedRun(ts, acc, ParamLoop(ts, acc))
  {
    assert ts[..0] == [] && ts == [] + ts;
  }

  /** The inductive step of `ParamLoopSound`: one group in front of a run the
      rest of the loop consumed. */
  lemma ParamLoopSoundStep(ts: seq<Token>, acc: seq<Child>)
    requires |ts| >= 3 && ts[0].kind == "keyword" && ts[1].kind == "identifier"
    requires ConsumedRun(ts[GroupLength(ts)..], acc + Terminals(ts[..GroupLength(ts)]),
                         ParamLoop(ts[GroupLength(ts)..], acc + Terminals(ts[..GroupLength(ts)])))
    ensures ConsumedRun(ts, acc, ParamLoop(ts, acc))
  {
    var m := GroupLength(ts);
    ParamLoopGroup(ts, acc);
    ExtendRun(ts, m, acc, ParamLoop(ts[m..], acc + Terminals(ts[..m])));
  }

  /** A loop that succeeds without `)` current starts with a keyword, an
      identifier and one more token. */
  lemma ParamLoopOkGroup(ts: seq<Token>, acc: seq<Child>)
    requires ParamLoop(ts, acc).result.Ok?
    ensures ts != []
    ensures ts[0] != Sym(")") ==> |ts| >= 3 && ts[0].kind == "keyword" && ts[1].kind == "identifier"
  {
    if ts != [] && ts[0] != Sym(")") {
      var pair := Then(Then(Step(Ok(acc), ts), Some("keyword"), None), Some("identifier"), None);
      assert pair.result.Ok?;
      assert pair.rest == ts[2..];
    }
  }

  /** One iteration of the loop on a keyword and an identifier: it takes them,
      and the `,` after them when there is one, and goes on with the rest. */
  lemma ParamLoopGroup(ts: seq<Token>, acc: seq<Child>)
    requires |ts| >= 3 && ts[0].kind == "keyword" && ts[1].kind == "identifier"
    ensures ParamLoop(ts, acc) == ParamLoop(ts[GroupLength(ts)..], acc + Terminals(ts[..GroupLength(ts)]))
  {
    var p1 := Then(Step(Ok(acc), ts), Some("keyword"), None);
    assert p1 == Step(Ok(acc + [Terminal(ts[0])]), ts[1..]);
    var pair := Then(p1, Some("identifier"), None);
    assert p1.rest[0] == ts[1] && p1.rest[1..] == ts[2..];
    assert pair.result.value == acc + [Terminal(ts[0])] + [Terminal(ts[1])];
    assert Terminals(ts[..2]) == [Terminal(ts[0]), Terminal(ts[1])];
    assert acc + [Terminal(ts[0])] + [Terminal(ts[1])] == acc + Terminals(ts[..2]);
    assert pair == Step(Ok(acc + Terminals(ts[..2])), ts[2..]);
    if ts[2] == Sym(",") {
      assert Terminals(ts[..3]) == Terminals(ts[..2]) + [Terminal(ts[2])];
      assert acc + Terminals(ts[..2]) + [Terminal(ts[2])] == acc + Terminals(ts[..3]);
      assert ts[2..][1..] == ts[3..];
      assert Then(pair, Some("symbol"), Some(",")) == Step(Ok(acc + Terminals(ts[..3])), ts[3..]);
    }
  }

  /** How many tokens the first group of a non-empty run takes: a keyword, an
      identifier, and the `,` after them when there is one. */
  function GroupLength(c: seq<Token>): (m: nat)
    ensures m == 2 || m == 3
  {
    if |c| >= 3 && c[2] == Sym(",") then 3 else 2
  }

  lemma ParamTokensTail(c: seq<Token>)
    requires ParamTokens(c) && c != []
    ensures |c| >= GroupLength(c) && c[0].kind == "keyword" && c[1].kind == "identifier"
    ensures ParamTokens(c[GroupLength(c)..])
  {
  }

  lemma AppendTerminalsSplit(acc: seq<Child>, c: seq<Token>, m: nat)
    requires m <= |c|
    ensures acc + Terminals(c[..m]) + Terminals(c[m..]) == acc + Terminals(c)
  {
    assert c[..m] + c[m..] == c;
    TerminalsAppend(c[..m], c[m..]);
  }

  /** `ParamLoopGroup` on a group that lies in front of other tokens. */
  lemma ParamLoopGroupBefore(c: seq<Token>, r: seq<Token>, acc: seq<Child>)
    requires |c| >= GroupLength(c) && c[0].kind == "keyword" && c[1].kind == "identifier"
    requires r != [] && r[0] == Sym(")")
    ensures ParamLoop(c + r, acc) == ParamLoop(c[GroupLength(c)..] + r, acc + Terminals(c[..GroupLength(c)]))
  {
    var ts := c + r;
    var m := GroupLength(c);
    assert GroupLength(ts) == m by {
      if |c| == 2 { assert ts[2] == r[0]; }
    }
    ParamLoopGroup(ts, acc);
    assert ts[..m] == c[..m];
    assert ts[m..] == c[m..] + r;
  }

  /** Conversely, the loop accepts every such run when `)` follows it, and stops
      at that `)` without consuming it. */
  lemma {:induction false} ParamLoopComplete(c: seq<Token>, r: seq<Token>, acc: seq<Child>)
    requires ParamTokens(c) && r != [] && r[0] == Sym(")")
    ensures ParamLoop(c + r, acc) == Step(Ok(acc + Terminals(c)), r)
    decreases |c|
  {
    if c == [] {
      assert c + r == r;
      assert acc + Terminals(c) == acc;
    } else {
      ParamTokensTail(c);
      var m := GroupLength(c);
      calc {
        ParamLoop(c + r, acc);
        { ParamLoopGroupBefore(c, r, acc); }
        ParamLoop(c[m..] + r, acc + Terminals(c[..m]));
        { ParamLoopComplete(c[m..], r, acc + Terminals(c[..m])); }
        Step(Ok(acc + Terminals(c[..m]) + Terminals(c[m..])), r);
        { AppendTerminalsSplit(acc, c, m); }
        Step(Ok(acc + Terminals(c)), r);
      }
    }
  }

  /** With `)` following, `compileParameterList` succeeds on a run of tokens,
      returning a `parameterList` node of exactly those tokens and leaving `)`
      current, if and only if the run is one `ParamTokens` accepts. */
  lemma ParameterListAccepts(c: seq<Token>, r: seq<Token>)
    requires r != [] && r[0] == Sym(")")
    ensures ParameterList(c + r) == Step(Ok(ParseTree("parameterList", Terminals(c))), r) <==> ParamTokens(c)
  {
    if ParamTokens(c) {
      ParamLoopComplete(c, r, []);
      assert [] + Terminals(c) == Terminals(c);
    }
    ParamLoopSound(c + r, []);
    if ParameterList(c + r) == Step(Ok(ParseTree("parameterList", Terminals(c))), r) {
      assert (c + r)[..|c + r| - |r|] == c;
    }
  }

  /** On every success the node holds exactly the consumed tokens, those form
      an accepted run, and `)` is current. */
  lemma ParameterListSound(ts: seq<Token>)
    ensures var s := ParameterList(ts);
            s.result.Ok? ==>
              var n := |ts| - |s.rest|;
              && s.result.value == ParseTree("parameterList", Terminals(ts[..n]))
              && ParamTokens(ts[..n])
              && Yield(s.result.value) + s.rest == ts
              && s.rest != [] && s.rest[0] == Sym(")")
  {
    var s := ParamLoop(ts, []);
    ParamLoopSound(ts, []);
    if s.result.Ok? {
      var n := |ts| - |s.rest|;
      assert [] + Terminals(ts[..n]) == Terminals(ts[..n]);
      YieldOfTerminals(ts[..n]);
    }
  }

  /** With `)` current the loop does not run: an empty `parameterList` node and
      nothing consumed. */
  lemma ParameterListEmpty(ts: seq<Token>)
    requires ts != [] && ts[0] == Sym(")")
    ensures ParameterList(ts) == Step(Ok(ParseTree("parameterList", [])), ts)
  {
    ParamLoopComplete([], ts, []);
    assert [] + ts == ts;
  }

  /** Each iteration consumes a keyword and an identifier or raises: a keyword
      not followed by an identifier stops the rule with "Error Subroutine Params"
      after the keyword was consumed. */
  lemma ParameterListMissingName(ts: seq<Token>)
    requires |ts| >= 2 && ts[0].kind == "keyword" && ts[1].kind != "identifier"
    ensures ParameterList(ts) == Step(Raise(ParseException(ParamsError)), ts[1..])
  {
  }

  /** The loop only ever raises what `mustBe` and `have` raise: a
      `ParseException` or, on running out of tokens, `IndexError`. */
  lemma {:induction false} ParamLoopFailures(ts: seq<Token>, acc: seq<Child>)
    ensures var s := ParamLoop(ts, acc);
            s.result.Raise? ==> s.result.failure.ParseException? || s.result.failure == IndexError
    decreases |ts|
  {
    match Have(ts, Some("symbol"), Some(")"))
    case Raise(_) =>
    case Ok(true) =>
    case Ok(false) =>
      var pair := Then(Then(Step(Ok(acc), ts), Some("keyword"), None), Some("identifier"), None);
      match pair.result
      case Raise(_) =>
      case Ok(got) =>
        match Have(pair.rest, Some("symbol"), Some(","))
        case Raise(_) =>
        case Ok(false) =>
          ParamLoopFailures(pair.rest, got);
        case Ok(true) =>
          var comma := Then(pair, Some("symbol"), Some(","));
          match comma.result
          case Raise(_) =>
          case Ok(got') =>
            ParamLoopFailures(comma.rest, got');
  }
}
