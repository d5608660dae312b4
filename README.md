# CompilerParser, modelled in Dafny

This project models the recursive-descent parser `CompilerParser` of a Jack
compiler (CompilerParser.py). The parser holds a list of tokens, which it
consumes from the front, and the parse tree it is building.

The model follows the code as written, defects included:

- `compileProgram` never consumes `class`, so no program parses.
- `compileClass` drops the declarations it parses.
- `compileVarDec` demands the misspelt token kind `"indentifier"`.
- `compileSubroutineBody` leaves its closing `}` unconsumed.
- Two loops spin forever on tokens they do not handle.
- `current` raises `IndexError` on an empty list.

The model has three layers:

- **Specification functions.** `Lookahead` holds `current`, `have` and
  `mustBe` as functions over a `seq<Token>`. `Grammar` holds one function per
  `compile*` rule. Each returns a `Step`: the outcome plus the tokens left
  over. A `while` loop of the source becomes a recursive function with an
  accumulator.
- **The class.** `Parser.CompilerParser` is a class with the fields `tokens`
  and `tree`. Its methods keep the source's loops, with invariants. Each
  method is proved to end exactly as its `Grammar` function says: same
  outcome, same tokens left over and, for the class rules, same tree.
- **Lemmas.** `RuleOutcomes`, `ParameterListLemmas`, `SubroutineLemmas` and
  `ClassLemmas` prove what those functions promise. This covers:
  - how many tokens each rule consumes, and that consumed tokens are not given back;
  - the order of the children;
  - the tokens a node holds (its `Yield`), so node plus leftovers gives back the input;
  - where each loop stops, and where it never ends;
  - that no program parses.

An operation ends in one of two ways: `Ok(value)` or `Raise(failure)`. A
failure is one of:

- `ParseException(msg)`: the parser's own exception.
- `IndexError`: `current` was called on an empty list.
- `AttributeError`: `compileClass` ran while `self.tree` was unset. The
  constructor never sets it.
- `Diverges`: a loop iteration that consumes nothing. The source repeats
  that iteration forever.

Every rule catches `ParseException` and raises a new one with its own
message. `Rewrap` models this. Python errors pass through unchanged.

The model follows what the code does, not what the Jack grammar intends.
The intended parser would never fail in `current`. Its class node would hold
the class's declarations, and its subroutine body would consume the closing
`}`. This code does none of these, and the model keeps that behaviour.

## Model

| member | source | states |
|---|---|---|
| Lookahead.Current | CompilerParser.py:239-248 | Yields the head of a non-empty list. Raises `IndexError` exactly on the empty list. |
| Lookahead.Have | CompilerParser.py:251-266 | `Ok(true)` iff a head exists and matches: the kind equals `expectedType` or that is `None`, and the value equals `expectedValue` or that is `None`. `Ok(false)` iff a head exists and does not match. `IndexError` iff the list is empty. It is a function of the list, so it changes nothing. |
| Lookahead.MustBe | CompilerParser.py:269-281 | Succeeds iff the head matches. It then returns the old head and leaves exactly the old tail. Otherwise it leaves the list unchanged and raises: `IndexError` on an empty list, "Not Matching" on a mismatch. |
| Parser.CompilerParser.constructor | CompilerParser.py:5-12 | Stores the token list. Leaves `tree` unset. |
| Parser.CompilerParser.Next | CompilerParser.py:230-236 | The token list becomes its old tail. |
| Parser.CompilerParser.MustBe | CompilerParser.py:269-281 | Meets `Lookahead.MustBe` on the field: on success it returns the old head and the list loses exactly that head. On failure the list is unchanged. |
| Parser.CompilerParser.CompileProgram | CompilerParser.py:15-31 | Ends exactly as `Grammar.Program` says, for both the tree and the tokens. It never consumes a token. It always raises: `IndexError` on an empty list, "Not Class" otherwise. |
| Parser.CompilerParser.CompileClass | CompilerParser.py:34-56 | Ends exactly as `Grammar.Class` says: same outcome, same tree, same tokens left over. |
| Parser.CompilerParser.CompileClassVarDec | CompilerParser.py:59-74 | Ends exactly as `Grammar.ClassVarDec` says: same outcome, same tokens left over. |
| Parser.CompilerParser.CompileSubroutine | CompilerParser.py:77-95 | Ends exactly as `Grammar.Subroutine` says. |
| Parser.CompilerParser.CompileParameterList | CompilerParser.py:98-115 | Ends exactly as `Grammar.ParameterList` says. The loop keeps the invariant that the loop function, applied to what is left, gives the final outcome. |
| Parser.CompilerParser.CompileSubroutineBody | CompilerParser.py:118-137 | Ends exactly as `Grammar.SubroutineBody` says. A statement keyword or an unlisted token gives `Diverges`. |
| Parser.CompilerParser.CompileVarDec | CompilerParser.py:140-155 | Ends exactly as `Grammar.VarDec` says. |
| Parser.CompilerParser.CompileStatements | CompilerParser.py:158-163 | Returns `None`. It touches neither field. |
| Parser.CompilerParser.CompileLet | CompilerParser.py:166-171 | Returns `None`. It touches neither field. |
| Parser.CompilerParser.CompileIf | CompilerParser.py:174-179 | Returns `None`. It touches neither field. |
| Parser.CompilerParser.CompileWhile | CompilerParser.py:182-187 | Returns `None`. It touches neither field. |
| Parser.CompilerParser.CompileDo | CompilerParser.py:190-195 | Returns `None`. It touches neither field. |
| Parser.CompilerParser.CompileReturn | CompilerParser.py:198-203 | Returns `None`. It touches neither field. |
| Parser.CompilerParser.CompileExpression | CompilerParser.py:206-211 | Returns `None`. It touches neither field. |
| Parser.CompilerParser.CompileTerm | CompilerParser.py:214-219 | Returns `None`. It touches neither field. |
| Parser.CompilerParser.CompileExpressionList | CompilerParser.py:222-227 | Returns `None`. It touches neither field. |
| Grammar.Then | CompilerParser.py:67 | One `addChild(mustBe(...))`. After an earlier failure it does nothing. Otherwise it succeeds iff the head matches; it then appends that token as a child and drops it from the list. On failure it raises what `mustBe` raises and consumes nothing. |
| Grammar.MustBeEach | CompilerParser.py:67-70 | A run of `addChild(mustBe(...))` lines. It leaves no more than it was given. On success exactly one token per expectation is consumed. |
| Grammar.MustBeEachFour | CompilerParser.py:67-70 | Four such lines written one after another are the run over their four expectations. |
| Grammar.ClassVarDec | CompilerParser.py:65-74 | On success exactly four tokens are consumed. |
| Grammar.VarDec | CompilerParser.py:146-155 | On success exactly four tokens are consumed. |
| Grammar.ParamLoop | CompilerParser.py:106-110 | On success `)` is current. |
| Grammar.ParameterList | CompilerParser.py:104-115 | On success `)` is current and has not been consumed. |
| Grammar.BodyLoop | CompilerParser.py:128-132 | On success `}` is current. |
| Grammar.SubroutineBody | CompilerParser.py:124-137 | On success at least `{` was consumed and `}` is current and unconsumed. |
| Grammar.Subroutine | CompilerParser.py:83-95 | On success at least one token was consumed. |
| Grammar.ClassBody | CompilerParser.py:45-51 | The tree stays set. On success the tree is the returned node. |
| Grammar.ClassMember | CompilerParser.py:46-49 | One pass of the loop body: the tree stays set, on success the tree is the returned node, and it never consumes more than it was given. |
| Grammar.Class | CompilerParser.py:39-56 | The tree is set afterwards iff it was set before. On success the tree is the returned node. |
| RuleOutcomes.MustBeEachOutcome | CompilerParser.py:65-72 | A run of `mustBe` calls consumes exactly the longest matching prefix, and those tokens stay consumed. It succeeds with exactly those tokens appended iff every expectation matched. It raises `IndexError` if the list ran out first, and "Not Matching" at the first mismatch. |
| RuleOutcomes.MustBeEachOk | CompilerParser.py:65-72 | A successful run matched every expectation. It added exactly the consumed tokens as children, in order. |
| RuleOutcomes.RuleOutcome | CompilerParser.py:65-74 | A rule made only of `mustBe` lines builds its node from the matched prefix, or raises its own message. The matched tokens stay consumed. |
| RuleOutcomes.ClassVarDecOutcome | CompilerParser.py:65-72 | `compileClassVarDec` consumes the matched prefix of keyword, keyword, identifier, `;`. With all four it returns them as a `classVarDec` node. Otherwise it raises "Error ClassVarDec", or `IndexError` when the list ran out, and keeps the matched tokens consumed. |
| RuleOutcomes.ClassVarDecSuccess | CompilerParser.py:65-74 | Succeeds iff the list starts with keyword, keyword, identifier, `;`. The node's children are exactly those four tokens in order. The rest is the list after them, and node plus rest gives back the input. |
| RuleOutcomes.VarDecOutcome | CompilerParser.py:146-153 | The same for `compileVarDec`, over `var`, keyword, a token of kind "indentifier" and `;`, with "Error Var Dec". |
| RuleOutcomes.VarDecRejectsIdentifier | CompilerParser.py:147-153 | A declaration whose name has kind "identifier" fails with "Error Var Dec". `var` and the type stay consumed. |
| ParameterListLemmas.ParamLoopGroup | CompilerParser.py:106-110 | One iteration on a keyword and an identifier consumes them, plus the `,` after them if there is one, then continues with the rest. Each iteration therefore takes two or three tokens. |
| ParameterListLemmas.ParamLoopSound | CompilerParser.py:106-110 | On success the loop consumed a run of (keyword, identifier, optional `,`) groups. It appended exactly those tokens, in order. |
| ParameterListLemmas.ParamLoopComplete | CompilerParser.py:106-110 | Conversely, every such run followed by `)` is consumed in full and appended. The loop stops at the `)`. |
| ParameterListLemmas.ParameterListAccepts | CompilerParser.py:104-115 | With `)` following, a run of tokens yields a `parameterList` node of exactly those tokens, with `)` left current, iff the run is a sequence of those groups. |
| ParameterListLemmas.ParameterListSound | CompilerParser.py:104-115 | On success the node holds exactly the consumed tokens, which form such a run. `)` is current. Node plus rest gives back the input. |
| ParameterListLemmas.ParameterListEmpty | CompilerParser.py:105-106 | With `)` current it returns a childless `parameterList` node and consumes nothing. |
| ParameterListLemmas.ParameterListMissingName | CompilerParser.py:107-113 | A keyword not followed by an identifier raises "Error Subroutine Params". The keyword stays consumed. |
| ParameterListLemmas.ParamLoopFailures | CompilerParser.py:106-110 | The loop raises only a `ParseException` or `IndexError`. It never diverges. |
| SubroutineLemmas.BodyLoopSound | CompilerParser.py:128-130 | On success the loop appended only `varDec` nodes after its starting children. They hold exactly the consumed tokens. |
| SubroutineLemmas.SubroutineBodySound | CompilerParser.py:124-137 | On success the node's first child is the consumed `{` and every other child is a `varDec` node. `}` is current and unconsumed. Node plus rest gives back the input. |
| SubroutineLemmas.SubroutineBodyEmpty | CompilerParser.py:125-137 | On `{ }` it returns a one-child node and leaves `}` at the head. |
| SubroutineLemmas.SubroutineBodyStuck | CompilerParser.py:128-132 | After `{`, a token that is neither `}` nor `var` (any statement keyword among them) is never consumed: `Diverges`. |
| SubroutineLemmas.LexedBodyIsEmpty | CompilerParser.py:128-130 | If no token has the misspelt kind "indentifier", the only body that parses is `{ }`. |
| SubroutineLemmas.BodyLoopFailures | CompilerParser.py:128-132 | The loop raises a `ParseException`, raises `IndexError`, or diverges. |
| SubroutineLemmas.BodyFailures | CompilerParser.py:124-135 | The body fails only with "Error Subroutine Body", `IndexError` or `Diverges`. |
| SubroutineLemmas.SubroutineParts | CompilerParser.py:83-95 | On success the input starts with keyword, keyword, identifier, `(`; the result is a `subroutine` node with exactly seven children in order: those four tokens, the `parameterList` node `compileParameterList` returns on what follows, the `)` after it, and the `subroutineBody` node `compileSubroutineBody` returns on the rest. |
| SubroutineLemmas.SubroutineYieldsInput | CompilerParser.py:83-95 | On success the node holds exactly the consumed tokens, in order. |
| SubroutineLemmas.SubroutineFailures | CompilerParser.py:83-93 | Every inner failure surfaces as "Error Subroutine", except `IndexError` and `Diverges`, which pass through. |
| SubroutineLemmas.SubroutineLeavesBrace | CompilerParser.py:89-91 | On success the body's `}` is current. |
| ClassLemmas.ClassBodyAddsBrace | CompilerParser.py:45-51 | The class loop succeeds only at a `}`, which is the last token it consumed. Of everything it parsed it adds only that `}` to the tree. |
| ClassLemmas.ClassBodyStuck | CompilerParser.py:45-49 | A token that is not `}` and starts no declaration is never consumed: `Diverges`, and the tree is unchanged. |
| ClassLemmas.ClassShape | CompilerParser.py:39-56 | A success extends the existing tree by exactly four children: the synthesized `class` keyword, the class name, `{` and a `}`. The declarations between them are discarded. |
| ClassLemmas.SubroutineEndsClass | CompilerParser.py:45-51 | After a class's first subroutine, its body's `}` is taken as the class's `}`. Everything after it is left unread. |
| ClassLemmas.ProgramNeverSucceeds | CompilerParser.py:21-28 | `compileProgram` never succeeds and never consumes. On an empty list it raises `IndexError`. Otherwise it raises "Not Class". When the list starts with `class`, the tree is left as a `class` node holding only the synthesized keyword. |
| ClassLemmas.EmptyClassParses | CompilerParser.py:39-56 | `MyClass { }`, given straight to `compileClass` with a fresh `class` node, yields a four-child tree and consumes every token. |
| ClassLemmas.DemoProgramFails | CompilerParser.py:292-303 | The example tokens of `class MyClass { }` make `compileProgram` raise "Not Class". That is what the driver reports as a parse error. |

## Left out

- The `ParseTree`, `Token` and `ParseException` module: only construction with
  a rule name, `addChild` as an append, `getType`/`getValue` and the
  exception message are modelled. The optional second constructor argument
  (always `None`) and rendering to text are not.
- `self.tokens is None`: the guards in `next` and `current` for a missing list
  are not modelled; the token list is always a sequence.
- Parser.CompilerParser.Next: requires a non-empty list. Its only caller is
  `mustBe`, after `have` succeeded; on an empty list the source's `del` would
  raise `IndexError`.
- Parser.CompilerParser.CompileProgram: the source appends `self.tree` to
  itself, making a cyclic tree; the model appends a copy. That branch is
  unreachable, since `compileProgram` never succeeds.
- Non-termination: the two loops that can repeat an iteration forever end in
  the `Diverges` outcome. In the source, the body loop appends `None` (the
  stub's result) once per repetition; those children are not modelled.
- The `__main__` driver and its `print` calls are I/O. The model keeps only its
  token list, as the scenario in `ClassLemmas.DemoProgramFails`.
- The statement and expression grammar: the source's rules are stubs that
  return `None`, and no grammar for them is invented.
