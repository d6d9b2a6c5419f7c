# jsb — a Dafny model of the JavaScript builder

jsb is a small fluent builder, written in Java, that emits JavaScript source
text. Its state is a tree of scopes (`Jsb`). Each scope owns a growable text
buffer (`JsStringBuilder`) and has an optional enclosing scope and an optional
closure argument list. Statement calls append fixed text templates to a scope's
buffer: variable declarations, assignments, raw text, if / else-if / else
chains and function declarations. `end()` renders a scope. A root scope
answers its text. A nested scope is wrapped as an immediately invoked closure,
`(function(A) {` … `})(A)`. `endScope()` splices the rendered child into its
parent. Ending the root scope is the one failure the code raises itself.

The model has four modules:

- `TextBuffer` (TextBuffer.dfy): the buffer, a class with one
  `var content: string` field.
- `Templates` (Templates.dfy): the exact text formats as pure functions.
  Each format has a partner. A decoder recovers the body from the rendered
  text, with a round-trip lemma. A bracket count shows the brackets each
  format adds are matched.
- `Builder` (Builder.dfy): `Jsb` and the link classes `IfScope`, `ElseScope`,
  `FuncScope` and `Assignment`, as Dafny classes. Every reference they hold is
  fixed at construction, so those fields are `const`. Only buffer contents
  change. Every method states its new state in terms of the templates and the
  old state.
- `Scenarios` (Scenarios.dfy): the repository's unit tests as client
  sessions. Each session is proved once for arbitrary fragments, then
  instantiated with the tests' literal inputs and expected strings, written
  line by line. It also covers three edge cases: closing the root, ending a
  nested scope twice, and a scope used as its own if block.

A nested `end()` is destructive (src/main/java/kerebus/jsb/Jsb.java:53-55):
it prepends the header into the scope's own buffer and appends the footer.
The buffer therefore holds the closure afterwards, and a second `end()` wraps
it again (`Scenarios.EndTwiceWrapsTwice`).

The code also allows a scope to be the block of its own clause, as in
`ctx.iff(c, ctx)`. The predicate `Builder.Spliced` states the result for both
cases. When the block's buffer is not the context's, the context gains
`open + "\n" + rendered block + "\n}\n"`. When the two buffers are the same,
the block is rendered after the opening line was written, and that rendering
is then appended to the buffer it came from.

## Model

| member | source | states |
|---|---|---|
| TextBuffer.JsStringBuilder.constructor | src/main/java/kerebus/jsb/JsStringBuilder.java:8 | a new buffer is empty |
| TextBuffer.JsStringBuilder.Append | src/main/java/kerebus/jsb/JsStringBuilder.java:10-13 | content becomes old content followed by `s`; the length grows by the length of `s`; answers the same buffer |
| TextBuffer.JsStringBuilder.Prepend | src/main/java/kerebus/jsb/JsStringBuilder.java:15-18 | content becomes `s` followed by old content; the length grows by the length of `s`; answers the same buffer |
| TextBuffer.JsStringBuilder.Nl | src/main/java/kerebus/jsb/JsStringBuilder.java:20-23 | exactly one line feed is appended; the length grows by 1; answers the same buffer |
| TextBuffer.JsStringBuilder.ToString | src/main/java/kerebus/jsb/JsStringBuilder.java:25-28 | answers the content and modifies nothing, so reading is repeatable |
| Templates.VarDecl | src/main/java/kerebus/jsb/Jsb.java:36 | spells out `var <name>;` and a line feed; its length is the name's plus 6 |
| Templates.VarDeclInit | src/main/java/kerebus/jsb/Jsb.java:41 | spells out `var <name> = <value>;` and a line feed; its length is the fragments' plus 9 |
| Templates.AssignStmt | src/main/java/kerebus/jsb/Jsb.java:210 | spells out `<name> = <value>;` and a line feed; its length is the fragments' plus 5 |
| Templates.ClosureHeader | src/main/java/kerebus/jsb/Jsb.java:52 | spells out `(function(<args>) {` and a line feed; its length is the arguments' plus 14 |
| Templates.ClosureFooter | src/main/java/kerebus/jsb/Jsb.java:54 | spells out `})(<args>)` and a line feed; its length is the arguments' plus 5 |
| Templates.Closure | src/main/java/kerebus/jsb/Jsb.java:52-54 | the header, the body and the footer in that order; its length is the body's plus twice the arguments' plus 19 |
| Templates.IfOpen | src/main/java/kerebus/jsb/Jsb.java:151 | spells out `<keyword> (<condition>) {`; its length is the fragments' plus 5 |
| Templates.ElseOpen | src/main/java/kerebus/jsb/Jsb.java:191 | the constant opening line `else {` of an else clause |
| Templates.FuncOpen | src/main/java/kerebus/jsb/Jsb.java:124 | spells out `function <declaration> {`; its length is the declaration's plus 11 |
| Templates.Block | src/main/java/kerebus/jsb/Jsb.java:151-153 | the opening line, the body on its own line and a closing brace line, as at Jsb.java:124-126 and 191-193 too; its length is the opening line's and body's plus 4 |
| Templates.StripAround | src/main/java/kerebus/jsb/Jsb.java:49-58 | decoder, the round-trip partner of the wrapping at these lines, not a model of them: when it answers a body, the text is exactly prefix + body + suffix |
| Templates.StripAroundInverse | src/main/java/kerebus/jsb/Jsb.java:49-58 | round trip of the generic decoder, not a model of these lines: stripping a known prefix and suffix recovers the body between them |
| Templates.VarDeclName | src/main/java/kerebus/jsb/Jsb.java:35-38 | decoder, the round-trip partner of the declaration at these lines, not a model of them: a decoded name re-encodes to the same declaration text |
| Templates.VarDeclRoundTrip | src/main/java/kerebus/jsb/Jsb.java:35-38 | the declared name is recovered from `var <name>;\n` |
| Templates.VarDeclInitIsVarAssignment | src/main/java/kerebus/jsb/Jsb.java:40-43 | an initialised declaration is `var ` followed by the assignment statement of the same name and value |
| Templates.ClosureBody | src/main/java/kerebus/jsb/Jsb.java:49-58 | decoder, the round-trip partner of the wrapping at these lines, not a model of them: a decoded body re-renders to the same closure with the same argument list |
| Templates.ClosureRoundTrip | src/main/java/kerebus/jsb/Jsb.java:49-58 | the body of a closure is recovered from its rendering |
| Templates.ClosureGrows | src/main/java/kerebus/jsb/Jsb.java:49-58 | wrapping a closure a second time never answers the once-wrapped text |
| Templates.BlockBody | src/main/java/kerebus/jsb/Jsb.java:150-155 | decoder, the round-trip partner of the block written at these lines, not a model of them: a decoded body re-renders to the same block with the same opening line |
| Templates.BlockRoundTrip | src/main/java/kerebus/jsb/Jsb.java:150-155 | the body of a block is recovered from its rendering |
| Templates.CountConcat | src/main/java/kerebus/jsb/Jsb.java:49-58 | helper for the bracket lemmas, not a model of these lines: the count of a character in a concatenation is the sum of the counts in its parts |
| Templates.ExcessConcat | src/main/java/kerebus/jsb/Jsb.java:49-58 | helper for the bracket lemmas, not a model of these lines: bracket excess (openers minus closers) is additive over concatenation |
| Templates.ClosureExcess | src/main/java/kerebus/jsb/Jsb.java:51-55 | the excess of a closure is the body's, twice the argument list's and that of the fixed header and footer pieces, for any bracket kind |
| Templates.ClosureBalanced | src/main/java/kerebus/jsb/Jsb.java:51-55 | wrapping adds no unmatched parenthesis or brace: the excess is the body's plus twice the argument list's |
| Templates.BlockExcess | src/main/java/kerebus/jsb/Jsb.java:150-155 | the excess of a block is its opening line's, its body's and that of the fixed line feeds and closing brace |
| Templates.IfOpenExcess | src/main/java/kerebus/jsb/Jsb.java:151 | the excess of an if opening line is the keyword's and condition's plus that of the fixed pieces |
| Templates.FuncOpenExcess | src/main/java/kerebus/jsb/Jsb.java:124 | the excess of a function opening line is the declaration's plus that of the fixed pieces |
| Templates.IfBlockBalanced | src/main/java/kerebus/jsb/Jsb.java:150-155 | an if or else-if clause adds no unmatched parenthesis or brace beyond its keyword, condition and body |
| Templates.ElseBlockBalanced | src/main/java/kerebus/jsb/Jsb.java:190-195 | an else clause adds no unmatched parenthesis or brace beyond its body |
| Templates.FuncBlockBalanced | src/main/java/kerebus/jsb/Jsb.java:123-128 | a function declaration adds no unmatched parenthesis or brace beyond its declaration and body |
| Templates.StatementPiecesNeutral | src/main/java/kerebus/jsb/Jsb.java:35-43 | the fixed pieces of declarations and assignments hold no parenthesis or brace |
| Templates.AssignBalanced | src/main/java/kerebus/jsb/Jsb.java:209-211 | an assignment statement's excess is that of its name and value |
| Templates.VarDeclBalanced | src/main/java/kerebus/jsb/Jsb.java:40-43 | an initialised declaration's excess is that of its name and value |
| Builder.ClosingLines | src/main/java/kerebus/jsb/Jsb.java:150-155 | the last two lines a link writes complete the block on a separate context, and repeat the rendering when the block is the context itself |
| Builder.Jsb.constructor | src/main/java/kerebus/jsb/Jsb.java:17-25 | a scope gets the given parent and arguments and a freshly allocated, empty buffer different from its parent's |
| Builder.Jsb.Create | src/main/java/kerebus/jsb/Jsb.java:27-29 | a new root scope without arguments and with an empty buffer |
| Builder.Jsb.CreateWith | src/main/java/kerebus/jsb/Jsb.java:31-33 | a new root scope whose buffer is exactly the given text |
| Builder.Jsb.DeclareVar | src/main/java/kerebus/jsb/Jsb.java:35-38 | appends exactly `var <name>;\n`, answers the scope, and changes no other buffer |
| Builder.Jsb.DeclareVarInit | src/main/java/kerebus/jsb/Jsb.java:40-43 | appends exactly `var <name> = <value>;\n`, answers the scope, and changes no other buffer |
| Builder.Jsb.Assign | src/main/java/kerebus/jsb/Jsb.java:45-47 | answers a new assignment link on this scope holding the value; no buffer changes |
| Builder.Jsb.GetScopeArgs | src/main/java/kerebus/jsb/Jsb.java:60-66 | the argument list, or `""` when there is none |
| Builder.Jsb.Render | src/main/java/kerebus/jsb/Jsb.java:49-58 | what `end()` answers for a scope holding `body`: a root answers `body` itself; for a nested scope the closure's body decodes back to `body` |
| Builder.Jsb.ScopeDeclaration | src/main/java/kerebus/jsb/Jsb.java:51-52 | the header built in a separate buffer is `(function(A) {\n`, with `A` the arguments or empty when there are none |
| Builder.Jsb.End | src/main/java/kerebus/jsb/Jsb.java:49-58 | answers `Render` of the old text, so a root scope answers its buffer unchanged and a nested scope answers its old text wrapped as a closure over its arguments (empty when absent); the buffer afterwards equals the answer |
| Builder.Jsb.EndScope | src/main/java/kerebus/jsb/Jsb.java:68-74 | on the root it fails with `Can't end top level scope.` and changes nothing; otherwise the own buffer becomes the closure, the parent's buffer gains exactly that text, and the parent is answered |
| Builder.Jsb.Append | src/main/java/kerebus/jsb/Jsb.java:76-79 | appends the text verbatim and answers the scope |
| Builder.Jsb.AppendLn | src/main/java/kerebus/jsb/Jsb.java:81-84 | appends the text and one line feed and answers the scope |
| Builder.Jsb.Scope | src/main/java/kerebus/jsb/Jsb.java:86-88 | a new scope whose parent is this one, with no arguments and an empty, fresh buffer; this scope is untouched |
| Builder.Jsb.ScopeWith | src/main/java/kerebus/jsb/Jsb.java:90-92 | a new scope whose parent is this one, with the given arguments and an empty, fresh buffer; this scope is untouched |
| Builder.Jsb.Iff | src/main/java/kerebus/jsb/Jsb.java:94-96 | a new if link (not else-if) on this scope with the given condition and block; no buffer changes |
| Builder.Jsb.IffText | src/main/java/kerebus/jsb/Jsb.java:98-100 | a new if link whose block is a fresh root scope holding exactly the text; no existing buffer changes |
| Builder.Jsb.IfThen | src/main/java/kerebus/jsb/Jsb.java:102-104 | appends exactly `if (<c>) {\n<text>\n}\n` and answers the scope |
| Builder.Jsb.DeclareFunc | src/main/java/kerebus/jsb/Jsb.java:106-108 | the function declaration is spliced as `FuncScope.EndFunc` does it; answers the scope |
| Builder.FuncScope.constructor | src/main/java/kerebus/jsb/Jsb.java:117-121 | the link holds the context, the body scope and the declaration |
| Builder.FuncScope.EndFunc | src/main/java/kerebus/jsb/Jsb.java:123-128 | the context gains `function <d> {\n`, the rendered body and `\n}\n` (the body scope ended as `End` states), and is answered |
| Builder.IfScope.constructor | src/main/java/kerebus/jsb/Jsb.java:139-148 | the link holds the context, block, condition and else-if flag |
| Builder.IfScope.GetIfStr | src/main/java/kerebus/jsb/Jsb.java:157-159 | `else if` for an else-if link, `if` otherwise |
| Builder.IfScope.EndIf | src/main/java/kerebus/jsb/Jsb.java:150-159 | the context gains `<K> (<c>) {\n`, the rendered block and `\n}\n`, with `K` `else if` for an else-if link and `if` otherwise; answers the context |
| Builder.IfScope.ElseIf | src/main/java/kerebus/jsb/Jsb.java:165-167 | first writes this link's clause as `EndIf` does, then answers a fresh else-if link on the same context |
| Builder.IfScope.ElseIfText | src/main/java/kerebus/jsb/Jsb.java:161-163 | as `ElseIf`, with a fresh root block holding exactly the text |
| Builder.IfScope.Elsee | src/main/java/kerebus/jsb/Jsb.java:173-175 | first writes this link's clause as `EndIf` does, then answers a fresh else link on the same context |
| Builder.IfScope.ElseeText | src/main/java/kerebus/jsb/Jsb.java:169-171 | as `Elsee`, with a fresh root block holding exactly the text |
| Builder.ElseScope.constructor | src/main/java/kerebus/jsb/Jsb.java:185-188 | the link holds the context and the block |
| Builder.ElseScope.EndIf | src/main/java/kerebus/jsb/Jsb.java:190-195 | the context gains `else {\n`, the rendered block and `\n}\n`, and is answered |
| Builder.Assignment.constructor | src/main/java/kerebus/jsb/Jsb.java:204-207 | the link holds the context and the value |
| Builder.Assignment.To | src/main/java/kerebus/jsb/Jsb.java:209-211 | the context gains exactly `<name> = <value>;\n` and is answered |
| Scenarios.DeclareSession | src/test/java/kerebus/jsb/JsbTest.java:11-14 | a root that declares one variable renders `var <name>;\n` |
| Scenarios.ScopeSession | src/test/java/kerebus/jsb/JsbTest.java:17-28 | a declaration in a nested scope without arguments renders as a closure over the empty argument list |
| Scenarios.ArgsScopeSession | src/test/java/kerebus/jsb/JsbTest.java:31-44 | a nested scope with arguments renders after the root's declaration as a closure taking and passing them |
| Scenarios.InnerScopeSession | src/test/java/kerebus/jsb/JsbTest.java:47-66 | three nested scopes closed in turn render as three nested closures |
| Scenarios.AssignmentSession | src/test/java/kerebus/jsb/JsbTest.java:70-78 | a declaration followed by an assignment renders as both statements |
| Scenarios.IfSession | src/test/java/kerebus/jsb/JsbTest.java:82-93 | a declaration then an if clause render in order |
| Scenarios.ElseSession | src/test/java/kerebus/jsb/JsbTest.java:96-115 | an if clause and an else clause render in order |
| Scenarios.IfElseSession | src/test/java/kerebus/jsb/JsbTest.java:119-138 | an if clause and an else-if clause render in order |
| Scenarios.IfElseAndElseSession | src/test/java/kerebus/jsb/JsbTest.java:141-165 | if, else-if and else clauses render in order |
| Scenarios.IfThenSession | src/test/java/kerebus/jsb/JsbTest.java:168-177 | the shortcut renders one if block |
| Scenarios.FuncSession | src/test/java/kerebus/jsb/JsbTest.java:180-192 | a function declaration renders its body scope's statements inside the function block |
| Scenarios.DeclaresVar | src/test/java/kerebus/jsb/JsbTest.java:11-14 | the exact expected text of the declaration test |
| Scenarios.CreatesScope | src/test/java/kerebus/jsb/JsbTest.java:17-28 | the exact expected text of the scope test |
| Scenarios.PassesArgsToScope | src/test/java/kerebus/jsb/JsbTest.java:31-44 | the exact expected text of the scope-arguments test |
| Scenarios.CreatesInnerScope | src/test/java/kerebus/jsb/JsbTest.java:47-66 | the exact expected text of the depth-three nesting test |
| Scenarios.DoesAssignment | src/test/java/kerebus/jsb/JsbTest.java:70-78 | the exact expected text of the assignment test |
| Scenarios.DoesIfClause | src/test/java/kerebus/jsb/JsbTest.java:82-93 | the exact expected text of the if test |
| Scenarios.DoesElse | src/test/java/kerebus/jsb/JsbTest.java:96-115 | the exact expected text of the else test |
| Scenarios.DoesIfElse | src/test/java/kerebus/jsb/JsbTest.java:119-138 | the exact expected text of the else-if test |
| Scenarios.DoesIfElseAndElse | src/test/java/kerebus/jsb/JsbTest.java:141-165 | the exact expected text of the if / else-if / else test |
| Scenarios.UsesIfShortcut | src/test/java/kerebus/jsb/JsbTest.java:168-177 | the exact expected text of the if shortcut test |
| Scenarios.DeclaresFunc | src/test/java/kerebus/jsb/JsbTest.java:180-192 | the exact expected text of the function declaration test |
| Scenarios.EndingRootFails | src/main/java/kerebus/jsb/Jsb.java:68-71 | ending the root yields the failure message and leaves its text as it was |
| Scenarios.EndTwiceWrapsTwice | src/main/java/kerebus/jsb/Jsb.java:49-56 | a second `End` on a nested scope wraps the first answer again and differs from it |
| Scenarios.SelfBlockRepeats | src/main/java/kerebus/jsb/Jsb.java:150-155 | a scope used as the block of its own if clause renders its text and the opening line twice |
| Scenarios.IfElseText | src/test/java/kerebus/jsb/JsbTest.java:119-138 | the templates of the else-if test spell out its expected lines |
| Scenarios.IfClauseLines | src/test/java/kerebus/jsb/JsbTest.java:82-93 | the if block of the tests spells out its expected lines |
| Scenarios.ElseIfClauseLines | src/test/java/kerebus/jsb/JsbTest.java:119-138 | the else-if block of the tests spells out its expected lines |

## Left out

- The Java `StringBuilder` and `CharSequence` machinery behind the buffer: the buffer is modelled directly as a character sequence.
- `null` strings passed as fragments, which Java renders as the text `null`: model fragments are always sequences. A `null` argument list (no arguments) is modelled as `None`.
- Java exception machinery: the `RuntimeException` thrown when the root scope is ended is modelled as an `Err` result carrying the same message.
- JavaScript syntax checking and escaping: the code checks nothing and copies every fragment verbatim, and so does the model. The bracket lemmas state only what the templates add.
- `null` block or function scopes: Java throws a NullPointerException in `endIf`/`endFunc` after writing the opening line (src/main/java/kerebus/jsb/Jsb.java:124-125, 151-152, 191-192); the model's scope parameters are non-null.
- The parent chain's acyclicity: no operation needs it. `Jsb.Valid` states only that a scope's buffer differs from its parent's, which is all `EndScope` needs.
- An if or else link that never gets its terminal call writes nothing; in the model it is likewise an object with no effect.
- The JUnit harness: only the tests' inputs and expected strings are modelled (module `Scenarios`).
