/** The exact text formats the builder emits, as functions of the fragments the
    caller supplies. The fragments are trusted and copied verbatim: nothing is
    escaped or checked. Beside each format stands its partner: a decoder that
    recovers the body from the rendered text (round trip), and a count of the
    brackets the format adds, which are always matched. */
module Templates {

  datatype Option<T> = None | Some(value: T)

  // ---------------------------------------------------------------- formats

  /** `declareVar(name)`: `var <name>;` and a line feed. */
  function VarDecl(name: string): (r: string)
    ensures |r| == |name| + 6
  {
    "var " + name + ";" + "\n"
  }

  /** `declareVar(name, value)`: `var <name> = <value>;` and a line feed. */
  function VarDeclInit(name: string, value: string): (r: string)
    ensures |r| == |name| + |value| + 9
  {
    "var " + name + " = " + value + ";" + "\n"
  }

  /** `assign(value).to(name)`: `<name> = <value>;` and a line feed. */
  function AssignStmt(name: string, value: string): (r: string)
    ensures |r| == |name| + |value| + 5
  {
    name + " = " + value + ";" + "\n"
  }

  /** The line a nested scope's text is prefixed with when it is ended. */
  function ClosureHeader(args: string): (r: string)
    ensures |r| == |args| + 14
  {
    "(function(" + args + ") {" + "\n"
  }

  /** The line a nested scope's text is suffixed with when it is ended. */
  function ClosureFooter(args: string): (r: string)
    ensures |r| == |args| + 5
  {
    "})(" + args + ")" + "\n"
  }

  /** A nested scope rendered as an immediately invoked closure. */
  function Closure(args: string, body: string): (r: string)
    ensures |r| == |body| + 2 * |args| + 19
  {
    ClosureHeader(args) + body + ClosureFooter(args)
  }

  /** The opening line of an if or else-if clause (without its line feed). */
  function IfOpen(keyword: string, condition: string): (r: string)
    ensures |r| == |keyword| + |condition| + 5
  {
    keyword + " (" + condition + ") {"
  }

  /** The opening line of an else clause (without its line feed). */
  const ElseOpen: string := "else {"

  /** The opening line of a function declaration (without its line feed). */
  function FuncOpen(declaration: string): (r: string)
    ensures |r| == |declaration| + 11
  {
    "function " + declaration + " {"
  }

  /** A block: its opening line, the rendered body on its own line, and a
      closing brace line. */
  function Block(open: string, body: string): (r: string)
    ensures |r| == |open| + |body| + 4
  {
    open + "\n" + body + "\n" + "}" + "\n"
  }

  // -------------------------------------------------------- decoders (inverses)

  /** The text between a known prefix and a known suffix, if `s` has both. */
  function StripAround(pre: string, post: string, s: string): (r: Option<string>)
    ensures r.Some? ==> s == pre + r.value + post
  {
    if |pre| + |post| <= |s| && s[..|pre|] == pre && s[|s| - |post|..] == post
    then Some(s[|pre|..|s| - |post|])
    else None
  }

  lemma StripAroundInverse(pre: string, body: string, post: string)
    ensures StripAround(pre, post, pre + body + post) == Some(body)
  {
    var s := pre + body + post;
    assert s[..|pre|] == pre;
    assert s[|s| - |post|..] == post;
    assert s[|pre|..|s| - |post|] == body;
  }

  /** The name a declaration `var <name>;` declares. */
  function VarDeclName(s: string): (r: Option<string>)
    ensures r.Some? ==> s == VarDecl(r.value)
  {
    StripAround("var ", ";\n", s)
  }

  /** The body of a closure rendered with the given argument list. */
  function ClosureBody(args: string, s: string): (r: Option<string>)
    ensures r.Some? ==> s == Closure(args, r.value)
  {
    StripAround(ClosureHeader(args), ClosureFooter(args), s)
  }

  /** The body of a block with the given opening line. */
  function BlockBody(open: string, s: string): (r: Option<string>)
    ensures r.Some? ==> s == Block(open, r.value)
  {
    StripAround(open + "\n", "\n}\n", s)
  }

  lemma VarDeclRoundTrip(name: string)
    ensures VarDeclName(VarDecl(name)) == Some(name)
  {
    assert VarDecl(name) == "var " + name + ";\n";
    StripAroundInverse("var ", name, ";\n");
  }

  lemma ClosureRoundTrip(args: string, body: string)
    ensures ClosureBody(args, Closure(args, body)) == Some(body)
  {
    StripAroundInverse(ClosureHeader(args), body, ClosureFooter(args));
  }

  lemma BlockRoundTrip(open: string, body: string)
    ensures BlockBody(open, Block(open, body)) == Some(body)
  {
    assert Block(open, body) == open + "\n" + body + "\n}\n";
    StripAroundInverse(open + "\n", body, "\n}\n");
  }

  /** An initialised declaration is `var ` followed by the assignment
      statement of the same name and value. */
  lemma VarDeclInitIsVarAssignment(name: string, value: string)
    ensures VarDeclInit(name, value) == "var " + AssignStmt(name, value)
  {
  }

  /** Wrapping grows the text (see the length clause of `Closure`), so
      wrapping a second time never gives back the same text. */
  lemma ClosureGrows(args: string, body: string)
    ensures Closure(args, Closure(args, body)) != Closure(args, body)
  {
  }

  // ------------------------------------------------------- bracket balance

  /** How often `c` occurs in `s`. */
  function Count(s: string, c: char): nat
  {
    if s == [] then 0 else (if s[0] == c then 1 else 0) + Count(s[1..], c)
  }

  lemma {:induction false} CountConcat(a: string, b: string, c: char)
    ensures Count(a + b, c) == Count(a, c) + Count(b, c)
  {
    if a == [] {
      assert a + b == b;
    } else {
      assert (a + b)[1..] == a[1..] + b;
      CountConcat(a[1..], b, c);
    }
  }

  /** Openers minus closers of one bracket kind. */
  function Excess(s: string, open: char, close: char): int
  {
    Count(s, open) - Count(s, close)
  }

  lemma ExcessConcat(a: string, b: string, open: char, close: char)
    ensures Excess(a + b, open, close) == Excess(a, open, close) + Excess(b, open, close)
  {
    CountConcat(a, b, open);
    CountConcat(a, b, close);
  }

  /** The bracket excess of a closure, for any bracket kind: the body's, the
      argument list's twice, and that of the four fixed pieces. */
  lemma ClosureExcess(args: string, body: string, o: char, c: char)
    ensures Excess(Closure(args, body), o, c)
         == Excess("(function(", o, c) + 2 * Excess(args, o, c) + Excess(") {\n", o, c)
          + Excess(body, o, c) + Excess("})(", o, c) + Excess(")\n", o, c)
  {
    var p1, p2, p3 := "(function(" + args, "(function(" + args + ") {\n", "(function(" + args + ") {\n" + body;
    var p4, p5 := p3 + "})(", p3 + "})(" + args;
    assert Closure(args, body) == p5 + ")\n";
    ExcessConcat("(function(", args, o, c);
    ExcessConcat(p1, ") {\n", o, c);
    ExcessConcat(p2, body, o, c);
    ExcessConcat(p3, "})(", o, c);
    ExcessConcat(p4, args, o, c);
    ExcessConcat(p5, ")\n", o, c);
  }

  /** The fixed pieces of a closure open and close parentheses alike ... */
  lemma ClosureParenPieces()
    ensures Excess("(function(", '(', ')') + Excess(") {\n", '(', ')')
          + Excess("})(", '(', ')') + Excess(")\n", '(', ')') == 0
  {
  }

  /** ... and braces alike. */
  lemma ClosureBracePieces()
    ensures Excess("(function(", '{', '}') + Excess(") {\n", '{', '}')
          + Excess("})(", '{', '}') + Excess(")\n", '{', '}') == 0
  {
  }

  /** A closure adds three matched parentheses and one matched brace pair
      around the body; the argument list, which appears twice, is counted
      twice. */
  lemma ClosureBalanced(args: string, body: string)
    ensures Excess(Closure(args, body), '(', ')') == Excess(body, '(', ')') + 2 * Excess(args, '(', ')')
    ensures Excess(Closure(args, body), '{', '}') == Excess(body, '{', '}') + 2 * Excess(args, '{', '}')
  {
    ClosureExcess(args, body, '(', ')');
    ClosureParenPieces();
    ClosureExcess(args, body, '{', '}');
    ClosureBracePieces();
  }

  /** The bracket excess of a block, for any bracket kind: the opening line's,
      the body's and that of the line feeds and the closing brace line. */
  lemma BlockExcess(open: string, body: string, o: char, c: char)
    ensures Excess(Block(open, body), o, c)
         == Excess(open, o, c) + Excess("\n", o, c) + Excess(body, o, c) + Excess("\n}\n", o, c)
  {
    assert Block(open, body) == open + "\n" + body + "\n}\n";
    ExcessConcat(open, "\n", o, c);
    ExcessConcat(open + "\n", body, o, c);
    ExcessConcat(open + "\n" + body, "\n}\n", o, c);
  }

  lemma IfOpenExcess(keyword: string, condition: string, o: char, c: char)
    ensures Excess(IfOpen(keyword, condition), o, c)
         == Excess(keyword, o, c) + Excess(condition, o, c) + Excess(" (", o, c) + Excess(") {", o, c)
  {
    ExcessConcat(keyword, " (", o, c);
    ExcessConcat(keyword + " (", condition, o, c);
    ExcessConcat(keyword + " (" + condition, ") {", o, c);
  }

  lemma FuncOpenExcess(declaration: string, o: char, c: char)
    ensures Excess(FuncOpen(declaration), o, c)
         == Excess("function ", o, c) + Excess(declaration, o, c) + Excess(" {", o, c)
  {
    ExcessConcat("function ", declaration, o, c);
    ExcessConcat("function " + declaration, " {", o, c);
  }

  /** An if or else-if clause closes the brace its opening line opens: its
      brackets are those of the keyword, the condition and the body. */
  lemma IfBlockBalanced(keyword: string, condition: string, body: string)
    ensures Excess(Block(IfOpen(keyword, condition), body), '(', ')')
         == Excess(keyword, '(', ')') + Excess(condition, '(', ')') + Excess(body, '(', ')')
    ensures Excess(Block(IfOpen(keyword, condition), body), '{', '}')
         == Excess(keyword, '{', '}') + Excess(condition, '{', '}') + Excess(body, '{', '}')
  {
    IfOpenExcess(keyword, condition, '(', ')');
    IfOpenExcess(keyword, condition, '{', '}');
    BlockExcess(IfOpen(keyword, condition), body, '(', ')');
    BlockExcess(IfOpen(keyword, condition), body, '{', '}');
  }

  /** An else clause adds only matched braces around its body. */
  lemma ElseBlockBalanced(body: string)
    ensures Excess(Block(ElseOpen, body), '(', ')') == Excess(body, '(', ')')
    ensures Excess(Block(ElseOpen, body), '{', '}') == Excess(body, '{', '}')
  {
    BlockExcess(ElseOpen, body, '(', ')');
    BlockExcess(ElseOpen, body, '{', '}');
  }

  /** A function declaration adds only matched braces around the header and
      the body. */
  lemma FuncBlockBalanced(declaration: string, body: string)
    ensures Excess(Block(FuncOpen(declaration), body), '(', ')')
         == Excess(declaration, '(', ')') + Excess(body, '(', ')')
    ensures Excess(Block(FuncOpen(declaration), body), '{', '}')
         == Excess(declaration, '{', '}') + Excess(body, '{', '}')
  {
    FuncOpenExcess(declaration, '(', ')');
    FuncOpenExcess(declaration, '{', '}');
    BlockExcess(FuncOpen(declaration), body, '(', ')');
    BlockExcess(FuncOpen(declaration), body, '{', '}');
  }

  /** The fixed pieces of declarations and assignments hold no brackets. */
  lemma StatementPiecesNeutral(o: char, c: char)
    requires (o == '(' && c == ')') || (o == '{' && c == '}')
    ensures Excess("var ", o, c) == 0 && Excess(" = ", o, c) == 0 && Excess(";\n", o, c) == 0
  {
    if o == '(' {
      assert Excess("var ", '(', ')') == 0 && Excess(" = ", '(', ')') == 0 && Excess(";\n", '(', ')') == 0;
    } else {
      assert Excess("var ", '{', '}') == 0 && Excess(" = ", '{', '}') == 0 && Excess(";\n", '{', '}') == 0;
    }
  }

  /** An assignment adds no brackets of its own. */
  lemma AssignBalanced(name: string, value: string, o: char, c: char)
    requires (o == '(' && c == ')') || (o == '{' && c == '}')
    ensures Excess(AssignStmt(name, value), o, c) == Excess(name, o, c) + Excess(value, o, c)
  {
    StatementPiecesNeutral(o, c);
    assert AssignStmt(name, value) == name + " = " + value + ";\n";
    ExcessConcat(name, " = ", o, c);
    ExcessConcat(name + " = ", value, o, c);
    ExcessConcat(name + " = " + value, ";\n", o, c);
  }

  /** Declarations add no brackets of their own. */
  lemma VarDeclBalanced(name: string, value: string, o: char, c: char)
    requires (o == '(' && c == ')') || (o == '{' && c == '}')
    ensures Excess(VarDecl(name), o, c) == Excess(name, o, c)
    ensures Excess(VarDeclInit(name, value), o, c) == Excess(name, o, c) + Excess(value, o, c)
  {
    StatementPiecesNeutral(o, c);
    assert VarDecl(name) == "var " + name + ";\n";
    ExcessConcat("var ", name, o, c);
    ExcessConcat("var " + name, ";\n", o, c);
    VarDeclInitIsVarAssignment(name, value);
    AssignBalanced(name, value, o, c);
    ExcessConcat("var ", AssignStmt(name, value), o, c);
  }
}
