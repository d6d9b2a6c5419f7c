/** Complete builder sessions and the exact text each one produces. Each
    session of the repository's unit tests is stated twice: once for any
    fragments (the general session), and once with the test's own fragments
    and its expected text, written line by line. Three further sessions show
    the code at its edges: closing the root, ending a nested scope twice, and
    a scope used as the block of its own if clause. */
module Scenarios {
  import opened Templates
  import opened Builder

  // ------------------------------------------------------ general sessions

  /** `jsb().declareVar(name).end()` */
  method DeclareSession(name: string) returns (js: string)
    ensures js == VarDecl(name)
  {
    var root := Jsb.Create();
    var s := root.DeclareVar(name);
    js := s.End();
  }

  /** `jsb().scope().declareVar(name).endScope().end()` */
  method ScopeSession(name: string) returns (js: string)
    ensures js == Closure("", VarDecl(name))
  {
    var root := Jsb.Create();
    var inner := root.Scope();
    inner := inner.DeclareVar(name);
    var closed := inner.EndScope();
    assert closed.Ok?;
    js := closed.value.End();
  }

  /** `jsb().declareVar(name, value).scope(args).appendLn(line).endScope().end()` */
  method ArgsScopeSession(name: string, value: string, args: string, line: string) returns (js: string)
    ensures js == VarDeclInit(name, value) + Closure(args, line + "\n")
  {
    var root := Jsb.Create();
    root := root.DeclareVarInit(name, value);
    var inner := root.ScopeWith(args);
    inner := inner.AppendLn(line);
    assert inner.sb.content == line + "\n";
    assert inner.GetScopeArgs() == args;
    var closed := inner.EndScope();
    assert closed.Ok? && closed.value == root;
    assert root.sb.content == VarDeclInit(name, value) + Closure(args, line + "\n");
    js := root.End();
  }

  /** Three nested scopes around one line, each closed into its parent. */
  method InnerScopeSession(line: string) returns (js: string)
    ensures js == Closure("", Closure("", Closure("", line + "\n")))
  {
    var root := Jsb.Create();
    var s1 := root.Scope();
    var s2 := s1.Scope();
    var s3 := s2.Scope();
    s3 := s3.AppendLn(line);
    assert s3.sb.content == line + "\n";
    var c3 := s3.EndScope();
    assert c3.Ok? && c3.value == s2;
    assert s2.sb.content == Closure("", line + "\n");
    var c2 := s2.EndScope();
    assert c2.Ok? && c2.value == s1;
    assert s1.sb.content == Closure("", Closure("", line + "\n"));
    var c1 := s1.EndScope();
    assert c1.Ok? && c1.value == root;
    js := root.End();
  }

  /** `jsb().declareVar(name).assign(value).to(name).end()` */
  method AssignmentSession(name: string, value: string) returns (js: string)
    ensures js == VarDecl(name) + AssignStmt(name, value)
  {
    var root := Jsb.Create();
    root := root.DeclareVar(name);
    var pending := root.Assign(value);
    root := pending.To(name);
    js := root.End();
  }

  /** A declaration, an assignment and an if clause. */
  method IfSession(name: string, value: string, condition: string, text: string) returns (js: string)
    ensures js == VarDecl(name) + AssignStmt(name, value) + Block(IfOpen("if", condition), text)
  {
    var root := Jsb.Create();
    root := root.DeclareVar(name);
    var pending := root.Assign(value);
    root := pending.To(name);
    var block := Jsb.CreateWith(text);
    var link := root.Iff(condition, block);
    root := link.EndIf();
    js := root.End();
  }

  /** A declaration and an if / else chain. */
  method ElseSession(name: string, value: string, condition: string, thenText: string,
                     elseText: string) returns (js: string)
    ensures js == VarDeclInit(name, value) + Block(IfOpen("if", condition), thenText)
                + Block(ElseOpen, elseText)
  {
    var root := Jsb.Create();
    root := root.DeclareVarInit(name, value);
    var thenBlock := Jsb.CreateWith(thenText);
    var link := root.Iff(condition, thenBlock);
    var elseBlock := Jsb.CreateWith(elseText);
    var last := link.Elsee(elseBlock);
    assert root.sb.content == VarDeclInit(name, value) + Block(IfOpen("if", condition), thenText);
    root := last.EndIf();
    js := root.End();
  }

  /** A declaration and an if / else-if chain. */
  method IfElseSession(name: string, value: string, condition: string, thenText: string,
                       elseIfCondition: string, elseIfText: string) returns (js: string)
    ensures js == VarDeclInit(name, value) + Block(IfOpen("if", condition), thenText)
                + Block(IfOpen("else if", elseIfCondition), elseIfText)
  {
    var root := Jsb.Create();
    root := root.DeclareVarInit(name, value);
    var thenBlock := Jsb.CreateWith(thenText);
    var link := root.Iff(condition, thenBlock);
    var elseIfBlock := Jsb.CreateWith(elseIfText);
    link := link.ElseIf(elseIfCondition, elseIfBlock);
    assert root.sb.content == VarDeclInit(name, value) + Block(IfOpen("if", condition), thenText);
    assert link.GetIfStr() == "else if";
    root := link.EndIf();
    js := root.End();
  }

  /** A declaration and an if / else-if / else chain, blocks given as text. */
  method IfElseAndElseSession(name: string, value: string, condition: string, thenText: string,
                              elseIfCondition: string, elseIfText: string, elseText: string)
    returns (js: string)
    ensures js == VarDeclInit(name, value) + Block(IfOpen("if", condition), thenText)
                + Block(IfOpen("else if", elseIfCondition), elseIfText)
                + Block(ElseOpen, elseText)
  {
    var root := Jsb.Create();
    root := root.DeclareVarInit(name, value);
    var link := root.IffText(condition, thenText);
    link := link.ElseIfText(elseIfCondition, elseIfText);
    assert root.sb.content == VarDeclInit(name, value) + Block(IfOpen("if", condition), thenText);
    assert link.GetIfStr() == "else if";
    var last := link.ElseeText(elseText);
    root := last.EndIf();
    js := root.End();
  }

  /** `jsb().ifThen(condition, text).end()` */
  method IfThenSession(condition: string, text: string) returns (js: string)
    ensures js == Block(IfOpen("if", condition), text)
  {
    var root := Jsb.Create();
    root := root.IfThen(condition, text);
    js := root.End();
  }

  /** A function declaration whose body holds an assignment and raw text. */
  method FuncSession(declaration: string, name: string, value: string, text: string)
    returns (js: string)
    ensures js == Block(FuncOpen(declaration), AssignStmt(name, value) + text)
  {
    var body := Jsb.Create();
    var pending := body.Assign(value);
    body := pending.To(name);
    body := body.Append(text);
    var root := Jsb.Create();
    root := root.DeclareFunc(declaration, body);
    js := root.End();
  }

  // ------------------------------------------------- the unit tests' texts

  method DeclaresVar() returns (js: string)
    ensures js == "var x;\n"
  {
    js := DeclareSession("x");
  }

  method CreatesScope() returns (js: string)
    ensures js == "(function() {\n" +
                  "var x;\n" +
                  "})()\n"
  {
    js := ScopeSession("x");
    assert ClosureHeader("") == "(function() {\n";
    assert ClosureFooter("") == "})()\n";
  }

  method PassesArgsToScope() returns (js: string)
    ensures js == "var x = 123;\n" +
                  "(function(x, $) {\n" +
                  "$('foo').bar(x);\n" +
                  "})(x, $)\n"
  {
    js := ArgsScopeSession("x", "123", "x, $", "$('foo').bar(x);");
    assert VarDeclInit("x", "123") == "var x = 123;\n";
    assert ClosureHeader("x, $") == "(function(x, $) {\n";
    assert ClosureFooter("x, $") == "})(x, $)\n";
  }

  method CreatesInnerScope() returns (js: string)
    ensures js == "(function() {\n" +
                    "(function() {\n" +
                      "(function() {\n" +
                        "alert('huhuu');\n" +
                      "})()\n" +
                    "})()\n" +
                  "})()\n"
  {
    js := InnerScopeSession("alert('huhuu');");
    assert ClosureHeader("") == "(function() {\n";
    assert ClosureFooter("") == "})()\n";
  }

  method DoesAssignment() returns (js: string)
    ensures js == "var x;\nx = 13;\n"
  {
    js := AssignmentSession("x", "13");
  }

  method DoesIfClause() returns (js: string)
    ensures js == "var x;\n" +
                  "x = 13;\n" +
                  "if (x === 13) {\n" +
                  "console.log(x);\n" +
                  "}\n"
  {
    js := IfSession("x", "13", "x === 13", "console.log(x);");
    assert VarDecl("x") == "var x;\n";
    assert AssignStmt("x", "13") == "x = 13;\n";
    IfClauseLines();
  }

  method DoesElse() returns (js: string)
    ensures js == "var x = 13;\n" +
                  "if (x === 13) {\n" +
                  "console.log(x);\n" +
                  "}\n" +
                  "else {\n" +
                  "console.log('foo!');\n" +
                  "}\n"
  {
    js := ElseSession("x", "13", "x === 13", "console.log(x);", "console.log('foo!');");
    assert VarDeclInit("x", "13") == "var x = 13;\n";
    IfClauseLines();
    assert Block(ElseOpen, "console.log('foo!');") == "else {\n" + "console.log('foo!');\n" + "}\n";
  }

  method DoesIfElse() returns (js: string)
    ensures js == "var x = 13;\n" +
                  "if (x === 13) {\n" +
                  "console.log(x);\n" +
                  "}\n" +
                  "else if (x < 3) {\n" +
                  "console.log('foo!');\n" +
                  "}\n"
  {
    js := IfElseSession("x", "13", "x === 13", "console.log(x);", "x < 3", "console.log('foo!');");
    IfElseText();
  }

  method DoesIfElseAndElse() returns (js: string)
    ensures js == "var x = 13;\n" +
                  "if (x === 13) {\n" +
                  "console.log(x);\n" +
                  "}\n" +
                  "else if (x < 3) {\n" +
                  "console.log('foo!');\n" +
                  "}\n" +
                  "else {\n" +
                  "console.log('!');\n" +
                  "}\n"
  {
    js := IfElseAndElseSession("x", "13", "x === 13", "console.log(x);", "x < 3", "console.log('foo!');",
                               "console.log('!');");
    IfElseText();
    assert Block(ElseOpen, "console.log('!');") == "else {\n" + "console.log('!');\n" + "}\n";
  }

  method UsesIfShortcut() returns (js: string)
    ensures js == "if (true) {\n" +
                  "alert('woo');\n" +
                  "}\n"
  {
    js := IfThenSession("true", "alert('woo');");
    assert IfOpen("if", "true") == "if (true) {";
  }

  method DeclaresFunc() returns (js: string)
    ensures js == "function foo(a, bar, c) {\n" +
                  "a = 12;\n" +
                  "alert('a is '+a+');\n" +
                  "}\n"
  {
    js := FuncSession("foo(a, bar, c)", "a", "12", "alert('a is '+a+');");
    assert FuncOpen("foo(a, bar, c)") == "function foo(a, bar, c) {";
    assert AssignStmt("a", "12") == "a = 12;\n";
  }

  // ------------------------------------------------------------- the edges

  /** Closing the root scope is refused and leaves its text alone. */
  method EndingRootFails(name: string) returns (r: Result<Jsb>, js: string)
    ensures r == Err("Can't end top level scope.")
    ensures js == VarDecl(name)
  {
    var root := Jsb.Create();
    root := root.DeclareVar(name);
    r := root.EndScope();
    js := root.End();
  }

  /** Ending a nested scope rewrites its buffer, so a second end wraps the
      closure once more and answers a different text. */
  method EndTwiceWrapsTwice(name: string) returns (first: string, second: string)
    ensures first == Closure("", VarDecl(name))
    ensures second == Closure("", first) && second != first
  {
    var root := Jsb.Create();
    var inner := root.Scope();
    inner := inner.DeclareVar(name);
    first := inner.End();
    second := inner.End();
    ClosureGrows("", first);
  }

  /** A scope used as the block of its own if clause: the block is rendered
      after the opening line has been written, so the text appears twice. */
  method SelfBlockRepeats(text: string, condition: string) returns (js: string)
    ensures js == text + IfOpen("if", condition) + "\n"
                + text + IfOpen("if", condition) + "\n"
                + "\n}\n"
  {
    var root := Jsb.CreateWith(text);
    var link := root.Iff(condition, root);
    root := link.EndIf();
    js := root.End();
  }

  /** The text of the if / else-if chain shared by two of the tests. */
  lemma IfElseText()
    ensures VarDeclInit("x", "13") + Block(IfOpen("if", "x === 13"), "console.log(x);")
          + Block(IfOpen("else if", "x < 3"), "console.log('foo!');")
         == "var x = 13;\n" + "if (x === 13) {\n" + "console.log(x);\n" + "}\n"
          + "else if (x < 3) {\n" + "console.log('foo!');\n" + "}\n"
  {
    assert VarDeclInit("x", "13") == "var x = 13;\n";
    IfClauseLines();
    ElseIfClauseLines();
    Regroup(VarDeclInit("x", "13"), Block(IfOpen("if", "x === 13"), "console.log(x);"),
            Block(IfOpen("else if", "x < 3"), "console.log('foo!');"),
            "var x = 13;\n", "if (x === 13) {\n", "console.log(x);\n", "}\n",
            "else if (x < 3) {\n", "console.log('foo!');\n", "}\n");
  }

  /** Regrouping a declaration and two three-line clauses into seven lines. */
  lemma Regroup(a: string, b: string, c: string,
                l1: string, l2: string, l3: string, l4: string, l5: string, l6: string, l7: string)
    requires a == l1 && b == l2 + l3 + l4 && c == l5 + l6 + l7
    ensures a + b + c == l1 + l2 + l3 + l4 + l5 + l6 + l7
  {
  }

  lemma IfClauseLines()
    ensures Block(IfOpen("if", "x === 13"), "console.log(x);") == "if (x === 13) {\n" + "console.log(x);\n" + "}\n"
  {
    assert IfOpen("if", "x === 13") + "\n" == "if (x === 13) {\n";
  }

  lemma ElseIfClauseLines()
    ensures Block(IfOpen("else if", "x < 3"), "console.log('foo!');")
         == "else if (x < 3) {\n" + "console.log('foo!');\n" + "}\n"
  {
    assert IfOpen("else if", "x < 3") + "\n" == "else if (x < 3) {\n";
  }
}
