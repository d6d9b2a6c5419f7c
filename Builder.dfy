/** The scope builder. A `Jsb` is one lexical scope: it owns a text buffer, may
    have an enclosing scope, and may carry the argument list used when it is
    rendered as an immediately invoked closure. The helper classes `IfScope`,
    `ElseScope`, `FuncScope` and `Assignment` are the short-lived links of a
    fluent call chain: each knows the scope it writes into and renders its
    text there when its terminal call comes.

    Only buffers change: every reference held by a scope or a link is fixed
    when it is made, so those fields are constants. */
module Builder {
  import TextBuffer
  import opened Templates

  datatype Result<T> = Ok(value: T) | Err(message: string)

  /** The message of the failure raised when the root scope is closed. */
  const TopLevelEndMessage: string := "Can't end top level scope."

  /** How a link splices a block into the scope it writes into: the opening
      line, the block's rendering on its own line, and a closing brace line.
      Ending the block may rewrite the block's own buffer; when that buffer is
      the context's own (a scope used as the block of its own clause), the
      rendering is taken after the opening line has been written and is then
      appended to the rewritten buffer. */
  ghost predicate Spliced(context: Jsb, block: Jsb, open: string,
                          contextBefore: string, blockBefore: string)
    reads context.sb, block.sb
  {
    if context.sb != block.sb then
      block.sb.content == block.Render(blockBefore) &&
      context.sb.content == contextBefore + Block(open, block.sb.content)
    else
      var rendered := block.Render(contextBefore + open + "\n");
      context.sb.content == rendered + rendered + "\n}\n"
  }

  /** The closing steps shared by every link: the block's rendering on its own
      line, then the closing brace line. */
  lemma ClosingLines(soFar: string, written: string, rendered: string, open: string, before: string)
    requires written == soFar + rendered + "\n" + "}" + "\n"
    ensures soFar == before + open + "\n" ==> written == before + Block(open, rendered)
    ensures soFar == rendered ==> written == rendered + rendered + "\n}\n"
  {
    assert rendered + "\n" + "}" + "\n" == rendered + "\n}\n";
  }

  class Jsb {
    const sb: TextBuffer.JsStringBuilder
    const outerScope: Jsb?
    const scopeArgs: Option<string>

    /** A nested scope writes into a different buffer than its parent: every
        scope allocates its own. */
    predicate Valid()
    {
      outerScope != null ==> outerScope.sb != sb
    }

    constructor (outerScope: Jsb?, scopeArgs: Option<string>)
      ensures this.outerScope == outerScope && this.scopeArgs == scopeArgs
      ensures fresh(sb) && sb.content == []
      ensures Valid()
    {
      this.outerScope := outerScope;
      this.sb := new TextBuffer.JsStringBuilder();
      this.scopeArgs := scopeArgs;
    }

    /** A new, empty root scope. */
    static method Create() returns (r: Jsb)
      ensures fresh(r) && fresh(r.sb)
      ensures r.outerScope == null && r.scopeArgs == None && r.sb.content == []
    {
      r := new Jsb(null, None);
    }

    /** A new root scope holding exactly `js`. */
    static method CreateWith(js: string) returns (r: Jsb)
      ensures fresh(r) && fresh(r.sb)
      ensures r.outerScope == null && r.scopeArgs == None && r.sb.content == js
    {
      var root := new Jsb(null, None);
      r := root.Append(js);
    }

    method DeclareVar(varName: string) returns (r: Jsb)
      modifies sb
      ensures r == this
      ensures sb.content == old(sb.content) + VarDecl(varName)
    {
      var b := sb.Append("var ");
      b := b.Append(varName);
      b := b.Append(";");
      b := b.Nl();
      r := this;
    }

    method DeclareVarInit(varName: string, value: string) returns (r: Jsb)
      modifies sb
      ensures r == this
      ensures sb.content == old(sb.content) + VarDeclInit(varName, value)
    {
      var b := sb.Append("var ");
      b := b.Append(varName);
      b := b.Append(" = ");
      b := b.Append(value);
      b := b.Append(";");
      b := b.Nl();
      r := this;
    }

    /** The first half of `assign(value).to(name)`; writes nothing yet. */
    method Assign(value: string) returns (r: Assignment)
      ensures fresh(r) && r.context == this && r.value == value
    {
      r := new Assignment(this, value);
    }

    /** The argument list of the closure, empty when none was given. */
    function GetScopeArgs(): (r: string)
      ensures scopeArgs == None ==> r == ""
      ensures scopeArgs.Some? ==> r == scopeArgs.value
    {
      if scopeArgs == None then "" else scopeArgs.value
    }

    /** What `End` answers for a scope whose buffer holds `body`. */
    function Render(body: string): (r: string)
      ensures outerScope == null ==> r == body
      ensures outerScope != null ==> ClosureBody(GetScopeArgs(), r) == Some(body)
    {
      if outerScope == null then body
      else ClosureRoundTrip(GetScopeArgs(), body); Closure(GetScopeArgs(), body)
    }

    /** The closure's opening line, built in a buffer of its own. */
    method ScopeDeclaration() returns (header: string)
      ensures header == ClosureHeader(GetScopeArgs())
    {
      var scopeDeclaration := new TextBuffer.JsStringBuilder();
      var d := scopeDeclaration.Append("(function(");
      d := d.Append(GetScopeArgs());
      d := d.Append(") {");
      d := d.Nl();
      header := d.ToString();
    }

    /** Renders the scope. A root scope answers its text and keeps it. A nested
        scope wraps its own buffer in place, so the buffer afterwards holds the
        closure, and a second call wraps it again. */
    method End() returns (r: string)
      modifies sb
      ensures r == sb.content
      ensures r == Render(old(sb.content))
    {
      if outerScope != null {
        var header := ScopeDeclaration();
        var b := sb.Prepend(header);
        ghost var wrapped := sb.content;
        b := b.Append("})(");
        b := b.Append(GetScopeArgs());
        b := b.Append(")");
        b := b.Nl();
        assert sb.content == wrapped + ClosureFooter(GetScopeArgs());
        r := b.ToString();
        return;
      }
      r := sb.ToString();
    }

    /** Closes a nested scope into its parent and answers the parent; closing
        the root fails and changes nothing. */
    method EndScope() returns (r: Result<Jsb>)
      requires Valid()
      modifies sb, if outerScope == null then {} else {outerScope.sb}
      ensures outerScope == null ==> r == Err(TopLevelEndMessage) && sb.content == old(sb.content)
      ensures outerScope != null ==>
        r.Ok? && r.value == outerScope &&
        sb.content == Closure(GetScopeArgs(), old(sb.content)) &&
        outerScope.sb.content == old(outerScope.sb.content) + sb.content
    {
      if outerScope == null {
        return Err(TopLevelEndMessage);
      }
      var rendered := End();
      var parent := outerScope.Append(rendered);
      r := Ok(parent);
    }

    method Append(str: string) returns (r: Jsb)
      modifies sb
      ensures r == this
      ensures sb.content == old(sb.content) + str
    {
      var b := sb.Append(str);
      r := this;
    }

    method AppendLn(str: string) returns (r: Jsb)
      modifies sb
      ensures r == this
      ensures sb.content == old(sb.content) + str + "\n"
    {
      var b := sb.Append(str);
      b := b.Nl();
      r := this;
    }

    /** Opens a nested scope without arguments; this scope is left as it is. */
    method Scope() returns (r: Jsb)
      ensures fresh(r) && fresh(r.sb) && r.Valid()
      ensures r.outerScope == this && r.scopeArgs == None && r.sb.content == []
    {
      r := new Jsb(this, None);
    }

    /** Opens a nested scope whose closure takes and passes `args`. */
    method ScopeWith(args: string) returns (r: Jsb)
      ensures fresh(r) && fresh(r.sb) && r.Valid()
      ensures r.outerScope == this && r.scopeArgs == Some(args) && r.sb.content == []
    {
      r := new Jsb(this, Some(args));
    }

    /** Starts an if chain on this scope; nothing is written yet. */
    method Iff(condition: string, blockScope: Jsb) returns (r: IfScope)
      ensures fresh(r) && r.context == this && r.blockScope == blockScope
      ensures r.condition == condition && !r.isElseIf
    {
      r := new IfScope(this, blockScope, condition, false);
    }

    /** Starts an if chain whose block is a root scope holding `str`. */
    method IffText(condition: string, str: string) returns (r: IfScope)
      ensures fresh(r) && r.context == this && r.condition == condition && !r.isElseIf
      ensures fresh(r.blockScope) && fresh(r.blockScope.sb)
      ensures r.blockScope.outerScope == null && r.blockScope.sb.content == str
    {
      var block := CreateWith(str);
      r := Iff(condition, block);
    }

    /** An if clause with no else, written at once. */
    method IfThen(condition: string, str: string) returns (r: Jsb)
      modifies sb
      ensures r == this
      ensures sb.content == old(sb.content) + Block(IfOpen("if", condition), str)
    {
      var link := IffText(condition, str);
      r := link.EndIf();
    }

    method DeclareFunc(funcDeclaration: string, funcScope: Jsb) returns (r: Jsb)
      modifies sb, funcScope.sb
      ensures r == this
      ensures Spliced(this, funcScope, FuncOpen(funcDeclaration), old(sb.content), old(funcScope.sb.content))
    {
      var f := new FuncScope(this, funcScope, funcDeclaration);
      r := f.EndFunc();
    }
  }

  class FuncScope {
    const funcDeclaration: string
    const funcScope: Jsb
    const context: Jsb

    constructor (context: Jsb, funcScope: Jsb, funcDeclaration: string)
      ensures this.context == context && this.funcScope == funcScope
      ensures this.funcDeclaration == funcDeclaration
    {
      this.context := context;
      this.funcDeclaration := funcDeclaration;
      this.funcScope := funcScope;
    }

    /** Writes `function <declaration> {`, the rendered body and `}`. */
    method EndFunc() returns (r: Jsb)
      modifies context.sb, funcScope.sb
      ensures r == context
      ensures Spliced(context, funcScope, FuncOpen(funcDeclaration),
                      old(context.sb.content), old(funcScope.sb.content))
    {
      var c := context.Append("function ");
      c := c.Append(funcDeclaration);
      c := c.AppendLn(" {");
      assert context.sb.content == old(context.sb.content) + FuncOpen(funcDeclaration) + "\n";
      var body := funcScope.End();
      ghost var soFar := context.sb.content;
      c := context.AppendLn(body);
      c := context.AppendLn("}");
      ClosingLines(soFar, context.sb.content, body, FuncOpen(funcDeclaration), old(context.sb.content));
      r := context;
    }
  }

  class IfScope {
    const context: Jsb
    const condition: string
    const blockScope: Jsb
    const isElseIf: bool

    constructor (context: Jsb, blockScope: Jsb, condition: string, isElseIf: bool)
      ensures this.context == context && this.blockScope == blockScope
      ensures this.condition == condition && this.isElseIf == isElseIf
    {
      this.condition := condition;
      this.blockScope := blockScope;
      this.context := context;
      this.isElseIf := isElseIf;
    }

    /** The keyword of this link. */
    function GetIfStr(): (r: string)
      ensures isElseIf <==> r == "else if"
      ensures !isElseIf <==> r == "if"
    {
      if isElseIf then "else if" else "if"
    }

    /** Writes this link's clause into the context and answers the context. */
    method EndIf() returns (r: Jsb)
      modifies context.sb, blockScope.sb
      ensures r == context
      ensures Spliced(context, blockScope, IfOpen(GetIfStr(), condition),
                      old(context.sb.content), old(blockScope.sb.content))
    {
      var c := context.AppendLn(GetIfStr() + " (" + condition + ") {");
      var body := blockScope.End();
      ghost var soFar := context.sb.content;
      c := context.AppendLn(body);
      c := context.AppendLn("}");
      ClosingLines(soFar, context.sb.content, body, IfOpen(GetIfStr(), condition), old(context.sb.content));
      r := context;
    }

    /** Writes this link's clause, then answers an else-if link on the same
        context. */
    method ElseIf(condition: string, blockScope: Jsb) returns (r: IfScope)
      modifies context.sb, this.blockScope.sb
      ensures Spliced(context, this.blockScope, IfOpen(GetIfStr(), this.condition),
                      old(context.sb.content), old(this.blockScope.sb.content))
      ensures fresh(r) && r.context == context && r.blockScope == blockScope
      ensures r.condition == condition && r.isElseIf
    {
      var c := EndIf();
      r := new IfScope(c, blockScope, condition, true);
    }

    /** `ElseIf` with a block that is a root scope holding `str`. */
    method ElseIfText(condition: string, str: string) returns (r: IfScope)
      modifies context.sb, blockScope.sb
      ensures Spliced(context, blockScope, IfOpen(GetIfStr(), this.condition),
                      old(context.sb.content), old(blockScope.sb.content))
      ensures fresh(r) && r.context == context && r.condition == condition && r.isElseIf
      ensures fresh(r.blockScope) && fresh(r.blockScope.sb)
      ensures r.blockScope.outerScope == null && r.blockScope.sb.content == str
    {
      var block := Jsb.CreateWith(str);
      r := ElseIf(condition, block);
    }

    /** Writes this link's clause, then answers the else link on the same
        context. */
    method Elsee(blockScope: Jsb) returns (r: ElseScope)
      modifies context.sb, this.blockScope.sb
      ensures Spliced(context, this.blockScope, IfOpen(GetIfStr(), condition),
                      old(context.sb.content), old(this.blockScope.sb.content))
      ensures fresh(r) && r.context == context && r.blockScope == blockScope
    {
      var c := EndIf();
      r := new ElseScope(c, blockScope);
    }

    /** `Elsee` with a block that is a root scope holding `str`. */
    method ElseeText(str: string) returns (r: ElseScope)
      modifies context.sb, blockScope.sb
      ensures Spliced(context, blockScope, IfOpen(GetIfStr(), condition),
                      old(context.sb.content), old(blockScope.sb.content))
      ensures fresh(r) && r.context == context
      ensures fresh(r.blockScope) && fresh(r.blockScope.sb)
      ensures r.blockScope.outerScope == null && r.blockScope.sb.content == str
    {
      var block := Jsb.CreateWith(str);
      r := Elsee(block);
    }
  }

  class ElseScope {
    const context: Jsb
    const blockScope: Jsb

    constructor (context: Jsb, blockScope: Jsb)
      ensures this.context == context && this.blockScope == blockScope
    {
      this.context := context;
      this.blockScope := blockScope;
    }

    /** Writes `else {`, the rendered block and `}`; answers the context. */
    method EndIf() returns (r: Jsb)
      modifies context.sb, blockScope.sb
      ensures r == context
      ensures Spliced(context, blockScope, ElseOpen,
                      old(context.sb.content), old(blockScope.sb.content))
    {
      var c := context.AppendLn("else {");
      var body := blockScope.End();
      ghost var soFar := context.sb.content;
      c := context.AppendLn(body);
      c := context.AppendLn("}");
      ClosingLines(soFar, context.sb.content, body, ElseOpen, old(context.sb.content));
      r := context;
    }
  }

  class Assignment {
    const context: Jsb
    const value: string

    constructor (context: Jsb, value: string)
      ensures this.context == context && this.value == value
    {
      this.context := context;
      this.value := value;
    }

    /** Writes `<name> = <value>;` into the context and answers it. */
    method To(varName: string) returns (r: Jsb)
      modifies context.sb
      ensures r == context
      ensures context.sb.content == old(context.sb.content) + AssignStmt(varName, value)
    {
      var c := context.Append(varName);
      c := c.Append(" = ");
      c := c.Append(value);
      c := c.AppendLn(";");
      r := c;
    }
  }
}
