/** The construct tree of jenna/jenna_parts.py as values, and the text each
    construct renders to (its `__str__`).

    Python's renderers read an object's own `indent_level`; a composite that
    re-stamps a child (`Function`) first sets the child's level and then
    renders it. The renderers here therefore take the indent level to render
    at as a parameter (`...At(x, n)`): rendering a child "stamped to n" is
    `BlockTextAt(child, n)`, and `BlockTextAtIsStampThenRender` shows this is
    the same as setting the child's level to `n` and rendering it.

    Rendering can raise `CodegenError` (an `IfElse` with no `if_` anywhere in
    the tree), so composite renderers return a `Result`. */
module JennaParts {
  import opened Wrappers
  import opened Utils
  import OrderedDict

  const NoIfMessage := "No If object attached to IfElse object"
  const BadDecoratorMessage := "Invalid decorator value. Decorator should start with @"
  const BadMethodMessage := "method name or argument name invalid"

  /** `'\t' * n`; Python's string repetition gives "" for n <= 0. */
  function Tabs(n: int): (r: string)
    ensures |r| == if n <= 0 then 0 else n
    ensures forall i :: 0 <= i < |r| ==> r[i] == '\t'
  {
    if n <= 0 then "" else Tabs(n - 1) + "\t"
  }

  lemma TabsStep(n: int)
    requires n >= 0
    ensures Tabs(n) + "\t" == Tabs(n + 1)
  {
  }

  // =====================================================================
  // Values: String, ClassInstance, Variable
  // =====================================================================

  /** What a value slot can hold: a `String` literal, a `ClassInstance`, or
      any other text, which the renderers pass through raw. */
  datatype Value = Lit(s: string) | Inst(instance: ClassInstance) | Raw(s: string)

  /** `ClassInstance(class_name, *args, **kwargs)`; the keyword arguments keep
      Python's dict order. */
  datatype ClassInstance = ClassInstance(className: string, args: seq<string>, kwargs: seq<(string, Value)>)

  datatype Variable = Variable(name: string, value: Value)

  /** A value's text: a literal is single-quoted with its text intact, an
      instance starts with its class name, anything else is passed through. */
  function ValueText(v: Value): (r: string)
    ensures v.Lit? ==> |r| == |v.s| + 2 && r[1..|r| - 1] == v.s
    ensures v.Inst? ==> |r| > |v.instance.className| && r[..|v.instance.className|] == v.instance.className
    ensures v.Raw? ==> r == v.s
    decreases v
  {
    match v
    case Lit(s) => Stringify(s)
    case Inst(ci) => InstanceText(ci)
    case Raw(s) => s
  }

  /** The first `k` `key=value` pieces of a class instance's keyword arguments. */
  function KwargPieces(ci: ClassInstance, k: nat): (r: seq<string>)
    requires k <= |ci.kwargs|
    ensures |r| == k
    ensures forall i :: 0 <= i < k ==> r[i] == ci.kwargs[i].0 + "=" + ValueText(ci.kwargs[i].1)
    decreases ci, k
  {
    if k == 0 then []
    else KwargPieces(ci, k - 1) + [ci.kwargs[k - 1].0 + "=" + ValueText(ci.kwargs[k - 1].1)]
  }

  /** `ClassInstance.__str__`. */
  function InstanceText(ci: ClassInstance): (r: string)
    ensures |r| >= |ci.className| + 2
    ensures r[..|ci.className| + 1] == ci.className + "(" && r[|r| - 1] == ')'
    ensures |ci.args| == 0 && |ci.kwargs| == 0 ==> r == ci.className + "()"
    decreases ci
  {
    var args := Join(ci.args, ", ");
    var kwargs := Join(KwargPieces(ci, |ci.kwargs|), ", ");
    var kwargs' := if kwargs != "" && args != "" then ", " + kwargs else kwargs;
    ci.className + "(" + args + kwargs' + ")"
  }

  /** `ClassInstance.add_kwarg`: last write wins, in dict order. */
  function AddKwarg(ci: ClassInstance, key: string, value: Value): (r: ClassInstance)
    ensures r.className == ci.className && r.args == ci.args
    ensures OrderedDict.Get(r.kwargs, key) == Some(value)
    ensures forall k :: k != key ==> OrderedDict.Get(r.kwargs, k) == OrderedDict.Get(ci.kwargs, k)
  {
    OrderedDict.PutThenGet(ci.kwargs, key, value);
    forall k | k != key
      ensures OrderedDict.Get(OrderedDict.Put(ci.kwargs, key, value), k) == OrderedDict.Get(ci.kwargs, k)
    {
      OrderedDict.PutOtherKey(ci.kwargs, key, value, k);
    }
    ci.(kwargs := OrderedDict.Put(ci.kwargs, key, value))
  }

  /** `Variable.__str__`: a new line, `name = `, then the value's text. */
  function VariableText(v: Variable): (r: string)
    ensures |r| == |v.name| + 4 + |ValueText(v.value)|
    ensures r[..|v.name| + 4] == "\n" + v.name + " = "
    ensures r[|v.name| + 4..] == ValueText(v.value)
  {
    "\n" + v.name + " = " + ValueText(v.value)
  }

  // =====================================================================
  // Blocks
  // =====================================================================

  /** `Expr`: a single line of code. */
  datatype Expr = Expr(expression: string, indentLevel: int)

  /** `If`: an `if` or `elif` head with its actions; `ifType` is the keyword
      emitted ('if' or 'elif'). */
  datatype If = If(expr: Expr, action: seq<Expr>, ifType: string, indentLevel: int)

  /** `IfElse`: `ifBlock` is Jenna's `if_`, None until one is attached. */
  datatype IfElseDef = IfElseDef(elseAction: seq<Expr>, indentLevel: int, elifs: seq<If>, ifBlock: Option<If>)

  /** Any renderable construct that has an indent level. */
  datatype Block =
    | ExprBlock(expr: Expr)
    | FunctionBlock(fn: FunctionDef)
    | ClassBlock(cls: ClassDef)
    | IfBlock(cond: If)
    | IfElseBlock(chain: IfElseDef)

  /** A function body: `None` in Jenna, or a list of blocks. */
  datatype Body = NoBody | Body(blocks: seq<Block>)

  /** `Function`, and `Method`, which differs only in how it is constructed. */
  datatype FunctionDef = FunctionDef(name: string, arguments: seq<string>, body: Body, indentLevel: int, decorators: seq<string>)

  /** `Class`. `classVariables` is Jenna's `class_variables` dict;
      `description` is the stored form (already triple-quoted, or ""). */
  datatype ClassDef = ClassDef(
    name: string,
    baseClass: Option<string>,
    addInitMethod: bool,
    indentLevel: int,
    methods: seq<FunctionDef>,
    classVariables: seq<(string, string)>,
    subclasses: seq<ClassDef>,
    description: string)

  // ---------------------------------------------------------------------
  // Block's indent operations
  // ---------------------------------------------------------------------

  function GetIndentLevel(b: Block): int
  {
    match b
    case ExprBlock(e) => e.indentLevel
    case FunctionBlock(f) => f.indentLevel
    case ClassBlock(c) => c.indentLevel
    case IfBlock(i) => i.indentLevel
    case IfElseBlock(ie) => ie.indentLevel
  }

  function SetIndentLevel(b: Block, n: int): (r: Block)
    ensures GetIndentLevel(r) == n
  {
    match b
    case ExprBlock(e) => ExprBlock(e.(indentLevel := n))
    case FunctionBlock(f) => FunctionBlock(f.(indentLevel := n))
    case ClassBlock(c) => ClassBlock(c.(indentLevel := n))
    case IfBlock(i) => IfBlock(i.(indentLevel := n))
    case IfElseBlock(ie) => IfElseBlock(ie.(indentLevel := n))
  }

  function IncrementIndentLevel(b: Block): Block
  {
    SetIndentLevel(b, GetIndentLevel(b) + 1)
  }

  /** Two blocks that differ at most in their own indent level. */
  predicate SameUpToIndent(a: Block, b: Block)
  {
    SetIndentLevel(a, 0) == SetIndentLevel(b, 0)
  }

  /** Blocks equal up to their level are of the same kind. */
  lemma SameUpToIndentSameKind(a: Block, b: Block)
    requires SameUpToIndent(a, b)
    ensures a.ExprBlock? == b.ExprBlock?
  {
    assert SetIndentLevel(a, 0).ExprBlock? == a.ExprBlock?;
    assert SetIndentLevel(b, 0).ExprBlock? == b.ExprBlock?;
  }

  /** The indent operations: the last level set is the one read back,
      incrementing adds exactly one, and neither touches anything else. */
  lemma IndentOperations(b: Block, n: int)
    ensures GetIndentLevel(SetIndentLevel(b, n)) == n
    ensures GetIndentLevel(IncrementIndentLevel(SetIndentLevel(b, n))) == n + 1
    ensures SameUpToIndent(SetIndentLevel(b, n), b) && SameUpToIndent(IncrementIndentLevel(b), b)
    ensures SetIndentLevel(SetIndentLevel(b, n), GetIndentLevel(b)) == b
  {
  }

  // ---------------------------------------------------------------------
  // Expr, If
  // ---------------------------------------------------------------------

  /** `Expr.__str__`: exactly `indentLevel` tabs, then the expression verbatim. */
  function ExprText(e: Expr): (r: string)
    ensures var t := if e.indentLevel <= 0 then 0 else e.indentLevel;
      |r| == t + |e.expression| &&
      (forall i :: 0 <= i < t ==> r[i] == '\t') &&
      r[t..] == e.expression
  {
    Tabs(e.indentLevel) + e.expression
  }

  /** The first `k` action lines of an `If` at indent `tabs`; every line but
      the overall last ends in a newline. */
  function IfActions(action: seq<Expr>, tabs: string, k: nat): string
    requires k <= |action|
  {
    if k == 0 then ""
    else IfActions(action, tabs, k - 1) + tabs + "\t" + ExprText(action[k - 1]) + (if k == |action| then "" else "\n")
  }

  function IfActionLines(action: seq<Expr>, tabs: string): (r: seq<string>)
    ensures |r| == |action|
    ensures forall j :: 0 <= j < |action| ==> r[j] == tabs + "\t" + ExprText(action[j])
  {
    seq(|action|, j requires 0 <= j < |action| => tabs + "\t" + ExprText(action[j]))
  }

  /** One more action line that is not the last: the line and a newline. */
  lemma IfActionsStep(action: seq<Expr>, tabs: string, k: nat)
    requires 0 < k < |action|
    ensures IfActions(action, tabs, k) == IfActions(action, tabs, k - 1) + IfActionLines(action, tabs)[k - 1] + "\n"
  {
    var line := tabs + "\t" + ExprText(action[k - 1]);
    assert IfActionLines(action, tabs)[k - 1] == line;
    Regroup4(IfActions(action, tabs, k - 1), tabs, "\t", ExprText(action[k - 1]));
  }

  /** The last action line carries no newline. */
  lemma IfActionsLast(action: seq<Expr>, tabs: string)
    requires 0 < |action|
    ensures IfActions(action, tabs, |action|) ==
      IfActions(action, tabs, |action| - 1) + IfActionLines(action, tabs)[|action| - 1]
  {
    var k := |action|;
    var line := tabs + "\t" + ExprText(action[k - 1]);
    assert IfActionLines(action, tabs)[k - 1] == line;
    Regroup4(IfActions(action, tabs, k - 1), tabs, "\t", ExprText(action[k - 1]));
    assert IfActions(action, tabs, k) == IfActions(action, tabs, k - 1) + line + "";
  }

  /** The first of several lines, after nothing, is the one-line join. */
  lemma ActionsFirst(empty: string, lines: seq<string>)
    requires empty == "" && 0 < |lines|
    ensures empty + lines[0] + "\n" == Join(lines[..1], "\n") + "\n"
  {
    assert lines[..1] == [lines[0]];
    assert empty + lines[0] == lines[0];
  }

  lemma {:induction false} IfActionsPrefix(action: seq<Expr>, tabs: string, k: nat)
    requires 0 < k < |action|
    ensures IfActions(action, tabs, k) == Join(IfActionLines(action, tabs)[..k], "\n") + "\n"
  {
    var lines := IfActionLines(action, tabs);
    IfActionsStep(action, tabs, k);
    if k == 1 {
      ActionsFirst(IfActions(action, tabs, 0), lines);
    } else {
      IfActionsPrefix(action, tabs, k - 1);
      JoinPrefixSnoc(lines, k, "\n");
      JoinedLast(IfActions(action, tabs, k - 1) + lines[k - 1], IfActions(action, tabs, k - 1), lines[k - 1],
        Join(lines[..k], "\n"), Join(lines[..k - 1], "\n"), "\n");
    }
  }

  /** The action lines are joined with newlines; the action `Expr`s keep their
      own indent, so their tabs come on top of the head's indent plus one. */
  lemma IfActionsAreJoinedLines(action: seq<Expr>, tabs: string)
    ensures IfActions(action, tabs, |action|) == Join(IfActionLines(action, tabs), "\n")
  {
    var lines := IfActionLines(action, tabs);
    var n := |action|;
    if n == 1 {
      IfActionsLast(action, tabs);
      assert IfActions(action, tabs, 0) + lines[0] == lines[0];
    } else if n > 1 {
      IfActionsLast(action, tabs);
      IfActionsPrefix(action, tabs, n - 1);
      JoinedLast(IfActions(action, tabs, n), IfActions(action, tabs, n - 1), lines[n - 1],
        Join(lines, "\n"), Join(lines[..n - 1], "\n"), "\n");
    }
  }

  /** `If.__str__`, rendered at indent level `n`. */
  function IfTextAt(i: If, n: int): (r: string)
    ensures var head := "\n" + Tabs(n) + i.ifType + " " + ExprText(i.expr) + ":\n";
      |r| >= |head| && r[..|head|] == head
    ensures |i.action| == 0 ==> r == "\n" + Tabs(n) + i.ifType + " " + ExprText(i.expr) + ":\n"
  {
    var tabs := Tabs(n);
    "\n" + tabs + i.ifType + " " + ExprText(i.expr) + ":\n" + IfActions(i.action, tabs, |i.action|)
  }

  /** `If.__str__` at the `If`'s own level. */
  function IfText(i: If): (r: string)
    ensures var head := "\n" + Tabs(i.indentLevel) + i.ifType + " " + ExprText(i.expr) + ":\n";
      |r| >= |head| && r[..|head|] == head
  {
    IfTextAt(i, i.indentLevel)
  }

  // ---------------------------------------------------------------------
  // IfElse
  // ---------------------------------------------------------------------

  /** The `if_` actions as `IfElse.__str__` builds them: every line ends in a newline. */
  function IfElseActions(action: seq<Expr>, tabs: string, k: nat): string
    requires k <= |action|
  {
    if k == 0 then "" else IfElseActions(action, tabs, k - 1) + tabs + "\t" + ExprText(action[k - 1]) + "\n"
  }

  /** The else part: the loop assigns rather than appends, so only the last
      else-action survives; none gives `pass`. */
  function ElseAction(elseAction: seq<Expr>, tabs: string): string
  {
    if |elseAction| == 0 then "pass"
    else tabs + "\t" + ExprText(elseAction[|elseAction| - 1]) + "\n"
  }

  /** The first `k` elifs, each followed by a newline. */
  function ElifLines(elifs: seq<If>, k: nat): (r: string)
    requires k <= |elifs|
    ensures k > 0 ==> |r| > 0
  {
    if k == 0 then "" else ElifLines(elifs, k - 1) + IfText(elifs[k - 1]) + "\n"
  }

  /** The body of the `if` part: a bare `pass` when it has no actions,
      otherwise its action lines with the trailing whitespace stripped. */
  function IfPart(action: seq<Expr>, tabs: string): (r: string)
    ensures |action| == 0 ==> r == "pass"
    ensures |action| > 0 ==> r == RStrip(IfElseActions(action, tabs, |action|), Whitespace)
  {
    var ifLines := IfElseActions(action, tabs, |action|);
    var ifAction := if ifLines == "" then "pass" else ifLines;
    assert 'p' !in Whitespace && 's' !in Whitespace;
    RStrip(ifAction, Whitespace)
  }

  /** The elif part: nothing at all without elifs, otherwise a newline and
      every elif on its own line, in insertion order. */
  function ElifPart(elifs: seq<If>): (r: string)
    ensures |elifs| == 0 ==> r == ""
    ensures |elifs| > 0 ==> r == "\n" + ElifLines(elifs, |elifs|)
  {
    var lines := "\n" + ElifLines(elifs, |elifs|);
    if lines == "\n" then "" else lines
  }

  /** `IfElse.__str__`, rendered at indent level `n`. */
  function IfElseTextAt(ie: IfElseDef, n: int): (r: Result<string>)
    ensures r.Err? <==> ie.ifBlock.None?
    ensures r.Err? ==> r.message == NoIfMessage
  {
    match ie.ifBlock
    case None => Err(NoIfMessage)
    case Some(ifb) =>
      var tabs := Tabs(n);
      Ok("\n" + tabs + "if " + ExprText(ifb.expr) + ":\n" + IfPart(ifb.action, tabs) + ElifPart(ie.elifs) +
         tabs + "else:\n" + ElseAction(ie.elseAction, tabs))
  }

  function IfElseText(ie: IfElseDef): Result<string>
  {
    IfElseTextAt(ie, ie.indentLevel)
  }

  /** `IfElse.add_elif` on values: the conditional to store, and the chain
      after storing it. Without an `if_` yet, the conditional becomes the
      `if_` as an `if`, its level untouched; afterwards each becomes an
      `elif` at the chain's level, appended after the others. */
  function StoredElif(ie: IfElseDef, e: If): If
  {
    if ie.ifBlock.None? then e.(ifType := "if") else e.(ifType := "elif", indentLevel := ie.indentLevel)
  }

  function AddElifTo(ie: IfElseDef, e: If): (r: IfElseDef)
    ensures r.elseAction == ie.elseAction && r.indentLevel == ie.indentLevel
  {
    var stored := StoredElif(ie, e);
    if ie.ifBlock.None? then ie.(ifBlock := Some(stored)) else ie.(elifs := ie.elifs + [stored])
  }

  // ---------------------------------------------------------------------
  // Function, Method, Class, and blocks in general
  // ---------------------------------------------------------------------

  /** One line per decorator, each at the function's indent. */
  function DecoratorLines(decorators: seq<string>, tabs: string): (r: string)
    ensures r == "" <==> |decorators| == 0
    ensures |decorators| > 0 ==> r[0] == '\n'
  {
    if |decorators| == 0 then ""
    else DecoratorLines(decorators[..|decorators| - 1], tabs) + "\n" + tabs + decorators[|decorators| - 1]
  }

  /** The decorator lines, then the `def` line. */
  function FunctionHead(f: FunctionDef, tabs: string): (r: string)
    ensures var d := DecoratorLines(f.decorators, tabs);
      |r| > |d| + 2 && r[..|d|] == d && r[|r| - 2..] == "):"
  {
    DecoratorLines(f.decorators, tabs) + "\n" + tabs + "def " + f.name + "(" + Join(f.arguments, ", ") + "):"
  }

  /** The text one body block contributes: an `Expr` is put on a new line,
      any other block brings its own leading newline. */
  function BodyPiece(b: Block, text: string): string
  {
    if b.ExprBlock? then "\n" + text else text
  }

  /** The first `k` body blocks, each rendered at indent level `child`. */
  function BodyLines(blocks: seq<Block>, k: nat, child: int): (r: Result<string>)
    requires k <= |blocks|
    ensures r.Err? ==> r.message == NoIfMessage
    decreases blocks, k
  {
    if k == 0 then Ok("")
    else
      match BodyLines(blocks, k - 1, child)
      case Err(m) => Err(m)
      case Ok(prefix) =>
        match BlockTextAt(blocks[k - 1], child)
        case Err(m) => Err(m)
        case Ok(t) => Ok(prefix + BodyPiece(blocks[k - 1], t))
  }

  /** `Function.__str__` at indent level `n`: with no body, a stub of exactly
      two lines at `n + 1`; otherwise every body block at `n + 1`. */
  function FunctionTextAt(f: FunctionDef, n: int): (r: Result<string>)
    ensures r.Err? ==> r.message == NoIfMessage
    decreases f
  {
    var tabs := Tabs(n);
    match f.body
    case NoBody =>
      Ok(FunctionHead(f, tabs) + "\n" + tabs + "\t# write method body\n" + tabs + "\tpass")
    case Body(blocks) =>
      match BodyLines(blocks, |blocks|, n + 1)
      case Err(m) => Err(m)
      case Ok(lines) => Ok(FunctionHead(f, tabs) + lines)
  }

  function FunctionText(f: FunctionDef): Result<string>
  {
    FunctionTextAt(f, f.indentLevel)
  }

  /** The first `k` methods, each on a new line at its own (stamped) indent. */
  function MethodsText(methods: seq<FunctionDef>, k: nat): (r: Result<string>)
    requires k <= |methods|
    ensures r.Err? ==> r.message == NoIfMessage
    decreases methods, k
  {
    if k == 0 then Ok("")
    else
      match MethodsText(methods, k - 1)
      case Err(m) => Err(m)
      case Ok(prefix) =>
        match FunctionTextAt(methods[k - 1], methods[k - 1].indentLevel)
        case Err(m) => Err(m)
        case Ok(t) => Ok(prefix + "\n" + t)
  }

  /** One `\n\t<tabs>name = value` line per class variable, in order. */
  function ClassVarsText(vars: seq<(string, string)>, tabs: string): (r: string)
    ensures r == "" <==> |vars| == 0
  {
    if |vars| == 0 then ""
    else ClassVarsText(vars[..|vars| - 1], tabs) + "\n\t" + tabs + vars[|vars| - 1].0 + " = " + vars[|vars| - 1].1
  }

  /** The first `k` nested classes are all rendered (so any of them can
      raise), but the loop assigns, so only the last one's text is kept. */
  function SubclassText(subclasses: seq<ClassDef>, k: nat): (r: Result<string>)
    requires k <= |subclasses|
    ensures r.Err? ==> r.message == NoIfMessage
    decreases subclasses, k
  {
    if k == 0 then Ok("")
    else
      match SubclassText(subclasses, k - 1)
      case Err(m) => Err(m)
      case Ok(_) =>
        match ClassTextAt(subclasses[k - 1], subclasses[k - 1].indentLevel)
        case Err(m) => Err(m)
        case Ok(t) => Ok("\t" + t)
  }

  /** The base class in parentheses, or nothing without one. */
  function BaseClassPart(baseClass: Option<string>): (r: string)
    ensures baseClass.None? ==> r == ""
    ensures baseClass.Some? ==> r == "(" + baseClass.value + ")"
  {
    match baseClass
    case None => ""
    case Some(b) => "(" + b + ")"
  }

  /** The `class` line, with the description (if any) on the next line. */
  function ClassHeader(c: ClassDef, tabs: string): (r: string)
    ensures var line := "\n\n" + tabs + "class " + c.name;
      |r| > |line| && r[..|line|] == line
    ensures c.description == "" ==> r[|r| - 1] == ':'
    ensures c.description != "" ==>
      |r| >= |c.description| + 2 && r[|r| - |c.description| - 2..] == "\n\t" + c.description
  {
    var description := if c.description != "" then "\n\t" + c.description else "";
    "\n\n" + tabs + "class " + c.name + BaseClassPart(c.baseClass) + ":" + description
  }

  /** The `__init__` stub; its closing `pass` is two tabs in, whatever the
      class's own tabs. */
  function InitStub(c: ClassDef, tabs: string): (r: string)
    ensures r == "" <==> !c.addInitMethod
    ensures c.addInitMethod ==> |r| > 7 + |tabs| && r[..2 + |tabs|] == "\n\t" + tabs && r[|r| - 7..] == "\n\t\tpass"
  {
    if c.addInitMethod then "\n\t" + tabs + "def __init__(self):\n\t\t" + tabs + "# initialise class here\n\t\tpass"
    else ""
  }

  /** The class has nothing to put in its body. */
  predicate IsEmptyClass(c: ClassDef)
  {
    |c.subclasses| == 0 && |c.classVariables| == 0 && !c.addInitMethod && |c.methods| == 0
  }

  /** `Class.__str__` at indent level `n`: header, then nested class,
      variables, init stub and methods in that order, or a lone `\tpass`. */
  function ClassTextAt(c: ClassDef, n: int): (r: Result<string>)
    ensures r.Err? ==> r.message == NoIfMessage
    decreases c
  {
    var tabs := Tabs(n);
    match MethodsText(c.methods, |c.methods|)
    case Err(m) => Err(m)
    case Ok(methods) =>
      var vars := ClassVarsText(c.classVariables, tabs);
      match SubclassText(c.subclasses, |c.subclasses|)
      case Err(m) => Err(m)
      case Ok(subs) => Ok(ClassLayout(c, tabs, subs, vars, methods))
  }

  /** The class body: nested class, variables, init stub, methods. */
  function ClassBody(c: ClassDef, tabs: string, subs: string, vars: string, methods: string): string
  {
    subs + vars + InitStub(c, tabs) + methods
  }

  /** How `Class.__str__` lays out its already rendered parts. */
  function ClassLayout(c: ClassDef, tabs: string, subs: string, vars: string, methods: string): string
  {
    var init := InitStub(c, tabs);
    if subs != "" || vars != "" || init != "" || methods != "" then
      ClassHeader(c, tabs) + ClassBody(c, tabs, subs, vars, methods) + "\n"
    else
      ClassHeader(c, tabs) + "\n" + ExprText(Expr("pass", 1)) + "\n"
  }

  function ClassText(c: ClassDef): Result<string>
  {
    ClassTextAt(c, c.indentLevel)
  }

  /** Any block rendered at indent level `n`. */
  function BlockTextAt(b: Block, n: int): (r: Result<string>)
    ensures r.Err? ==> r.message == NoIfMessage
    decreases b
  {
    match b
    case ExprBlock(e) => Ok(ExprText(e.(indentLevel := n)))
    case FunctionBlock(f) => FunctionTextAt(f, n)
    case ClassBlock(c) => ClassTextAt(c, n)
    case IfBlock(i) => Ok(IfTextAt(i, n))
    case IfElseBlock(ie) => IfElseTextAt(ie, n)
  }

  /** `str(block)`: a block rendered at its own indent level. */
  function BlockText(b: Block): Result<string>
  {
    BlockTextAt(b, GetIndentLevel(b))
  }

  // ---------------------------------------------------------------------
  // Construction helpers
  // ---------------------------------------------------------------------

  /** `Method.__init__`: a non-static method gets `self` in front of the
      supplied arguments; the default indent level is 1. */
  function MethodDef(name: string, arguments: seq<string>, indentLevel: int := 1,
                     decorators: seq<string> := [], body: Body := NoBody, isStatic: bool := false): (f: FunctionDef)
    ensures f.arguments == if isStatic then arguments else ["self"] + arguments
    ensures f.name == name && f.indentLevel == indentLevel && f.decorators == decorators && f.body == body
  {
    FunctionDef(name, if isStatic then arguments else ["self"] + arguments, body, indentLevel, decorators)
  }

  /** `Class.__init__`'s name normalisation: only the first character is
      upper-cased (Python's `name[0]` needs a non-empty name). */
  function ClassName(name: string): (r: string)
    requires |name| > 0
    ensures |r| == |name| && r[0] == ToUpper(name[0]) && r[1..] == name[1..]
  {
    [ToUpper(name[0])] + name[1..]
  }

  /** The `description` property setter: None is stored as "", anything else
      triple-quoted. */
  function StoredDescription(d: Option<string>): (r: string)
    ensures d.None? ==> r == ""
    ensures d.Some? ==> r == TripleStringify(d.value) && r != ""
  {
    match d
    case None => ""
    case Some(s) => TripleStringify(s)
  }

  /** `Function.__str__`'s side effect on its body: every block is stamped
      with the function's indent level plus one. */
  function StampBlocks(blocks: seq<Block>, n: int, k: nat): (r: seq<Block>)
    requires k <= |blocks|
    ensures |r| == |blocks|
    ensures forall i :: 0 <= i < k ==> r[i] == SetIndentLevel(blocks[i], n)
    ensures forall i :: k <= i < |blocks| ==> r[i] == blocks[i]
  {
    seq(|blocks|, i requires 0 <= i < |blocks| => if i < k then SetIndentLevel(blocks[i], n) else blocks[i])
  }

  /** What `Function.__str__` leaves behind when body block `stamped - 1`
      raises: the blocks up to and including it are stamped, the rest are
      untouched, and every block before it rendered. */
  predicate PartlyStamped(f: FunctionDef, b: Body, stamped: nat)
  {
    f.body.Body? && 0 < stamped <= |f.body.blocks| &&
    b == Body(StampBlocks(f.body.blocks, f.indentLevel + 1, stamped)) &&
    BodyLines(f.body.blocks, stamped - 1, f.indentLevel + 1).Ok? &&
    BlockTextAt(f.body.blocks[stamped - 1], f.indentLevel + 1).Err?
  }

  function Restamp(f: FunctionDef): (r: FunctionDef)
    ensures r.name == f.name && r.arguments == f.arguments && r.indentLevel == f.indentLevel
    ensures r.decorators == f.decorators && r.body.NoBody? == f.body.NoBody?
  {
    match f.body
    case NoBody => f
    case Body(blocks) => f.(body := Body(StampBlocks(blocks, f.indentLevel + 1, |blocks|)))
  }
}
