/** The mutable objects of jenna/jenna_parts.py: `Function` (and `Method`),
    `Class` and `IfElse` keep their fields on the heap, and their `add_*`
    mutators and setters change those fields in place. Each object's
    `Value()` is the tree value the reference renderers of `JennaParts`
    read, and each `Render` method is Jenna's accumulator loop, proved
    to produce exactly the reference text.

    Children are stored as values: a child object added to a parent is
    copied at the moment it is added. */
module JennaObjects {
  import opened Wrappers
  import opened Utils
  import opened JennaParts
  import OrderedDict
  import RenderProperties

  // =====================================================================
  // Function, Method
  // =====================================================================

  class Function {
    var name: string
    var arguments: seq<string>
    var body: Body
    var indentLevel: int
    var decorators: seq<string>

    function Value(): FunctionDef
      reads this
    {
      FunctionDef(name, arguments, body, indentLevel, decorators)
    }

    /** `Function.__init__`; a missing decorator list is the empty one. */
    constructor (name: string, arguments: seq<string>, body: Body := NoBody, indentLevel: int := 0,
                 decorators: seq<string> := [])
      ensures Value() == FunctionDef(name, arguments, body, indentLevel, decorators)
    {
      this.name := name;
      this.arguments := arguments;
      this.decorators := decorators;
      this.body := body;
      this.indentLevel := indentLevel;
    }

    /** `Method.__init__`: `self` goes first unless the method is static. */
    constructor Method(name: string, arguments: seq<string>, indentLevel: int := 1,
                       decorators: seq<string> := [], body: Body := NoBody, isStatic: bool := false)
      ensures Value() == MethodDef(name, arguments, indentLevel, decorators, body, isStatic)
    {
      this.name := name;
      this.arguments := if isStatic then arguments else ["self"] + arguments;
      this.decorators := decorators;
      this.body := body;
      this.indentLevel := indentLevel;
    }

    method SetIndentLevel(n: int)
      modifies this`indentLevel
      ensures indentLevel == n
    {
      indentLevel := n;
    }

    method IncrementIndentLevel()
      modifies this`indentLevel
      ensures indentLevel == old(indentLevel) + 1
    {
      indentLevel := indentLevel + 1;
    }

    /** `add_decorator`: a decorator not starting with `@` is refused and the
        list is left as it was; any other is appended last. An empty string
        makes Python fail on its first character. */
    method AddDecorator(d: string) returns (o: Outcome)
      requires |d| > 0
      modifies this`decorators
      ensures o.Fail? <==> d[0] != '@'
      ensures o.Fail? ==> o.message == BadDecoratorMessage && decorators == old(decorators)
      ensures o.Pass? ==> decorators == old(decorators) + [d]
    {
      if d[0] != '@' {
        return Fail(BadDecoratorMessage);
      }
      decorators := decorators + [d];
      return Pass;
    }

    method SetBody(blocks: seq<Block>)
      modifies this`body
      ensures body == Body(blocks)
    {
      body := Body(blocks);
    }

    /** The decorator lines and the `def` line of `Function.__str__`. */
    method RenderHead() returns (head: string)
      ensures head == FunctionHead(Value(), Tabs(indentLevel))
    {
      var args := "";
      if |arguments| != 0 {
        args := Join(arguments, ", ");
      }
      var tabs := Tabs(indentLevel);
      var decoratorLines := "";
      var i := 0;
      while i < |decorators|
        invariant 0 <= i <= |decorators|
        invariant decoratorLines == DecoratorLines(decorators[..i], tabs)
      {
        assert decorators[..i + 1][..i] == decorators[..i];
        decoratorLines := decoratorLines + "\n" + tabs + decorators[i];
        i := i + 1;
      }
      assert decorators[..|decorators|] == decorators;
      head := decoratorLines + "\n" + tabs + "def " + name + "(" + args + "):";
    }

    /** The body loop of `Function.__str__`, on this function's own body.
        The stamped blocks are written back when the loop stops, at the
        raise or at the end. */
    method RenderBody() returns (r: Result<string>, ghost stamped: nat)
      requires body.Body?
      modifies this`body
      ensures r == BodyLines(old(body).blocks, |old(body).blocks|, indentLevel + 1)
      ensures r.Ok? ==> Value() == Restamp(old(Value()))
      ensures r.Err? ==> PartlyStamped(old(Value()), body, stamped)
    {
      var stampedBody;
      r, stampedBody, stamped := StampAndRenderBody(Value());
      body := stampedBody;
    }

    /** `Function.__str__`: with no body, the two stub lines; otherwise the
        body loop, which re-stamps every body block it reaches. */
    method Render() returns (r: Result<string>, ghost stamped: nat)
      modifies this`body
      ensures r == FunctionText(old(Value()))
      ensures r.Ok? ==> Value() == Restamp(old(Value()))
      ensures r.Err? ==> PartlyStamped(old(Value()), body, stamped)
    {
      ghost var f := Value();
      RenderProperties.FunctionTextCases(f);
      var head := RenderHead();
      var tabs := Tabs(indentLevel);
      if body.NoBody? {
        assert Restamp(f) == f;
        return Ok(head + "\n" + tabs + "\t# write method body\n" + tabs + "\tpass"), 0;
      }
      var lines;
      lines, stamped := RenderBody();
      if lines.Err? {
        return Err(lines.message), stamped;
      }
      return Ok(head + lines.value), stamped;
    }
  }

  // =====================================================================
  // Class
  // =====================================================================

  class Class {
    var name: string
    var baseClass: Option<string>
    var addInitMethod: bool
    var indentLevel: int
    var methods: seq<FunctionDef>
    var classVariables: seq<(string, string)>
    var subclasses: seq<ClassDef>
    var description: string

    /** `class_variables` is a dict: no name occurs twice. */
    predicate Valid()
      reads this
    {
      OrderedDict.DistinctKeys(classVariables)
    }

    function Value(): ClassDef
      reads this
    {
      ClassDef(name, baseClass, addInitMethod, indentLevel, methods, classVariables, subclasses, description)
    }

    /** `Class.__init__`: the name's first character is upper-cased (an empty
        name makes Python fail on it), the description goes through its
        setter, and there are no methods, variables or nested classes yet. */
    constructor (name: string, baseClass: Option<string> := None, addInitMethod: bool := false,
                 indentLevel: int := 0, description: Option<string> := None)
      requires |name| > 0
      ensures Valid()
      ensures Value() == ClassDef(ClassName(name), baseClass, addInitMethod, indentLevel, [], [], [],
                                  StoredDescription(description))
    {
      this.name := ClassName(name);
      this.baseClass := baseClass;
      this.addInitMethod := addInitMethod;
      this.methods := [];
      this.classVariables := [];
      this.subclasses := [];
      this.description := StoredDescription(description);
      this.indentLevel := indentLevel;
    }

    /** The `description` setter. */
    method SetDescription(d: Option<string>)
      requires Valid()
      modifies this`description
      ensures Valid()
      ensures description == StoredDescription(d)
    {
      description := StoredDescription(d);
    }

    method SetIndentLevel(n: int)
      requires Valid()
      modifies this`indentLevel
      ensures Valid()
      ensures indentLevel == n
    {
      indentLevel := n;
    }

    method IncrementIndentLevel()
      requires Valid()
      modifies this`indentLevel
      ensures Valid()
      ensures indentLevel == old(indentLevel) + 1
    {
      indentLevel := indentLevel + 1;
    }

    /** `add_method`. A given method object is stamped with this class's
        level plus one and appended. Without one, a method is made from the
        name, argument list and decorators (with `self` first), unless the
        name or the argument list is missing, which is refused. */
    method AddMethod(methodName: Option<string>, argumentNames: Option<seq<string>>,
                     decorators: Option<seq<string>>, fn: Function?) returns (o: Outcome)
      requires Valid()
      modifies this`methods, fn
      ensures Valid()
      ensures fn != null ==> (o.Pass? && fn.Value() == old(fn.Value()).(indentLevel := indentLevel + 1) &&
        methods == old(methods) + [fn.Value()])
      ensures fn == null && (methodName.None? || argumentNames.None?) ==>
        o == Fail(BadMethodMessage) && methods == old(methods)
      ensures fn == null && methodName.Some? && argumentNames.Some? ==>
        o.Pass? &&
        methods == old(methods) + [MethodDef(methodName.value, argumentNames.value, indentLevel + 1,
                                             if decorators.Some? then decorators.value else [])]
    {
      if fn != null {
        fn.indentLevel := indentLevel + 1;
        methods := methods + [fn.Value()];
        return Pass;
      }
      if methodName.None? || argumentNames.None? {
        return Fail(BadMethodMessage);
      }
      var m := new Function.Method(methodName.value, argumentNames.value, indentLevel + 1,
                                   if decorators.Some? then decorators.value else []);
      methods := methods + [m.Value()];
      return Pass;
    }

    /** `add_class_variable`: the dict assignment, so the last value written
        under a name wins and a new name goes last. */
    method AddClassVariable(variableName: string, variableValue: string)
      requires Valid()
      modifies this`classVariables
      ensures Valid()
      ensures classVariables == OrderedDict.Put(old(classVariables), variableName, variableValue)
      ensures OrderedDict.Get(classVariables, variableName) == Some(variableValue)
      ensures forall other :: other != variableName ==>
        OrderedDict.Get(classVariables, other) == OrderedDict.Get(old(classVariables), other)
    {
      OrderedDict.PutKeepsDistinct(classVariables, variableName, variableValue);
      OrderedDict.PutThenGet(classVariables, variableName, variableValue);
      forall other | other != variableName
        ensures OrderedDict.Get(OrderedDict.Put(classVariables, variableName, variableValue), other) ==
                OrderedDict.Get(classVariables, other)
      {
        OrderedDict.PutOtherKey(classVariables, variableName, variableValue, other);
      }
      classVariables := OrderedDict.Put(classVariables, variableName, variableValue);
    }

    /** `add_sub_class`: the nested class is stamped with this class's level
        plus one and appended; nothing else changes. */
    method AddSubClass(c: Class)
      requires Valid() && c != this
      modifies this`subclasses, c`indentLevel
      ensures Valid()
      ensures c.indentLevel == indentLevel + 1
      ensures c.Value() == old(c.Value()).(indentLevel := indentLevel + 1)
      ensures subclasses == old(subclasses) + [c.Value()]
    {
      c.indentLevel := indentLevel + 1;
      subclasses := subclasses + [c.Value()];
    }

    /** `Class.__str__`. */
    method Render() returns (r: Result<string>)
      ensures r == ClassText(Value())
    {
      var c := Value();
      var tabs := Tabs(indentLevel);
      var classDef := RenderClassHeader(c, tabs);
      var init := "";
      if addInitMethod {
        init := "\n\t" + tabs + "def __init__(self):\n\t\t" + tabs + "# initialise class here\n\t\tpass";
      }
      assert init == InitStub(c, tabs);

      var rendered := RenderMethods(methods);
      if rendered.Err? {
        return Err(rendered.message);
      }
      var methodsText := rendered.value;
      var vars := RenderClassVariables(classVariables, tabs);
      var nested := RenderSubclasses(subclasses);
      if nested.Err? {
        return Err(nested.message);
      }
      var subs := nested.value;

      if subs != "" || vars != "" || init != "" || methodsText != "" {
        r := Ok(classDef + (subs + vars + init + methodsText) + "\n");
      } else {
        var passExpr := Expr("pass", 1);
        r := Ok(classDef + "\n" + ExprText(passExpr) + "\n");
      }
      assert r == Ok(ClassLayout(c, tabs, subs, vars, methodsText));
    }
  }

  /** The `class` line of `Class.__str__`, with its description line. */
  method RenderClassHeader(c: ClassDef, tabs: string) returns (classDef: string)
    ensures classDef == ClassHeader(c, tabs)
  {
    var descriptionLine := "";
    if c.description != "" {
      descriptionLine := "\n\t" + c.description;
    }
    if c.baseClass.None? {
      classDef := "\n\n" + tabs + "class " + c.name + ":" + descriptionLine;
    } else {
      classDef := "\n\n" + tabs + "class " + c.name + "(" + c.baseClass.value + "):" + descriptionLine;
    }
  }

  // =====================================================================
  // If, IfElse, ClassInstance renderers
  // =====================================================================

  /** One pass of the body loop of `Function.__str__`: block `k` is stamped
      with level `child` and rendered; its text is added to the lines so
      far, or it raises. */
  method StampAndRenderBlock(blocks: seq<Block>, child: int, k: nat, current: seq<Block>, bodyLines: string)
    returns (next: seq<Block>, text: Result<string>, nextLines: string)
    requires k < |blocks| && current == StampBlocks(blocks, child, k)
    requires BodyLines(blocks, k, child) == Ok(bodyLines)
    ensures next == StampBlocks(blocks, child, k + 1)
    ensures text.Ok? ==> BodyLines(blocks, k + 1, child) == Ok(nextLines)
    ensures text.Err? ==> text.message == NoIfMessage && BodyLines(blocks, |blocks|, child) == Err(NoIfMessage)
    ensures text.Err? ==> BlockTextAt(blocks[k], child).Err?
  {
    RenderProperties.StampStep(blocks, child, k);
    var block := SetIndentLevel(current[k], child);
    next := current[k := block];
    text := BlockText(block);
    nextLines := bodyLines;
    if text.Ok? {
      RenderProperties.BodyLinesStepOk(blocks, k, child, bodyLines, block, text);
      nextLines := bodyLines + BodyPiece(block, text.value);
    } else {
      RenderProperties.BodyLinesStepErr(blocks, k, child, block, text);
    }
  }

  /** The loop of `Function.__str__` over the body blocks of `f`: each block
      is stamped with the function's level plus one and then rendered. A
      block that raises stops the loop, with the blocks up to and including
      it stamped. */
  method StampAndRenderBody(f: FunctionDef) returns (r: Result<string>, b: Body, ghost stamped: nat)
    requires f.body.Body?
    ensures r == BodyLines(f.body.blocks, |f.body.blocks|, f.indentLevel + 1)
    ensures r.Ok? ==> f.(body := b) == Restamp(f)
    ensures r.Err? ==> PartlyStamped(f, b, stamped)
  {
    var blocks := f.body.blocks;
    var child := f.indentLevel + 1;
    var current := blocks;
    var bodyLines := "";
    var k := 0;
    while k < |current|
      invariant |current| == |blocks| && 0 <= k <= |blocks|
      invariant current == StampBlocks(blocks, child, k)
      invariant BodyLines(blocks, k, child) == Ok(bodyLines)
    {
      var text;
      current, text, bodyLines := StampAndRenderBlock(blocks, child, k, current, bodyLines);
      if text.Err? {
        RenderProperties.StoppedPartlyStamped(f, current, k);
        return Err(text.message), Body(current), k + 1;
      }
      k := k + 1;
    }
    assert k == |blocks|;
    RenderProperties.FinishedRestamped(f, current);
    return Ok(bodyLines), Body(current), |blocks|;
  }

  /** The methods loop of `Class.__str__`: each method's text on a new line. */
  method RenderMethods(methods: seq<FunctionDef>) returns (r: Result<string>)
    ensures r == MethodsText(methods, |methods|)
  {
    var methodsText := "";
    var i := 0;
    while i < |methods|
      invariant 0 <= i <= |methods|
      invariant MethodsText(methods, i) == Ok(methodsText)
    {
      var text := FunctionText(methods[i]);
      RenderProperties.MethodsTextStep(methods, i);
      if text.Err? {
        RenderProperties.MethodsErrorPersists(methods, i + 1, |methods|);
        return Err(text.message);
      }
      methodsText := methodsText + "\n" + text.value;
      i := i + 1;
    }
    assert i == |methods|;
    return Ok(methodsText);
  }

  /** The class-variables loop of `Class.__str__`. */
  method RenderClassVariables(classVariables: seq<(string, string)>, tabs: string) returns (vars: string)
    ensures vars == ClassVarsText(classVariables, tabs)
  {
    vars := "";
    var j := 0;
    while j < |classVariables|
      invariant 0 <= j <= |classVariables|
      invariant vars == ClassVarsText(classVariables[..j], tabs)
    {
      assert classVariables[..j + 1][..j] == classVariables[..j];
      vars := vars + "\n\t" + tabs + classVariables[j].0 + " = " + classVariables[j].1;
      j := j + 1;
    }
    assert classVariables[..|classVariables|] == classVariables;
  }

  /** The nested-classes loop of `Class.__str__`: every nested class is
      rendered, but each one's text replaces the previous one's. */
  method RenderSubclasses(subclasses: seq<ClassDef>) returns (r: Result<string>)
    ensures r == SubclassText(subclasses, |subclasses|)
  {
    var subs := "";
    var k := 0;
    while k < |subclasses|
      invariant 0 <= k <= |subclasses|
      invariant SubclassText(subclasses, k) == Ok(subs)
    {
      var text := ClassText(subclasses[k]);
      RenderProperties.SubclassTextStep(subclasses, k);
      if text.Err? {
        RenderProperties.SubclassErrorPersists(subclasses, k + 1, |subclasses|);
        return Err(text.message);
      }
      subs := "\t" + text.value;
      k := k + 1;
    }
    assert k == |subclasses|;
    return Ok(subs);
  }

  /** `If.__str__`: every action line but the last ends in a newline. */
  method RenderIf(i: If) returns (r: string)
    ensures r == IfText(i)
  {
    var actions := "";
    var tabs := Tabs(i.indentLevel);
    var j := 0;
    while j < |i.action|
      invariant 0 <= j <= |i.action|
      invariant actions == IfActions(i.action, tabs, j)
    {
      if j == |i.action| - 1 {
        actions := actions + tabs + "\t" + ExprText(i.action[j]);
      } else {
        actions := actions + tabs + "\t" + ExprText(i.action[j]) + "\n";
      }
      j := j + 1;
    }
    r := "\n" + tabs + i.ifType + " " + ExprText(i.expr) + ":\n" + actions;
  }

  /** `ClassInstance.__str__`: the keyword pieces are collected in dict
      order and joined. */
  method RenderClassInstance(ci: ClassInstance) returns (r: string)
    ensures r == InstanceText(ci)
  {
    var args := Join(ci.args, ", ");
    var pieces: seq<string> := [];
    var k := 0;
    while k < |ci.kwargs|
      invariant 0 <= k <= |ci.kwargs|
      invariant pieces == KwargPieces(ci, k)
    {
      var value := ci.kwargs[k].1;
      var text := "";
      match value {
        case Lit(s) => text := Stringify(s);
        case Inst(inner) => text := InstanceText(inner);
        case Raw(s) => text := s;
      }
      pieces := pieces + [ci.kwargs[k].0 + "=" + text];
      k := k + 1;
    }
    var kwargs := Join(pieces, ", ");
    if kwargs != "" {
      if args != "" {
        kwargs := ", " + kwargs;
      }
    }
    r := ci.className + "(" + args + kwargs + ")";
  }

  /** The `if_` loop of `IfElse.__str__`: every action line ends in a newline. */
  method RenderIfElseActions(action: seq<Expr>, tabs: string) returns (s: string)
    ensures s == IfElseActions(action, tabs, |action|)
  {
    s := "";
    var i := 0;
    while i < |action|
      invariant 0 <= i <= |action|
      invariant s == IfElseActions(action, tabs, i)
    {
      s := s + tabs + "\t" + ExprText(action[i]) + "\n";
      i := i + 1;
    }
  }

  /** The else loop of `IfElse.__str__`: each action overwrites the last. */
  method RenderElseAction(elseAction: seq<Expr>, tabs: string) returns (s: string)
    ensures s == ElseAction(elseAction, tabs)
  {
    s := "";
    var j := 0;
    while j < |elseAction|
      invariant 0 <= j <= |elseAction|
      invariant s == if j == 0 then "" else ElseAction(elseAction[..j], tabs)
    {
      s := tabs + "\t" + ExprText(elseAction[j]) + "\n";
      j := j + 1;
    }
    assert elseAction[..|elseAction|] == elseAction;
    if s == "" {
      s := "pass";
    }
  }

  /** The elif loop of `IfElse.__str__`. */
  method RenderElifs(elifs: seq<If>) returns (s: string)
    ensures s == ElifPart(elifs)
  {
    s := "\n";
    var k := 0;
    while k < |elifs|
      invariant 0 <= k <= |elifs|
      invariant s == "\n" + ElifLines(elifs, k)
    {
      var text := RenderIf(elifs[k]);
      Regroup4("\n", ElifLines(elifs, k), text, "\n");
      s := s + text + "\n";
      k := k + 1;
    }
    if s == "\n" {
      s := "";
    }
  }

  class IfElse {
    var elseAction: seq<Expr>
    var indentLevel: int
    var elifs: seq<If>
    var ifBlock: Option<If>

    function Value(): IfElseDef
      reads this
    {
      IfElseDef(elseAction, indentLevel, elifs, ifBlock)
    }

    /** `IfElse.__init__`; a missing elif list is the empty one. */
    constructor (elseAction: seq<Expr>, indentLevel: int := 0, elifs: seq<If> := [], ifBlock: Option<If> := None)
      ensures Value() == IfElseDef(elseAction, indentLevel, elifs, ifBlock)
    {
      this.ifBlock := ifBlock;
      this.elseAction := elseAction;
      this.elifs := elifs;
      this.indentLevel := indentLevel;
    }

    method SetIndentLevel(n: int)
      modifies this`indentLevel
      ensures indentLevel == n
    {
      indentLevel := n;
    }

    method IncrementIndentLevel()
      modifies this`indentLevel
      ensures indentLevel == old(indentLevel) + 1
    {
      indentLevel := indentLevel + 1;
    }

    /** `add_elif`: returns the conditional as it was stored (Jenna
        retags and re-levels the caller's object). */
    method AddElif(e: If) returns (stored: If)
      modifies this`ifBlock, this`elifs
      ensures stored == StoredElif(old(Value()), e)
      ensures Value() == AddElifTo(old(Value()), e)
      ensures old(ifBlock).None? ==> (stored.ifType == "if" && stored.indentLevel == e.indentLevel &&
        ifBlock == Some(stored) && elifs == old(elifs))
      ensures old(ifBlock).Some? ==> (stored.ifType == "elif" && stored.indentLevel == indentLevel &&
        ifBlock == old(ifBlock) && elifs == old(elifs) + [stored])
    {
      if ifBlock.None? {
        stored := e.(ifType := "if");
        ifBlock := Some(stored);
      } else {
        stored := e.(ifType := "elif", indentLevel := indentLevel);
        elifs := elifs + [stored];
      }
    }

    /** `IfElse.__str__`. */
    method Render() returns (r: Result<string>)
      ensures r == IfElseText(Value())
    {
      if ifBlock.None? {
        return Err(NoIfMessage);
      }
      var ifb := ifBlock.value;
      var tabs := Tabs(indentLevel);
      var ifAction := RenderIfElseActions(ifb.action, tabs);
      if ifAction == "" {
        ifAction := "pass";
      }
      var elseText := RenderElseAction(elseAction, tabs);
      var elifsText := RenderElifs(elifs);
      assert RStrip(ifAction, Whitespace) == IfPart(ifb.action, tabs);
      return Ok("\n" + tabs + "if " + ExprText(ifb.expr) + ":\n" + RStrip(ifAction, Whitespace) + elifsText +
                tabs + "else:\n" + elseText);
    }
  }

  // =====================================================================
  // Using the objects
  // =====================================================================

  /** Rendering the same function object twice gives the same result both
      times, whether it succeeded or raised. */
  method RenderTwice(f: Function) returns (first: Result<string>, second: Result<string>)
    modifies f
    ensures second == first
  {
    ghost var before := f.Value();
    ghost var stamped: nat;
    first, stamped := f.Render();
    if first.Ok? {
      RenderProperties.RenderTwiceSameText(before);
    } else {
      RenderProperties.PartialStampSameText(before, stamped);
      assert f.Value() == before.(body := Body(StampBlocks(before.body.blocks, before.indentLevel + 1, stamped)));
    }
    second, stamped := f.Render();
  }
}
