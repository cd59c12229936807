/** What the renderers of jenna/jenna_parts.py guarantee, stated over the
    reference renderers of `JennaParts`. */
module RenderProperties {
  import opened Wrappers
  import opened Utils
  import opened JennaParts

  // ---------------------------------------------------------------------
  // Text helpers
  // ---------------------------------------------------------------------

  lemma InConcat(a: string, b: string, c: char)
    ensures c in a + b <==> c in a || c in b
  {
    if c in a {
      var i :| 0 <= i < |a| && a[i] == c;
      assert (a + b)[i] == c;
    }
    if c in b {
      var i :| 0 <= i < |b| && b[i] == c;
      assert (a + b)[|a| + i] == c;
    }
    if c in a + b {
      var i :| 0 <= i < |a + b| && (a + b)[i] == c;
      if i < |a| { assert a[i] == c; } else { assert b[i - |a|] == c; }
    }
  }

  // ---------------------------------------------------------------------
  // Stamping: a parent sets a child's indent, then renders it
  // ---------------------------------------------------------------------

  /** Rendering a block at level `n` is setting its level to `n` and rendering it. */
  lemma BlockTextAtIsStampThenRender(b: Block, n: int)
    ensures BlockTextAt(b, n) == BlockText(SetIndentLevel(b, n))
  {
    match b
    case ExprBlock(_) =>
    case FunctionBlock(f) => FunctionTextIgnoresOwnLevel(f, n, n);
    case ClassBlock(c) => ClassTextIgnoresOwnLevel(c, n, n);
    case IfBlock(_) =>
    case IfElseBlock(_) =>
  }

  lemma FunctionTextIgnoresOwnLevel(f: FunctionDef, m: int, n: int)
    ensures FunctionTextAt(f.(indentLevel := m), n) == FunctionTextAt(f, n)
  {
    var f' := f.(indentLevel := m);
    assert FunctionHead(f', Tabs(n)) == FunctionHead(f, Tabs(n));
  }

  lemma ClassTextIgnoresOwnLevel(c: ClassDef, m: int, n: int)
    ensures ClassTextAt(c.(indentLevel := m), n) == ClassTextAt(c, n)
  {
    var c' := c.(indentLevel := m);
    assert ClassHeader(c', Tabs(n)) == ClassHeader(c, Tabs(n));
    assert InitStub(c', Tabs(n)) == InitStub(c, Tabs(n));
  }

  /** A block's own stored level plays no part when its parent renders it at `n`. */
  lemma BlockTextAtIgnoresOwnLevel(a: Block, b: Block, n: int)
    requires SameUpToIndent(a, b)
    ensures BlockTextAt(a, n) == BlockTextAt(b, n)
  {
    BlockTextAtIsStampThenRender(a, n);
    BlockTextAtIsStampThenRender(b, n);
    IndentOperations(a, n);
    IndentOperations(b, n);
    assert SetIndentLevel(a, n) == SetIndentLevel(SetIndentLevel(a, 0), n);
    assert SetIndentLevel(b, n) == SetIndentLevel(SetIndentLevel(b, 0), n);
  }

  lemma {:induction false} BodyLinesIgnoreLevels(xs: seq<Block>, ys: seq<Block>, k: nat, child: int)
    requires k <= |xs| == |ys|
    requires forall i :: 0 <= i < k ==> SameUpToIndent(xs[i], ys[i])
    ensures BodyLines(xs, k, child) == BodyLines(ys, k, child)
  {
    if k > 0 {
      BodyLinesIgnoreLevels(xs, ys, k - 1, child);
      BodyLinesSameStep(xs, ys, k, child);
    }
  }

  /** Two bodies that agree on their first `k - 1` lines and whose block
      `k - 1` differ at most in level agree on their first `k` lines. */
  lemma BodyLinesSameStep(xs: seq<Block>, ys: seq<Block>, k: nat, child: int)
    requires 0 < k <= |xs| == |ys|
    requires BodyLines(xs, k - 1, child) == BodyLines(ys, k - 1, child)
    requires SameUpToIndent(xs[k - 1], ys[k - 1])
    ensures BodyLines(xs, k, child) == BodyLines(ys, k, child)
  {
    BlockTextAtIgnoresOwnLevel(xs[k - 1], ys[k - 1], child);
    SameUpToIndentSameKind(xs[k - 1], ys[k - 1]);
  }

  /** Whatever levels the body blocks held before, a function's text is the
      same: `Function.__str__` overwrites them with its own level plus one. */
  lemma FunctionTextIgnoresBodyLevels(f: FunctionDef, blocks: seq<Block>, n: int)
    requires f.body.Body? && |blocks| == |f.body.blocks|
    requires forall i :: 0 <= i < |blocks| ==> SameUpToIndent(blocks[i], f.body.blocks[i])
    ensures FunctionTextAt(f.(body := Body(blocks)), n) == FunctionTextAt(f, n)
  {
    BodyLinesIgnoreLevels(blocks, f.body.blocks, |blocks|, n + 1);
  }

  /** Rendering a function twice gives identical text: the first rendering
      re-stamps the body, which changes nothing the second one reads, and
      stamping again changes nothing at all. */
  lemma RenderTwiceSameText(f: FunctionDef)
    ensures FunctionText(Restamp(f)) == FunctionText(f)
    ensures Restamp(Restamp(f)) == Restamp(f)
  {
    RestampKeepsText(f);
    RestampIdempotent(f);
  }

  /** The re-stamped function renders as the original does. */
  lemma RestampKeepsText(f: FunctionDef)
    ensures FunctionText(Restamp(f)) == FunctionText(f)
  {
    if f.body.Body? {
      var blocks := f.body.blocks;
      var stamped := StampBlocks(blocks, f.indentLevel + 1, |blocks|);
      forall i | 0 <= i < |blocks| ensures SameUpToIndent(stamped[i], blocks[i]) {
        IndentOperations(blocks[i], f.indentLevel + 1);
      }
      FunctionTextIgnoresBodyLevels(f, stamped, f.indentLevel);
    }
  }

  /** Stamping a function's body a second time changes nothing. */
  lemma RestampIdempotent(f: FunctionDef)
    ensures Restamp(Restamp(f)) == Restamp(f)
  {
    if f.body.Body? {
      var blocks := f.body.blocks;
      var stamped := StampBlocks(blocks, f.indentLevel + 1, |blocks|);
      assert StampBlocks(stamped, f.indentLevel + 1, |stamped|) == stamped;
    }
  }

  /** One step of `Function.__str__`'s body loop: stamping the next block. */
  lemma StampStep(blocks: seq<Block>, n: int, k: nat)
    requires k < |blocks|
    ensures StampBlocks(blocks, n, k)[k := SetIndentLevel(blocks[k], n)] == StampBlocks(blocks, n, k + 1)
  {
  }

  /** The loop of `Function.__str__` stops at a block that raises, leaving
      the body partly stamped. */
  lemma StoppedPartlyStamped(f: FunctionDef, current: seq<Block>, k: nat)
    requires f.body.Body? && k < |f.body.blocks|
    requires current == StampBlocks(f.body.blocks, f.indentLevel + 1, k + 1)
    requires BodyLines(f.body.blocks, k, f.indentLevel + 1).Ok?
    requires BlockTextAt(f.body.blocks[k], f.indentLevel + 1).Err?
    ensures PartlyStamped(f, Body(current), k + 1)
  {
  }

  /** The loop of `Function.__str__` that runs to the end has re-stamped the body. */
  lemma FinishedRestamped(f: FunctionDef, current: seq<Block>)
    requires f.body.Body?
    requires current == StampBlocks(f.body.blocks, f.indentLevel + 1, |f.body.blocks|)
    ensures f.(body := Body(current)) == Restamp(f)
  {
  }

  /** One step of `Function.__str__`'s body loop: a block just stamped that
      renders adds its text. */
  lemma BodyLinesStepOk(blocks: seq<Block>, k: nat, child: int, prefix: string, block: Block, text: Result<string>)
    requires k < |blocks| && BodyLines(blocks, k, child) == Ok(prefix)
    requires block == SetIndentLevel(blocks[k], child) && text == BlockText(block) && text.Ok?
    ensures BodyLines(blocks, k + 1, child) == Ok(prefix + BodyPiece(block, text.value))
  {
    BlockTextAtIsStampThenRender(blocks[k], child);
    assert block.ExprBlock? == blocks[k].ExprBlock?;
  }

  /** A block that raises in `Function.__str__`'s body loop makes the whole
      body raise. */
  lemma BodyLinesStepErr(blocks: seq<Block>, k: nat, child: int, block: Block, text: Result<string>)
    requires k < |blocks| && BodyLines(blocks, k, child).Ok?
    requires block == SetIndentLevel(blocks[k], child) && text == BlockText(block) && text.Err?
    ensures BlockTextAt(blocks[k], child).Err?
    ensures text.message == NoIfMessage && BodyLines(blocks, |blocks|, child) == Err(NoIfMessage)
  {
    BlockTextAtIsStampThenRender(blocks[k], child);
    BodyErrorPersists(blocks, k + 1, |blocks|, child);
  }

  /** `Function.__str__` is the head followed by either the stub or the body
      lines, which raise if any body block raises. */
  lemma FunctionTextCases(f: FunctionDef)
    ensures var tabs := Tabs(f.indentLevel);
      f.body.NoBody? ==>
        FunctionText(f) == Ok(FunctionHead(f, tabs) + "\n" + tabs + "\t# write method body\n" + tabs + "\tpass")
    ensures f.body.Body? ==>
      var lines := BodyLines(f.body.blocks, |f.body.blocks|, f.indentLevel + 1);
      FunctionText(f) == if lines.Err? then Err(lines.message) else Ok(FunctionHead(f, Tabs(f.indentLevel)) + lines.value)
  {
  }

  /** A render that raised part-way leaves the first `k` body blocks
      stamped; that changes nothing a later rendering reads either. */
  lemma PartialStampSameText(f: FunctionDef, k: nat)
    requires f.body.Body? && k <= |f.body.blocks|
    ensures FunctionText(f.(body := Body(StampBlocks(f.body.blocks, f.indentLevel + 1, k)))) == FunctionText(f)
  {
    var blocks := f.body.blocks;
    var stamped := StampBlocks(blocks, f.indentLevel + 1, k);
    forall i | 0 <= i < |blocks| ensures SameUpToIndent(stamped[i], blocks[i]) {
      IndentOperations(blocks[i], f.indentLevel + 1);
    }
    FunctionTextIgnoresBodyLevels(f, stamped, f.indentLevel);
  }

  /** The body blocks of a rendered function all appear at its level plus one:
      the text of the `k`-th body block is what that block renders to once
      its level is set to the function's level plus one. */
  lemma BodyBlockAtFunctionLevelPlusOne(f: FunctionDef, n: int, k: nat)
    requires f.body.Body? && k < |f.body.blocks|
    requires BodyLines(f.body.blocks, k + 1, n + 1).Ok?
    ensures BodyLines(f.body.blocks, k, n + 1).Ok?
    ensures var b := f.body.blocks[k];
      BlockText(SetIndentLevel(b, n + 1)).Ok? &&
      BodyLines(f.body.blocks, k + 1, n + 1).value ==
        BodyLines(f.body.blocks, k, n + 1).value + BodyPiece(b, BlockText(SetIndentLevel(b, n + 1)).value)
  {
    BlockTextAtIsStampThenRender(f.body.blocks[k], n + 1);
  }

  // ---------------------------------------------------------------------
  // When rendering raises CodegenError
  // ---------------------------------------------------------------------

  /** Every `IfElse` in the tree has its `if_` attached. */
  predicate BlockRenderable(b: Block)
    decreases b
  {
    match b
    case ExprBlock(_) => true
    case FunctionBlock(f) => FunctionRenderable(f)
    case ClassBlock(c) => ClassRenderable(c)
    case IfBlock(_) => true
    case IfElseBlock(ie) => ie.ifBlock.Some?
  }

  predicate FunctionRenderable(f: FunctionDef)
    decreases f
  {
    f.body.Body? ==> forall i :: 0 <= i < |f.body.blocks| ==> BlockRenderable(f.body.blocks[i])
  }

  predicate ClassRenderable(c: ClassDef)
    decreases c
  {
    (forall i :: 0 <= i < |c.methods| ==> FunctionRenderable(c.methods[i])) &&
    (forall i :: 0 <= i < |c.subclasses| ==> ClassRenderable(c.subclasses[i]))
  }

  /** Rendering a block succeeds exactly when every `IfElse` reachable from
      it (through function bodies, methods and nested classes) has an `if_`;
      otherwise it raises `CodegenError`, at whatever indent it is rendered. */
  lemma {:induction false} BlockRendersIff(b: Block, n: int)
    ensures BlockTextAt(b, n).Ok? <==> BlockRenderable(b)
    decreases b
  {
    match b
    case ExprBlock(_) =>
    case FunctionBlock(f) => FunctionRendersIff(f, n);
    case ClassBlock(c) => ClassRendersIff(c, n);
    case IfBlock(_) =>
    case IfElseBlock(_) =>
  }

  lemma {:induction false} BodyRendersIff(blocks: seq<Block>, k: nat, child: int)
    requires k <= |blocks|
    ensures BodyLines(blocks, k, child).Ok? <==> forall i :: 0 <= i < k ==> BlockRenderable(blocks[i])
    decreases blocks, k
  {
    if k > 0 {
      BodyRendersIff(blocks, k - 1, child);
      BodyLinesOkStep(blocks, k, child);
      assert (forall i :: 0 <= i < k ==> BlockRenderable(blocks[i])) <==>
        (forall i :: 0 <= i < k - 1 ==> BlockRenderable(blocks[i])) && BlockRenderable(blocks[k - 1]);
    }
  }

  lemma BodyLinesOkStep(blocks: seq<Block>, k: nat, child: int)
    requires 0 < k <= |blocks|
    ensures BodyLines(blocks, k, child).Ok? <==>
      BodyLines(blocks, k - 1, child).Ok? && BlockRenderable(blocks[k - 1])
    decreases blocks, 0
  {
    BlockRendersIff(blocks[k - 1], child);
  }

  lemma {:induction false} FunctionRendersIff(f: FunctionDef, n: int)
    ensures FunctionTextAt(f, n).Ok? <==> FunctionRenderable(f)
    decreases f
  {
    match f.body
    case NoBody =>
    case Body(blocks) => BodyRendersIff(blocks, |blocks|, n + 1);
  }

  lemma {:induction false} MethodsRenderIff(methods: seq<FunctionDef>, k: nat)
    requires k <= |methods|
    ensures MethodsText(methods, k).Ok? <==> forall i :: 0 <= i < k ==> FunctionRenderable(methods[i])
    decreases methods, k
  {
    if k > 0 {
      MethodsRenderIff(methods, k - 1);
      MethodsOkStep(methods, k);
      assert (forall i :: 0 <= i < k ==> FunctionRenderable(methods[i])) <==>
        (forall i :: 0 <= i < k - 1 ==> FunctionRenderable(methods[i])) && FunctionRenderable(methods[k - 1]);
    }
  }

  lemma MethodsOkStep(methods: seq<FunctionDef>, k: nat)
    requires 0 < k <= |methods|
    ensures MethodsText(methods, k).Ok? <==> MethodsText(methods, k - 1).Ok? && FunctionRenderable(methods[k - 1])
    decreases methods, 0
  {
    FunctionRendersIff(methods[k - 1], methods[k - 1].indentLevel);
  }

  lemma {:induction false} SubclassesRenderIff(subclasses: seq<ClassDef>, k: nat)
    requires k <= |subclasses|
    ensures SubclassText(subclasses, k).Ok? <==> forall i :: 0 <= i < k ==> ClassRenderable(subclasses[i])
    decreases subclasses, k
  {
    if k > 0 {
      SubclassesRenderIff(subclasses, k - 1);
      SubclassesOkStep(subclasses, k);
      IffChain(SubclassText(subclasses, k).Ok?, SubclassText(subclasses, k - 1).Ok?,
        ClassRenderable(subclasses[k - 1]),
        forall i :: 0 <= i < k - 1 ==> ClassRenderable(subclasses[i]),
        forall i :: 0 <= i < k ==> ClassRenderable(subclasses[i]));
    }
  }

  lemma IffChain(now: bool, before: bool, last: bool, allBefore: bool, allNow: bool)
    requires now <==> before && last
    requires before <==> allBefore
    requires allNow <==> allBefore && last
    ensures now <==> allNow
  {
  }

  lemma SubclassesOkStep(subclasses: seq<ClassDef>, k: nat)
    requires 0 < k <= |subclasses|
    ensures SubclassText(subclasses, k).Ok? <==>
      SubclassText(subclasses, k - 1).Ok? && ClassRenderable(subclasses[k - 1])
    decreases subclasses, 0
  {
    ClassRendersIff(subclasses[k - 1], subclasses[k - 1].indentLevel);
  }

  lemma {:induction false} ClassRendersIff(c: ClassDef, n: int)
    ensures ClassTextAt(c, n).Ok? <==> ClassRenderable(c)
    decreases c
  {
    MethodsRenderIff(c.methods, |c.methods|);
    SubclassesRenderIff(c.subclasses, |c.subclasses|);
  }

  /** An error in a body block makes the whole rest of the body fail too:
      Jenna raises out of its loop. */
  lemma {:induction false} BodyErrorPersists(blocks: seq<Block>, k: nat, k': nat, child: int)
    requires k <= k' <= |blocks|
    requires BodyLines(blocks, k, child).Err?
    ensures BodyLines(blocks, k', child) == Err(NoIfMessage)
    decreases k' - k
  {
    if k < k' {
      BodyErrorPersists(blocks, k, k' - 1, child);
    }
  }

  lemma {:induction false} MethodsErrorPersists(methods: seq<FunctionDef>, k: nat, k': nat)
    requires k <= k' <= |methods|
    requires MethodsText(methods, k).Err?
    ensures MethodsText(methods, k') == Err(NoIfMessage)
    decreases k' - k
  {
    if k < k' {
      MethodsErrorPersists(methods, k, k' - 1);
    }
  }

  lemma {:induction false} SubclassErrorPersists(subclasses: seq<ClassDef>, k: nat, k': nat)
    requires k <= k' <= |subclasses|
    requires SubclassText(subclasses, k).Err?
    ensures SubclassText(subclasses, k') == Err(NoIfMessage)
    decreases k' - k
  {
    if k < k' {
      SubclassErrorPersists(subclasses, k, k' - 1);
    }
  }

  /** One more method after a prefix that rendered: its error, or its
      text on a new line. */
  lemma MethodsTextStep(methods: seq<FunctionDef>, k: nat)
    requires k < |methods| && MethodsText(methods, k).Ok?
    ensures var t := FunctionText(methods[k]);
      MethodsText(methods, k + 1) ==
        if t.Err? then Err(t.message) else Ok(MethodsText(methods, k).value + "\n" + t.value)
  {
  }

  /** One more nested class after a prefix that rendered: its error, or its
      text, which replaces what came before. */
  lemma SubclassTextStep(subclasses: seq<ClassDef>, k: nat)
    requires k < |subclasses| && SubclassText(subclasses, k).Ok?
    ensures var t := ClassText(subclasses[k]);
      SubclassText(subclasses, k + 1) == if t.Err? then Err(t.message) else Ok("\t" + t.value)
  {
  }

  // ---------------------------------------------------------------------
  // Function
  // ---------------------------------------------------------------------

  lemma {:induction false} DecoratorLinesAppend(a: seq<string>, b: seq<string>, tabs: string)
    ensures DecoratorLines(a + b, tabs) == DecoratorLines(a, tabs) + DecoratorLines(b, tabs)
    decreases |b|
  {
    if |b| > 0 {
      var init := b[..|b| - 1];
      assert (a + b)[..|a + b| - 1] == a + init;
      DecoratorLinesAppend(a, init, tabs);
    } else {
      assert a + b == a;
    }
  }

  /** Each decorator has a line of its own, at the function's indent, in the
      order they were added. */
  lemma DecoratorOnItsOwnLine(decorators: seq<string>, tabs: string, i: nat)
    requires i < |decorators|
    ensures DecoratorLines(decorators, tabs) ==
      DecoratorLines(decorators[..i], tabs) + "\n" + tabs + decorators[i] + DecoratorLines(decorators[i + 1..], tabs)
  {
    assert decorators == (decorators[..i] + [decorators[i]]) + decorators[i + 1..];
    DecoratorLinesAppend(decorators[..i] + [decorators[i]], decorators[i + 1..], tabs);
    assert (decorators[..i] + [decorators[i]])[..i] == decorators[..i];
  }

  /** Without a body, a function renders its decorator lines, its `def` line,
      and then exactly a `# write method body` line and a `pass` line one
      level deeper. */
  lemma FunctionWithoutBody(f: FunctionDef, n: int)
    requires f.body.NoBody? && n >= 0
    ensures FunctionTextAt(f, n) ==
      Ok(FunctionHead(f, Tabs(n)) + "\n" + Tabs(n + 1) + "# write method body" + "\n" + Tabs(n + 1) + "pass")
  {
    TabsStep(n);
    StubLines(FunctionHead(f, Tabs(n)), Tabs(n));
  }

  /** The stub lines regrouped: one tab more than the function's tabs. */
  lemma StubLines(head: string, tabs: string)
    ensures head + "\n" + tabs + "\t# write method body\n" + tabs + "\tpass" ==
      head + "\n" + (tabs + "\t") + "# write method body" + "\n" + (tabs + "\t") + "pass"
  {
    assert "\t# write method body\n" == "\t" + "# write method body" + "\n";
    assert "\tpass" == "\t" + "pass";
  }

  lemma HeadersContainSpace(f: FunctionDef, c: ClassDef, tabs: string)
    ensures ' ' in FunctionHead(f, tabs)
    ensures ' ' in ClassHeader(c, tabs)
  {
    var d := DecoratorLines(f.decorators, tabs) + "\n" + tabs;
    assert FunctionHead(f, tabs)[|d| + 3] == ' ';
    assert ClassHeader(c, tabs)[|"\n\n" + tabs| + 5] == ' ';
  }

  lemma RenderedFunctionHasSpace(f: FunctionDef, n: int)
    requires FunctionTextAt(f, n).Ok?
    ensures ' ' in FunctionTextAt(f, n).value
  {
    var tabs := Tabs(n);
    HeadersContainSpace(f, ClassDef("", None, false, 0, [], [], [], ""), tabs);
    var head := FunctionHead(f, tabs);
    match f.body
    case NoBody =>
      InPrefix(head, "\n" + tabs + "\t# write method body\n" + tabs + "\tpass", ' ');
      Regroup4(head, "\n", tabs, "\t# write method body\n");
      Regroup4(head, "\n" + tabs + "\t# write method body\n", tabs, "\tpass");
    case Body(blocks) =>
      InPrefix(head, BodyLines(blocks, |blocks|, n + 1).value, ' ');
  }

  lemma RenderedClassHasSpace(c: ClassDef, n: int)
    requires ClassTextAt(c, n).Ok?
    ensures ' ' in ClassTextAt(c, n).value
  {
    var tabs := Tabs(n);
    HeadersContainSpace(FunctionDef("", [], NoBody, 0, []), c, tabs);
    var head := ClassHeader(c, tabs);
    var methods := MethodsText(c.methods, |c.methods|).value;
    var vars := ClassVarsText(c.classVariables, tabs);
    var subs := SubclassText(c.subclasses, |c.subclasses|).value;
    assert ClassTextAt(c, n).value == ClassLayout(c, tabs, subs, vars, methods);
    InPrefix(head, ClassBody(c, tabs, subs, vars, methods) + "\n", ' ');
    InPrefix(head, "\n" + ExprText(Expr("pass", 1)) + "\n", ' ');
    Regroup3(head, ClassBody(c, tabs, subs, vars, methods), "\n");
    Regroup4(head, "\n", ExprText(Expr("pass", 1)), "\n");
  }

  /** The rendered methods are empty exactly when there are none, and contain
      a space otherwise. */
  lemma MethodsTextShape(methods: seq<FunctionDef>, k: nat)
    requires k <= |methods| && MethodsText(methods, k).Ok?
    ensures MethodsText(methods, k).value == "" <==> k == 0
    ensures k > 0 ==> ' ' in MethodsText(methods, k).value
  {
    if k > 0 {
      var m := methods[k - 1];
      RenderedFunctionHasSpace(m, m.indentLevel);
      InConcat(MethodsText(methods, k - 1).value + "\n", FunctionTextAt(m, m.indentLevel).value, ' ');
    }
  }

  lemma SubclassTextShape(subclasses: seq<ClassDef>, k: nat)
    requires k <= |subclasses| && SubclassText(subclasses, k).Ok?
    ensures SubclassText(subclasses, k).value == "" <==> k == 0
    ensures k > 0 ==> ' ' in SubclassText(subclasses, k).value
  {
    if k > 0 {
      var s := subclasses[k - 1];
      RenderedClassHasSpace(s, s.indentLevel);
      InConcat("\t", ClassTextAt(s, s.indentLevel).value, ' ');
    }
  }

  lemma ClassVarsTextShape(vars: seq<(string, string)>, tabs: string)
    ensures ClassVarsText(vars, tabs) == "" <==> |vars| == 0
    ensures |vars| > 0 ==> ' ' in ClassVarsText(vars, tabs)
  {
    if |vars| > 0 {
      var last := vars[|vars| - 1];
      var prefix := ClassVarsText(vars[..|vars| - 1], tabs) + "\n\t" + tabs + last.0;
      assert ClassVarsText(vars, tabs)[|prefix|] == ' ';
    }
  }

  /** The class-variable text of two lists in sequence is the two texts
      concatenated. */
  lemma {:induction false} ClassVarsTextAppend(a: seq<(string, string)>, b: seq<(string, string)>, tabs: string)
    ensures ClassVarsText(a + b, tabs) == ClassVarsText(a, tabs) + ClassVarsText(b, tabs)
    decreases |b|
  {
    if |b| > 0 {
      var init := b[..|b| - 1];
      assert (a + b)[..|a + b| - 1] == a + init;
      ClassVarsTextAppend(a, init, tabs);
    } else {
      assert a + b == a;
    }
  }

  /** Each class variable has a line of its own, one tab in from the class's
      tabs, as `name = value`, in insertion order. */
  lemma ClassVarOnItsOwnLine(vars: seq<(string, string)>, tabs: string, i: nat)
    requires i < |vars|
    ensures ClassVarsText(vars, tabs) ==
      ClassVarsText(vars[..i], tabs) + "\n\t" + tabs + vars[i].0 + " = " + vars[i].1 + ClassVarsText(vars[i + 1..], tabs)
  {
    assert vars == (vars[..i] + [vars[i]]) + vars[i + 1..];
    ClassVarsTextAppend(vars[..i] + [vars[i]], vars[i + 1..], tabs);
    assert (vars[..i] + [vars[i]])[..i] == vars[..i];
  }

  lemma InitStubShape(c: ClassDef, tabs: string)
    ensures InitStub(c, tabs) == "" <==> !c.addInitMethod
    ensures c.addInitMethod ==> ' ' in InitStub(c, tabs)
  {
    if c.addInitMethod {
      assert InitStub(c, tabs)[|"\n\t" + tabs| + 3] == ' ';
    }
  }

  lemma NotPlaceholder(header: string, body: string)
    requires ' ' in body
    ensures header + body + "\n" != header + "\n\tpass\n"
  {
    var j :| 0 <= j < |body| && body[j] == ' ';
    var x := header + body + "\n";
    var y := header + "\n\tpass\n";
    assert x[|header| + j] == ' ';
    if |x| == |y| {
      assert y[|header| + j] != ' ';
    }
  }

  /** The text between a class's header and its final newline contains a
      space as soon as it is not empty. */
  lemma ClassBodyHasSpace(c: ClassDef, n: int)
    requires ClassTextAt(c, n).Ok?
    requires !IsEmptyClass(c)
    ensures var tabs := Tabs(n);
      var body := SubclassText(c.subclasses, |c.subclasses|).value + ClassVarsText(c.classVariables, tabs) +
        InitStub(c, tabs) + MethodsText(c.methods, |c.methods|).value;
      ' ' in body
  {
    var tabs := Tabs(n);
    var methods := MethodsText(c.methods, |c.methods|).value;
    var vars := ClassVarsText(c.classVariables, tabs);
    var subs := SubclassText(c.subclasses, |c.subclasses|).value;
    var init := InitStub(c, tabs);
    MethodsTextShape(c.methods, |c.methods|);
    SubclassTextShape(c.subclasses, |c.subclasses|);
    ClassVarsTextShape(c.classVariables, tabs);
    InitStubShape(c, tabs);
    InConcat(subs, vars, ' ');
    InConcat(subs + vars, init, ' ');
    InConcat(subs + vars + init, methods, ' ');
  }

  lemma EmptyClassIsPlaceholder(c: ClassDef, n: int)
    requires IsEmptyClass(c)
    ensures ClassTextAt(c, n) == Ok(ClassHeader(c, Tabs(n)) + "\n\tpass\n")
  {
    var tabs := Tabs(n);
    assert ClassTextAt(c, n) == Ok(ClassLayout(c, tabs, "", "", ""));
    assert ExprText(Expr("pass", 1)) == "\tpass";
    assert ClassHeader(c, tabs) + "\n" + "\tpass" + "\n" == ClassHeader(c, tabs) + "\n\tpass\n";
  }

  lemma NonEmptyClassIsNotPlaceholder(c: ClassDef, n: int)
    requires ClassTextAt(c, n).Ok? && !IsEmptyClass(c)
    ensures ClassTextAt(c, n).value != ClassHeader(c, Tabs(n)) + "\n\tpass\n"
  {
    var tabs := Tabs(n);
    var methods := MethodsText(c.methods, |c.methods|).value;
    var vars := ClassVarsText(c.classVariables, tabs);
    var subs := SubclassText(c.subclasses, |c.subclasses|).value;
    var body := ClassBody(c, tabs, subs, vars, methods);
    ClassBodyHasSpace(c, n);
    assert body != "";
    assert ClassTextAt(c, n).value == ClassHeader(c, tabs) + body + "\n";
    NotPlaceholder(ClassHeader(c, tabs), body);
  }

  /** A class made with description `d` shows nothing after the `class`
      line for `None`, and otherwise the triple-quoted text on the next line,
      one tab in (whatever the class's own tabs). */
  lemma DescriptionLine(c: ClassDef, tabs: string, d: Option<string>)
    requires c.description == StoredDescription(d)
    ensures d.None? ==> ClassHeader(c, tabs) == "\n\n" + tabs + "class " + c.name + BaseClassPart(c.baseClass) + ":"
    ensures d.Some? ==>
      ClassHeader(c, tabs) == "\n\n" + tabs + "class " + c.name + BaseClassPart(c.baseClass) + ":" + "\n\t" + TripleStringify(d.value)
  {
    var line := "\n\n" + tabs + "class " + c.name + BaseClassPart(c.baseClass) + ":";
    if d.None? {
      assert line + "" == line;
    }
  }

  /** A renderable class with something in it renders as the header, then
      the nested-class text, the class variables, the init stub and the
      methods, in that order, and a final newline. */
  lemma ClassTextLayout(c: ClassDef, n: int)
    requires ClassTextAt(c, n).Ok? && !IsEmptyClass(c)
    ensures var tabs := Tabs(n);
      ClassTextAt(c, n).value == ClassHeader(c, tabs) + SubclassText(c.subclasses, |c.subclasses|).value +
        ClassVarsText(c.classVariables, tabs) + InitStub(c, tabs) + MethodsText(c.methods, |c.methods|).value + "\n"
  {
    var tabs := Tabs(n);
    var methods := MethodsText(c.methods, |c.methods|).value;
    var vars := ClassVarsText(c.classVariables, tabs);
    var subs := SubclassText(c.subclasses, |c.subclasses|).value;
    var body := ClassBody(c, tabs, subs, vars, methods);
    ClassBodyHasSpace(c, n);
    assert body != "";
    assert ClassTextAt(c, n).value == ClassHeader(c, tabs) + body + "\n";
    Regroup5(ClassHeader(c, tabs), subs, vars, InitStub(c, tabs), methods);
  }

  /** A class renders its header followed by the lone placeholder line
      `\tpass` if and only if it has no nested class, no class variable, no
      init stub and no method. */
  lemma ClassPlaceholderIffEmpty(c: ClassDef, n: int)
    requires ClassTextAt(c, n).Ok?
    ensures ClassTextAt(c, n).value == ClassHeader(c, Tabs(n)) + "\n\tpass\n" <==> IsEmptyClass(c)
  {
    if IsEmptyClass(c) {
      EmptyClassIsPlaceholder(c, n);
    } else {
      NonEmptyClassIsNotPlaceholder(c, n);
    }
  }

  /** In a renderable class the nested-class part is the last nested class
      alone, one tab in: Jenna's loop assigns instead of appending. */
  lemma OnlyLastSubclassKept(subclasses: seq<ClassDef>)
    requires |subclasses| > 0
    requires SubclassText(subclasses, |subclasses|).Ok?
    ensures var last := subclasses[|subclasses| - 1];
      ClassText(last).Ok? &&
      SubclassText(subclasses, |subclasses|).value == "\t" + ClassText(last).value
  {
  }

  // ---------------------------------------------------------------------
  // If, IfElse
  // ---------------------------------------------------------------------

  /** Only the last else-action is rendered: Jenna's loop assigns. `ElseAction`
      reads only the last action by definition, so this follows by unfolding;
      `JennaObjects.RenderElseAction` proves that the assigning loop computes it. */
  lemma OnlyLastElseActionKept(elseAction: seq<Expr>, tabs: string)
    requires |elseAction| > 0
    ensures ElseAction(elseAction, tabs) == ElseAction([elseAction[|elseAction| - 1]], tabs)
  {
  }

  /** `add_elif` called once per conditional, in order. */
  function AddElifs(ie: IfElseDef, es: seq<If>): IfElseDef
  {
    if |es| == 0 then ie else AddElifTo(AddElifs(ie, es[..|es| - 1]), es[|es| - 1])
  }

  /** Once an `if_` is attached it is never replaced, and the chain stays
      renderable. */
  lemma {:induction false} IfNeverReplaced(ie: IfElseDef, es: seq<If>)
    requires ie.ifBlock.Some?
    ensures AddElifs(ie, es).ifBlock == ie.ifBlock
    ensures IfElseText(AddElifs(ie, es)).Ok?
  {
    if |es| > 0 {
      IfNeverReplaced(ie, es[..|es| - 1]);
    }
  }

  /** Starting from a chain with no `if_`, adding conditionals one by one
      makes the first one the `if_` (tagged `if`, level untouched) and
      appends every later one as an `elif` at the chain's level, in order. */
  lemma {:induction false} AddElifsShape(ie: IfElseDef, es: seq<If>)
    requires ie.ifBlock.None? && |es| > 0
    ensures var r := AddElifs(ie, es);
      r.ifBlock == Some(es[0].(ifType := "if")) &&
      r.elseAction == ie.elseAction && r.indentLevel == ie.indentLevel &&
      |r.elifs| == |ie.elifs| + |es| - 1 &&
      r.elifs[..|ie.elifs|] == ie.elifs &&
      (forall j :: 0 < j < |es| ==> r.elifs[|ie.elifs| + j - 1] == es[j].(ifType := "elif", indentLevel := ie.indentLevel))
    ensures IfElseText(AddElifs(ie, es)).Ok?
  {
    var init := es[..|es| - 1];
    if |es| == 1 {
      assert init == [];
    } else {
      AddElifsShape(ie, init);
      var prev := AddElifs(ie, init);
      assert AddElifs(ie, es).elifs == prev.elifs + [es[|es| - 1].(ifType := "elif", indentLevel := ie.indentLevel)];
      assert init[0] == es[0];
      forall j | 0 < j < |es| - 1
        ensures AddElifs(ie, es).elifs[|ie.elifs| + j - 1] == es[j].(ifType := "elif", indentLevel := ie.indentLevel)
      {
        assert init[j] == es[j];
      }
    }
  }

  // ---------------------------------------------------------------------
  // Values
  // ---------------------------------------------------------------------

  lemma JoinNonEmpty(xs: seq<string>, sep: string)
    requires |xs| > 0 && xs[|xs| - 1] != ""
    ensures Join(xs, sep) != ""
  {
  }

  /** A class instance puts `", "` between its positional and keyword parts
      only when both are non-empty; there is a keyword part exactly when
      there are keyword arguments, each written `key=value` with `String`
      values single-quoted. */
  lemma InstanceTextShape(ci: ClassInstance)
    ensures var args := Join(ci.args, ", ");
      var kwargs := Join(KwargPieces(ci, |ci.kwargs|), ", ");
      (kwargs == "" <==> |ci.kwargs| == 0) &&
      InstanceText(ci) == ci.className + "(" + args + (if args != "" && kwargs != "" then ", " else "") + kwargs + ")"
    ensures forall i :: 0 <= i < |ci.kwargs| && ci.kwargs[i].1.Lit? ==>
      KwargPieces(ci, |ci.kwargs|)[i] == ci.kwargs[i].0 + "=" + Stringify(ci.kwargs[i].1.s)
    ensures forall i :: 0 <= i < |ci.kwargs| && ci.kwargs[i].1.Raw? ==>
      KwargPieces(ci, |ci.kwargs|)[i] == ci.kwargs[i].0 + "=" + ci.kwargs[i].1.s
  {
    var pieces := KwargPieces(ci, |ci.kwargs|);
    if |ci.kwargs| > 0 {
      var k := |ci.kwargs|;
      assert pieces[k - 1] == ci.kwargs[k - 1].0 + "=" + ValueText(ci.kwargs[k - 1].1);
      assert pieces[k - 1][|ci.kwargs[k - 1].0|] == '=';
      JoinNonEmpty(pieces, ", ");
    }
  }

  /** A variable renders as `name = value` on a new line: `String` values
      single-quoted, class instances by their own rendering, anything else
      raw. */
  lemma VariableTextCases(v: Variable)
    ensures v.value.Lit? ==> VariableText(v) == "\n" + v.name + " = '" + v.value.s + "'"
    ensures v.value.Inst? ==> VariableText(v) == "\n" + v.name + " = " + InstanceText(v.value.instance)
    ensures v.value.Raw? ==> VariableText(v) == "\n" + v.name + " = " + v.value.s
  {
    if v.value.Lit? {
      assert Stringify(v.value.s) == "'" + v.value.s + "'";
      assert "\n" + v.name + " = " + ("'" + v.value.s + "'") == "\n" + v.name + " = '" + v.value.s + "'";
    }
  }
}
