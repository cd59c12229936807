# Jenna construct tree and renderer in Dafny

Jenna is a Python library. It writes Python source code from a tree of objects built in memory:

- leaf pieces: expressions, string literals, variables and class instantiations;
- composite pieces: functions, methods, classes, `if` blocks and `if`/`elif`/`else` chains.

Each block (`Expr`, `Function`, `Class`, `If`, `IfElse`) renders to indented text at its own indent level. String literals, variables and class instances are not blocks and have no indent level. Only some composite blocks set their children's levels:

- a function stamps each body block with its own level plus one each time it renders;
- a class gives a method or nested class its own level plus one when that child is added;
- `add_elif` gives an elif added after the `if` the chain's own level;
- an `if` block never changes the levels of its actions.

This project models three parts of Jenna:

- the construct tree and its rendering, from `jenna/jenna_parts.py`;
- the string helpers, from `jenna/utils/__init__.py`;
- the two pure pieces of `jenna/__init__.py`: `cut`, and the choice of statement in `import_package`.

## Modules

| file | module | contents |
|---|---|---|
| `wrappers.dfy` | `Wrappers` | `Option`, `Outcome` (`Pass` or `Fail(message)`), and `Result` (`Ok(value)` or `Err(message)`, usable with `:-`). `CodegenError` and Python's exceptions become `Fail`/`Err`. |
| `ordered_dict.dfy` | `OrderedDict` | a Python `dict` as an association list. Assigning a key updates it in place or appends it last. Used for class variables and keyword arguments. |
| `utils.dfy` | `Utils` | ASCII case mapping, `str.split`, `str.join`, `str.rstrip`, the quoting helpers, and the snake/camel case converters. Each converter is a method with Jenna's loop, proved equal to a reference function. |
| `parts.dfy` | `JennaParts` | the construct tree as mutually recursive datatypes (`Expr`, `If`, `IfElseDef`, `Block`, `Body`, `FunctionDef`, `ClassDef`; `Value`, `ClassInstance`, `Variable`), plus the reference rendering functions. `FunctionTextAt(f, n)` and its siblings render a construct as if its indent level were `n`. |
| `render_properties.dfy` | `RenderProperties` | lemmas about the rendering functions. |
| `objects.dfy` | `JennaObjects` | heap classes for the objects whose methods change fields: `Function` (with the named constructor `Method`), `Class` and `IfElse`. Their `Render` methods follow Jenna's string-accumulator loops and are proved equal to the reference functions. |
| `jenna.dfy` | `Jenna` | `cut` and the import statement selection. |

A block that contains an `IfElse` with no `if_` anywhere in it raises `CodegenError` when rendered. So the renderers of blocks that can contain an `IfElse` (functions, classes, chains, and blocks in general) return `Result<string>`, and the `...RendersIff` lemmas state exactly when rendering succeeds. Expressions, `If`s and values cannot raise, and their renderers return `string`.

### Rendering details kept from the code

The model keeps each of these details of Jenna's code:

- `Class.__str__` emits the nested class first, then the class variables, then the init stub, then the methods (`jenna/jenna_parts.py:199`).
- Only the LAST nested class is rendered, because line 196 assigns instead of appending. `RenderProperties.OnlyLastSubclassKept` states this.
- Only the LAST else-action is rendered (line 369). `RenderProperties.OnlyLastElseActionKept` states this.
- Three pieces of class text do not use the class's own tabs:
  - the description line (`"\n\t"` plus the triple-quoted text, line 177);
  - the empty-class placeholder (`"\n\tpass"`, line 202);
  - the last `pass` of the init stub (line 187).
- In an `if`/`else` chain, an empty `if` body or empty else-action is a bare `pass` with no tabs (lines 364-365 and 370-371).
- An `If` does not reset the indent of its action `Expr`s. Their own tabs are added on top of the `If`'s tabs plus one (line 332).
- Only `Function.__str__` re-stamps child indents at render time. `Class` stamps indents when children are added.

## Model

| member | source | states |
|---|---|---|
| `Utils.Capitalize` | jenna/utils/__init__.py:22 | `str.capitalize` on ASCII: same length, the first character upper-cased, the rest lower-cased |
| `Utils.ToUpper` | jenna/jenna_parts.py:159 | `str.upper` on one ASCII character: a lower-case letter becomes the upper-case letter 32 code points below it, and any other character is unchanged |
| `Utils.ToLower` | jenna/utils/__init__.py:29-33 | `str.lower` on one ASCII character: an upper-case letter becomes the lower-case letter 32 code points above it, and any other character is unchanged |
| `Utils.Lower` | jenna/utils/__init__.py:22 | `str.lower` on a string: same length, each character lower-cased in place |
| `Utils.Split` | jenna/utils/__init__.py:19 | `str.split(sep)`: at least one part, no part contains the separator, and joining the parts with the separator gives back the input |
| `Utils.JoinEnds` | jenna/jenna_parts.py:83 | `sep.join(xs)` of a non-empty list starts with the first piece and ends with the last (the full round trip with `split` is in `Utils.Split`) |
| `Utils.RStrip` | jenna/__init__.py:29 | `str.rstrip(chars)`: the result is a prefix of the input, every removed character is in the set, and the result's last character is not in the set |
| `Utils.StripStringQuotes` | jenna/utils/__init__.py:1-7 | for a non-empty input: if the first and last characters are both `"`, exactly those two are removed (a lone `"` gives the empty string); otherwise the input is returned unchanged |
| `Utils.StripQuotesRoundTrip` | jenna/utils/__init__.py:1-7 | stripping the quotes from `'"' + s + '"'` gives back `s`, for every `s` |
| `Utils.Stringify` | jenna/utils/__init__.py:10-11 | the input between single quotes: two characters longer, input intact in the middle |
| `Utils.TripleStringify` | jenna/utils/__init__.py:14-15 | the input between triple double quotes: six characters longer, input intact in the middle |
| `Utils.CapitalizeLaterInPlace` | jenna/utils/__init__.py:20-22 | the `enumerate` loop leaves the first part as it is and capitalises every later part in place, giving the reference `CapitalizeLater` |
| `Utils.SnakeCaseToCamelCase` | jenna/utils/__init__.py:18-23 | the split, capitalise-every-later-part, join loop computes the reference `SnakeToCamel` |
| `Utils.SnakeToCamelHasNoUnderscore` | jenna/utils/__init__.py:18-23 | the camel-case result contains no `_` |
| `Utils.SnakeToCamelWithoutUnderscore` | jenna/utils/__init__.py:18-23 | an input with no `_` is returned unchanged |
| `Utils.SnakeToCamelPieces` | jenna/utils/__init__.py:19-23 | the result is the first segment unchanged, followed by each later segment capitalised, in order |
| `Utils.CamelCaseToSnakeCase` | jenna/utils/__init__.py:26-34 | the per-character loop (lower-case the first character; `_` plus lower case for later upper-case characters) computes the reference `CamelToSnake` |
| `Utils.CamelToSnakeShape` | jenna/utils/__init__.py:26-34 | the result has no upper-case letter, and its length is the input length plus the number of upper-case letters after position 0 |
| `Utils.CamelToSnakeWithoutUpper` | jenna/utils/__init__.py:26-34 | an input without upper-case letters is returned unchanged |
| `OrderedDict.Get` | jenna/jenna_parts.py:215-217 | dict lookup: `None` exactly when the key is absent, otherwise a value stored under the key |
| `OrderedDict.GetFirstOccurrence` | jenna/jenna_parts.py:215-217 | a present key looks up the value of its first entry |
| `OrderedDict.GetDistinct` | jenna/jenna_parts.py:215-217 | in a dict with distinct keys, looking up any entry's key gives that entry's value |
| `OrderedDict.Put` | jenna/jenna_parts.py:215-217 | dict assignment: an existing key keeps its position and takes the new value; a new key is appended last |
| `OrderedDict.PutThenGet` | jenna/jenna_parts.py:215-217 | after assigning a key, looking it up gives the value just written (last write wins) |
| `OrderedDict.PutOtherKey` | jenna/jenna_parts.py:215-217 | assigning one key leaves the lookup of every other key unchanged |
| `OrderedDict.PutKeepsDistinct` | jenna/jenna_parts.py:215-217 | assignment keeps the keys distinct |
| `JennaParts.Tabs` | jenna/jenna_parts.py:46 | `'\t' * n`: exactly `n` tab characters, and none for `n <= 0` |
| `JennaParts.SetIndentLevel` | jenna/jenna_parts.py:14-15 | `set_indent_level` on any block: the level read back is the one set |
| `JennaParts.IndentOperations` | jenna/jenna_parts.py:14-21 | `get_indent_level` returns the last level set; `increment_indent_level` adds exactly 1; neither changes anything but the level; setting back the old level restores the block |
| `JennaParts.ExprText` | jenna/jenna_parts.py:45-47 | an `Expr` renders as exactly `indent_level` tabs followed by the expression text verbatim |
| `JennaParts.KwargPieces` | jenna/jenna_parts.py:293-298 | one `key=value` piece per keyword argument, in insertion order, with the value rendered by its kind |
| `JennaParts.ValueText` | jenna/jenna_parts.py:250-253 | a `String` renders single-quoted with its text intact, a `ClassInstance` renders starting with its class name, anything else is used as it is |
| `JennaParts.InstanceText` | jenna/jenna_parts.py:287-304 | the class name, `(`, the arguments and `)`; with no arguments at all exactly `Name()` (the separator rule is in `RenderProperties.InstanceTextShape`) |
| `JennaParts.VariableText` | jenna/jenna_parts.py:249-254 | a new line, `name = `, then exactly the value's text |
| `JennaParts.AddKwarg` | jenna/jenna_parts.py:306-307 | `add_kwarg` sets the keyword value under its key and leaves the class name, the positional arguments and every other keyword unchanged |
| `JennaParts.IfActionLines` | jenna/jenna_parts.py:330-333 | each action line of an `If` is the `If`'s tabs, one more tab, and the action's own rendering |
| `JennaParts.IfActionsAreJoinedLines` | jenna/jenna_parts.py:327-335 | the action text of an `If` is its action lines joined by newlines |
| `JennaParts.IfTextAt` | jenna/jenna_parts.py:327-335 | the text starts with the line `\n<tabs><type> <expr>:\n`; an `If` with no actions is that line alone |
| `JennaParts.IfText` | jenna/jenna_parts.py:327-335 | an `If` renders at its own indent level, starting with its header line |
| `JennaParts.IfPart` | jenna/jenna_parts.py:361-365 | an empty `if` body is the bare word `pass`; otherwise it is the tab-prefixed action lines with trailing whitespace stripped |
| `JennaParts.ElifPart` | jenna/jenna_parts.py:373-379 | with no elifs no text is emitted; otherwise a newline followed by each elif's rendering in order |
| `JennaParts.IfElseTextAt` | jenna/jenna_parts.py:357-381 | rendering fails exactly when no `if_` is attached, and then with the message "No If object attached to IfElse object" |
| `JennaParts.BodyLines` | jenna/jenna_parts.py:92-99 | the body loop can only fail with the missing-`if_` error |
| `JennaParts.FunctionTextAt` | jenna/jenna_parts.py:80-100 | a function can only fail to render with the missing-`if_` error |
| `JennaParts.DecoratorLines` | jenna/jenna_parts.py:85-87 | no decorators give no text; otherwise the text starts a new line |
| `JennaParts.FunctionHead` | jenna/jenna_parts.py:81-87 | the decorator text comes first and the head ends with `):` |
| `JennaParts.MethodsText` | jenna/jenna_parts.py:189-190 | the methods loop can only fail with the missing-`if_` error |
| `JennaParts.SubclassText` | jenna/jenna_parts.py:195-196 | the nested-class loop can only fail with the missing-`if_` error |
| `JennaParts.ClassVarsText` | jenna/jenna_parts.py:192-193 | the class-variable text is empty exactly when there are no class variables |
| `RenderProperties.ClassVarOnItsOwnLine` | jenna/jenna_parts.py:192-193 | each class variable is on its own line, `\n\t` plus the class's tabs, then `name = value`, in insertion order |
| `RenderProperties.ClassVarsTextAppend` | jenna/jenna_parts.py:192-193 | the class-variable text of two lists in sequence is the two texts concatenated |
| `JennaParts.BaseClassPart` | jenna/jenna_parts.py:181-184 | no base class adds nothing; a base class `B` adds `(B)` |
| `JennaParts.ClassHeader` | jenna/jenna_parts.py:175-184 | the header starts with `\n\n<tabs>class <name>`; without a description it ends with `:`, and with one it ends with `\n\t` and the description |
| `JennaParts.InitStub` | jenna/jenna_parts.py:186-187 | the stub is empty exactly when no init method was asked for; otherwise it starts with `\n\t<tabs>` and ends with `\n\t\tpass`, whatever the class's tabs |
| `JennaParts.ClassTextAt` | jenna/jenna_parts.py:168-202 | a class can only fail to render with the missing-`if_` error |
| `JennaParts.BlockTextAt` | jenna/jenna_parts.py:23-26 | any block can only fail to render with the missing-`if_` error |
| `JennaParts.MethodDef` | jenna/jenna_parts.py:138-142 | a non-static `Method` has the arguments `['self']` plus those supplied; a static one has exactly those supplied; the default indent is 1; the other fields are as given |
| `JennaParts.ClassName` | jenna/jenna_parts.py:159 | the class name with only its first character upper-cased |
| `JennaParts.StoredDescription` | jenna/jenna_parts.py:228-233 | a missing description is stored as the empty string; a given one is stored triple-quoted, so it is never empty |
| `JennaParts.StampBlocks` | jenna/jenna_parts.py:92-94 | after `k` iterations of the body loop, the first `k` blocks carry the new level and the rest are untouched |
| `JennaParts.Restamp` | jenna/jenna_parts.py:92-94 | stamping a function's body changes nothing but its blocks' levels |
| `JennaParts.AddElifTo` | jenna/jenna_parts.py:383-399 | `add_elif` never changes the else-action or the chain's indent level |
| `RenderProperties.BlockTextAtIsStampThenRender` | jenna/jenna_parts.py:92-94 | rendering a child at level `n` is the same as setting its indent to `n` and then rendering it |
| `RenderProperties.FunctionTextIgnoresOwnLevel` | jenna/jenna_parts.py:80-100 | once the level is stamped, a function's previous indent level does not affect its text |
| `RenderProperties.ClassTextIgnoresOwnLevel` | jenna/jenna_parts.py:168-202 | once the level is stamped, a class's previous indent level does not affect its text |
| `RenderProperties.BlockTextAtIgnoresOwnLevel` | jenna/jenna_parts.py:92-95 | two blocks that differ only in indent level render the same once stamped |
| `RenderProperties.BodyLinesIgnoreLevels` | jenna/jenna_parts.py:92-99 | the body text does not depend on the levels the body blocks held before rendering |
| `RenderProperties.FunctionTextIgnoresBodyLevels` | jenna/jenna_parts.py:92-99 | a function's text does not depend on the levels its body blocks held before |
| `RenderProperties.RenderTwiceSameText` | jenna/jenna_parts.py:80-100 | rendering after the render-time stamping gives identical text, and stamping twice equals stamping once |
| `RenderProperties.RestampKeepsText` | jenna/jenna_parts.py:80-100 | the function with its body stamped renders to the same text as the function before stamping |
| `RenderProperties.RestampIdempotent` | jenna/jenna_parts.py:92-94 | stamping a body a second time changes nothing |
| `RenderProperties.StampStep` | jenna/jenna_parts.py:93-94 | one iteration of the body loop stamps exactly the next block |
| `RenderProperties.BodyLinesStepOk` | jenna/jenna_parts.py:93-99 | one body iteration whose block renders: an `Expr` adds a newline and its text, another block adds its text as it is |
| `RenderProperties.BodyLinesStepErr` | jenna/jenna_parts.py:93-99 | one body iteration whose block raises: the block fails at the child level and the whole body fails with the missing-`if_` error |
| `RenderProperties.StoppedPartlyStamped` | jenna/jenna_parts.py:92-99 | a body loop stopped by a raising block leaves exactly the blocks up to and including it stamped, after blocks that all rendered |
| `RenderProperties.FinishedRestamped` | jenna/jenna_parts.py:92-94 | a body loop that runs to the end leaves the function exactly re-stamped |
| `RenderProperties.FunctionTextCases` | jenna/jenna_parts.py:89-100 | a function with no body renders the header and the two stub lines; with a body it renders the header and the body lines, or the body's error |
| `RenderProperties.PartialStampSameText` | jenna/jenna_parts.py:92-99 | a function whose body was stamped part-way, by a render that raised, renders to the same text as before |
| `RenderProperties.BodyBlockAtFunctionLevelPlusOne` | jenna/jenna_parts.py:93-99 | each body block is rendered at the function's level plus one, whatever level it held, and its text is appended in order |
| `RenderProperties.BlockRendersIff` | jenna/jenna_parts.py:357-359 | a block renders exactly when no `IfElse` anywhere inside it lacks an `if_` |
| `RenderProperties.BodyRendersIff` | jenna/jenna_parts.py:92-99 | a body renders exactly when each of its blocks renders |
| `RenderProperties.FunctionRendersIff` | jenna/jenna_parts.py:80-100 | a function renders exactly when it has no body or every body block renders |
| `RenderProperties.MethodsRenderIff` | jenna/jenna_parts.py:189-190 | the methods render exactly when every method renders |
| `RenderProperties.SubclassesRenderIff` | jenna/jenna_parts.py:195-196 | the nested classes render exactly when every one renders, including those whose text is then discarded |
| `RenderProperties.ClassRendersIff` | jenna/jenna_parts.py:168-202 | a class renders exactly when all its methods and nested classes render |
| `RenderProperties.BodyErrorPersists` | jenna/jenna_parts.py:92-99 | once a body block raises, the body fails with the missing-`if_` error |
| `RenderProperties.MethodsErrorPersists` | jenna/jenna_parts.py:189-190 | once a method raises, the class fails with the missing-`if_` error |
| `RenderProperties.SubclassErrorPersists` | jenna/jenna_parts.py:195-196 | once a nested class raises, the class fails with the missing-`if_` error |
| `RenderProperties.DecoratorLinesAppend` | jenna/jenna_parts.py:86-87 | the decorator text of two lists in sequence is the two texts concatenated |
| `RenderProperties.DecoratorOnItsOwnLine` | jenna/jenna_parts.py:86-87 | every decorator appears on its own line, at the function's tabs, in list order |
| `RenderProperties.FunctionWithoutBody` | jenna/jenna_parts.py:89-90 | with no body, a function renders its decorators, `def name(args):`, then exactly the `# write method body` and `pass` lines at its level plus one |
| `RenderProperties.EmptyClassIsPlaceholder` | jenna/jenna_parts.py:198-202 | a class with no nested class, variable, init stub or method renders its header and the single line `\tpass` |
| `RenderProperties.ClassTextLayout` | jenna/jenna_parts.py:198-199 | a class with something in it renders as the header, the nested-class text, the class variables, the init stub, the methods and a final newline, in that order |
| `RenderProperties.DescriptionLine` | jenna/jenna_parts.py:175-184 | a class made without a description has nothing after `class name(base):`; one made with description `d` has `\n\t` and `d` triple-quoted on the next line |
| `RenderProperties.NonEmptyClassIsNotPlaceholder` | jenna/jenna_parts.py:198-200 | a class with any of those does not render as the placeholder |
| `RenderProperties.ClassPlaceholderIffEmpty` | jenna/jenna_parts.py:198-202 | the class body is the `\tpass` placeholder if and only if the class is empty |
| `RenderProperties.OnlyLastSubclassKept` | jenna/jenna_parts.py:195-196 | the nested-class text is one tab followed by the rendering of the last nested class alone |
| `RenderProperties.OnlyLastElseActionKept` | jenna/jenna_parts.py:367-371 | the else text depends only on the last else-action |
| `RenderProperties.IfNeverReplaced` | jenna/jenna_parts.py:393-399 | once an `if_` is attached, later `add_elif` calls never replace it, and the chain renders |
| `RenderProperties.AddElifsShape` | jenna/jenna_parts.py:383-399 | starting with no `if_`, a series of `add_elif` calls makes the first conditional the `if` (type `'if'`, indent untouched); each later one becomes an `elif` at the chain's indent, in call order; the chain then renders |
| `RenderProperties.InstanceTextShape` | jenna/jenna_parts.py:287-304 | the instance text is the class name and the arguments in parentheses; `", "` separates positional and keyword parts only when both are non-empty; `String` keyword values are single-quoted and raw values pass through |
| `RenderProperties.VariableTextCases` | jenna/jenna_parts.py:249-254 | a variable renders as `"\n" + name + " = "` followed by a quoted string, an instance's rendering, or the raw text, by the value's kind |
| `JennaObjects.Function.constructor` | jenna/jenna_parts.py:62-78 | the new function holds exactly the given name, arguments, body, level and decorators |
| `JennaObjects.Function.Method` | jenna/jenna_parts.py:138-142 | the new method is `MethodDef` of its arguments (`self` prepended unless static) |
| `JennaObjects.Function.SetIndentLevel` | jenna/jenna_parts.py:14-15 | the indent level becomes `n`, nothing else changes |
| `JennaObjects.Function.IncrementIndentLevel` | jenna/jenna_parts.py:20-21 | the indent level grows by exactly one, nothing else changes |
| `JennaObjects.Function.AddDecorator` | jenna/jenna_parts.py:102-112 | fails with `CodegenError` exactly when the text does not start with `@`, and then leaves the decorators unchanged; otherwise appends it last |
| `JennaObjects.Function.SetBody` | jenna/jenna_parts.py:114-122 | the body becomes the given blocks |
| `JennaObjects.Function.RenderHead` | jenna/jenna_parts.py:81-87 | the decorator lines followed by `def name(args):` at the function's tabs |
| `JennaObjects.StampAndRenderBlock` | jenna/jenna_parts.py:93-99 | one pass of the body loop: the next block is stamped, and the text grows by that block's contribution or the whole body fails |
| `JennaObjects.StampAndRenderBody` | jenna/jenna_parts.py:92-99 | the body loop's text is the reference body text; on success the body is the re-stamped one, on failure the partly stamped one |
| `JennaObjects.Function.RenderBody` | jenna/jenna_parts.py:92-99 | the loop's text is the reference body text; on success every body block is stamped with the level plus one; on failure the blocks up to and including the raising one are stamped |
| `JennaObjects.Function.Render` | jenna/jenna_parts.py:80-100 | the text is the reference rendering of the function as it was; on success the function is left with its body stamped, and on failure with its body stamped part-way |
| `JennaObjects.RenderTwice` | jenna/jenna_parts.py:80-100 | rendering the same function object twice gives identical results |
| `JennaObjects.Class.constructor` | jenna/jenna_parts.py:157-166 | the name has its first character upper-cased; the description is stored triple-quoted or empty; there are no methods, variables or nested classes yet |
| `JennaObjects.Class.SetDescription` | jenna/jenna_parts.py:228-233 | the description setter stores the triple-quoted text, or the empty string for `None` |
| `JennaObjects.Class.SetIndentLevel` | jenna/jenna_parts.py:14-15 | the indent level becomes `n`, nothing else changes |
| `JennaObjects.Class.IncrementIndentLevel` | jenna/jenna_parts.py:20-21 | the indent level grows by exactly one, nothing else changes |
| `JennaObjects.Class.AddMethod` | jenna/jenna_parts.py:204-213 | a given method gets the class level plus one and is appended last; without one, a method is made from name and arguments (with `self`) at the class level plus one; without both name and arguments it fails with "method name or argument name invalid" and changes nothing |
| `JennaObjects.Class.AddClassVariable` | jenna/jenna_parts.py:215-217 | last write wins for that name; every other name keeps its value; names stay distinct |
| `JennaObjects.Class.AddSubClass` | jenna/jenna_parts.py:219-222 | the nested class gets the class level plus one, changes nothing else, and is appended last |
| `JennaObjects.RenderMethods` | jenna/jenna_parts.py:189-190 | the methods loop computes the reference methods text, or fails as soon as a method raises |
| `JennaObjects.RenderClassVariables` | jenna/jenna_parts.py:192-193 | the class-variables loop computes the reference class-variables text, one line per variable in insertion order |
| `JennaObjects.RenderSubclasses` | jenna/jenna_parts.py:195-196 | the nested-classes loop computes the reference nested-class text (the last one only), failing if any nested class raises |
| `JennaObjects.Class.Render` | jenna/jenna_parts.py:168-202 | the accumulator loops compute the reference class text |
| `JennaObjects.RenderClassHeader` | jenna/jenna_parts.py:175-184 | the description and base-class branches build exactly the reference class header |
| `JennaObjects.RenderIf` | jenna/jenna_parts.py:327-335 | the accumulator loop computes the reference `If` text |
| `JennaObjects.RenderClassInstance` | jenna/jenna_parts.py:287-304 | the accumulator loops compute the reference instance text |
| `JennaObjects.RenderIfElseActions` | jenna/jenna_parts.py:361-363 | the if-action loop computes the reference if-action text |
| `JennaObjects.RenderElseAction` | jenna/jenna_parts.py:367-371 | the else loop computes the reference else text (last action only) |
| `JennaObjects.RenderElifs` | jenna/jenna_parts.py:373-379 | the elif loop computes the reference elif text |
| `JennaObjects.IfElse.constructor` | jenna/jenna_parts.py:349-355 | the new chain holds exactly the given else-action, level, elifs and `if_` |
| `JennaObjects.IfElse.SetIndentLevel` | jenna/jenna_parts.py:14-15 | the indent level becomes `n`, nothing else changes |
| `JennaObjects.IfElse.IncrementIndentLevel` | jenna/jenna_parts.py:20-21 | the indent level grows by exactly one, nothing else changes |
| `JennaObjects.IfElse.AddElif` | jenna/jenna_parts.py:383-399 | with no `if_`, the argument becomes the `if_` with type `'if'` and its own level; otherwise it gets type `'elif'` and the chain's level, and is appended to the elifs, keeping the `if_` |
| `JennaObjects.IfElse.Render` | jenna/jenna_parts.py:357-381 | the loops compute the reference chain text, which fails exactly when no `if_` is attached |
| `Jenna.Cut` | jenna/__init__.py:28-29 | `cut` returns a prefix of its input |
| `Jenna.CutHasNoTrailingNewline` | jenna/__init__.py:28-29 | what `cut` returns never ends in `\n` |
| `Jenna.CutRemovesOnlyNewlines` | jenna/__init__.py:29 | the input is the output followed by some number of `\n`, so nothing else (such as `\r`) is removed |
| `Jenna.CutKeepsUntrimmed` | jenna/__init__.py:29 | a string not ending in `\n` is returned unchanged |
| `Jenna.CutIdempotent` | jenna/__init__.py:29 | `cut` applied twice equals `cut` applied once |
| `Jenna.Lookup` | jenna/__init__.py:74-80 | `kwargs[key]` succeeds exactly when the key is present, with the stored value |
| `Jenna.ImportStatementOkIff` | jenna/__init__.py:73-82 | a statement is produced exactly when the mode is 1 to 4 and every keyword that mode reads is given; any other mode is the error "Unrecognised import mode" |
| `Jenna.ImportStatementForms` | jenna/__init__.py:73-80 | for any keyword arguments, each of modes 1 to 4 that finds the keys it reads gives exactly `import P`, `from P import O`, `from P import O as A` or `import P as A` |
| `Jenna.DefaultModeImportsPackage` | jenna/__init__.py:60-74 | the default mode is 1: with `package` given the statement is `import P`, and without it the call raises `KeyError: 'package'` |
| `Jenna.MissingKeyReported` | jenna/__init__.py:73-80 | a missing keyword raises `KeyError` naming the first missing key in reading order |

## Left out

- File I/O and formatting in `Jenna`: opening and appending to the output file, the `autopep8` reformat pass, and every `write_*` method. These are I/O and a foreign library. The import statement is computed before any write, so an unknown mode fails before anything is written.
- The default output file name, which comes from the wall-clock time. It depends on the clock.
- The `\w+.py$` file-name check. It uses Python's Unicode regular expressions and only concerns file naming.
- `is_a_builtin`: it depends on Python's `builtins` module.
- The `__main__` demo in `jenna/utils/__init__.py`: it only prints.
- `SingleLineComment` and `MultilineComment`: they are imported by `jenna/__init__.py`, but their definitions are not part of this model.
- The error modules: `CodegenError` is modelled as the `Fail`/`Err` outcome carrying its message.
- Python's Unicode case mapping for `upper`, `lower`, `capitalize` and `isupper`: only ASCII letters change case.
- Python's `str()` of arbitrary objects: values are strings, or the tagged `Value` variant (`Lit` for `String`, `Inst` for `ClassInstance`, `Raw` for everything else).
- `ClassInstance` is a value, not a heap object. `add_kwarg` is the function `JennaParts.AddKwarg`, which returns the updated instance.
- Aliasing of children: a child is stored as a copy of its value when it is added. Later changes to the child object do not reach the parent. The stamping a nested `Function.__str__` does on grandchildren is not kept either: a block's stored level is never read once its parent stamps it, as `RenderProperties.BlockTextAtIgnoresOwnLevel` and `RenderProperties.FunctionTextIgnoresBodyLevels` state, so the dropped stamping cannot change any text.
- `JennaObjects.IfElse.AddElif`: in Python the argument object itself gets its type and level changed. The model returns the changed copy and stores it instead.
- `JennaObjects.Function.AddDecorator`: requires a non-empty decorator, because Python raises `IndexError` on `decorator[0]` for an empty one.
- `JennaObjects.Class.constructor`: requires a non-empty name, because Python raises `IndexError` on `name[0]` for an empty one.
- `Utils.StripStringQuotes`: requires a non-empty input, because Python raises `IndexError` on `string[0]` for an empty one.
- `JennaObjects.Class.AddSubClass`: requires the nested class to be a different object from the class. Adding a class to itself would make the tree cyclic, and the model stores trees.
- `JennaObjects.Function.RenderBody`: the blocks are stamped in a local sequence, which is written back to the body once, when the loop stops at a raising block or at the end. Nothing reads the body in between, so the state after the call is the one Jenna's block-by-block update leaves.
- Indent levels are unbounded integers, as in Python. A negative level renders no tabs, as `'\t' * n` does for `n <= 0`.
