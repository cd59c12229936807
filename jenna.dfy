/** The two pure pieces of jenna/__init__.py: `cut`, which trims the
    trailing newlines off a rendered block, and the choice of import
    statement inside `Jenna.import_package`. */
module Jenna {
  import opened Wrappers
  import opened Utils

  const UnrecognisedModeMessage := "Unrecognised import mode"

  /** `cut`: `rstrip('\n')`. */
  function Cut(s: string): (r: string)
    ensures |r| <= |s| && r == s[..|r|]
  {
    RStrip(s, {'\n'})
  }

  function Newlines(k: nat): (r: string)
    ensures |r| == k && forall i :: 0 <= i < k ==> r[i] == '\n'
  {
    if k == 0 then "" else Newlines(k - 1) + "\n"
  }

  /** What `cut` returns never ends in a newline. */
  lemma CutHasNoTrailingNewline(s: string)
    ensures |Cut(s)| == 0 || Cut(s)[|Cut(s)| - 1] != '\n'
  {
  }

  /** `cut` removes newlines and nothing else: the input is the output
      followed by some number of `\n` (no `\r`, no other whitespace). */
  lemma CutRemovesOnlyNewlines(s: string)
    ensures s == Cut(s) + Newlines(|s| - |Cut(s)|)
  {
    var r := Cut(s);
    var tail := Newlines(|s| - |r|);
    forall i | 0 <= i < |s| ensures s[i] == (r + tail)[i] {
      if i >= |r| {
        assert s[i] in {'\n'};
      }
    }
  }

  /** A string not ending in a newline is left as it is. */
  lemma CutKeepsUntrimmed(s: string)
    requires |s| == 0 || s[|s| - 1] != '\n'
    ensures Cut(s) == s
  {
  }

  lemma CutIdempotent(s: string)
    ensures Cut(Cut(s)) == Cut(s)
  {
    CutHasNoTrailingNewline(s);
    CutKeepsUntrimmed(Cut(s));
  }

  /** A keyword argument read as `kwargs[key]`: a missing key raises KeyError. */
  function Lookup(kwargs: map<string, string>, key: string): (r: Result<string>)
    ensures r.Ok? <==> key in kwargs
    ensures r.Ok? ==> r.value == kwargs[key]
  {
    if key in kwargs then Ok(kwargs[key]) else Err("KeyError: '" + key + "'")
  }

  /** The statement `Jenna.import_package` writes for `mode` (1 unless
      given; no keyword arguments unless given). The keyword arguments are
      read in the order the f-string reads them, so the first missing one is
      the error. Any mode other than 1 to 4 is refused. */
  function ImportStatement(mode: int := 1, kwargs: map<string, string> := map[]): (r: Result<string>)
  {
    if mode == 1 then
      var p :- Lookup(kwargs, "package");
      Ok("import " + p)
    else if mode == 2 then
      var p :- Lookup(kwargs, "package");
      var o :- Lookup(kwargs, "object");
      Ok("from " + p + " import " + o)
    else if mode == 3 then
      var p :- Lookup(kwargs, "package");
      var o :- Lookup(kwargs, "object");
      var a :- Lookup(kwargs, "alias");
      Ok("from " + p + " import " + o + " as " + a)
    else if mode == 4 then
      var p :- Lookup(kwargs, "package");
      var a :- Lookup(kwargs, "alias");
      Ok("import " + p + " as " + a)
    else
      Err(UnrecognisedModeMessage)
  }

  /** The keyword arguments each mode needs, in the order they are read. */
  function RequiredKeys(mode: int): seq<string>
  {
    if mode == 1 then ["package"]
    else if mode == 2 then ["package", "object"]
    else if mode == 3 then ["package", "object", "alias"]
    else if mode == 4 then ["package", "alias"]
    else []
  }

  predicate KnownMode(mode: int)
  {
    1 <= mode <= 4
  }

  /** An import statement is produced exactly when the mode is one of 1 to 4
      and every keyword argument that mode needs is given; an unknown mode
      is refused whatever the keyword arguments. */
  lemma ImportStatementOkIff(mode: int, kwargs: map<string, string>)
    ensures ImportStatement(mode, kwargs).Ok? <==>
      KnownMode(mode) && forall i :: 0 <= i < |RequiredKeys(mode)| ==> RequiredKeys(mode)[i] in kwargs
    ensures !KnownMode(mode) ==> ImportStatement(mode, kwargs) == Err(UnrecognisedModeMessage)
  {
    var keys := RequiredKeys(mode);
    if mode == 2 {
      assert keys[0] == "package" && keys[1] == "object";
    } else if mode == 3 {
      assert keys[0] == "package" && keys[1] == "object" && keys[2] == "alias";
    } else if mode == 4 {
      assert keys[0] == "package" && keys[1] == "alias";
    } else if mode == 1 {
      assert keys[0] == "package";
    }
  }

  /** Each mode gives its statement form as soon as the keyword arguments
      that mode reads are given, whatever else is or is not given. */
  lemma ImportStatementForms(kwargs: map<string, string>)
    ensures "package" in kwargs ==>
      ImportStatement(1, kwargs) == Ok("import " + kwargs["package"])
    ensures "package" in kwargs && "object" in kwargs ==>
      ImportStatement(2, kwargs) == Ok("from " + kwargs["package"] + " import " + kwargs["object"])
    ensures "package" in kwargs && "object" in kwargs && "alias" in kwargs ==>
      ImportStatement(3, kwargs) == Ok("from " + kwargs["package"] + " import " + kwargs["object"] + " as " + kwargs["alias"])
    ensures "package" in kwargs && "alias" in kwargs ==>
      ImportStatement(4, kwargs) == Ok("import " + kwargs["package"] + " as " + kwargs["alias"])
  {
  }

  /** Without a mode, `import_package` imports the package whole. */
  lemma DefaultModeImportsPackage(kwargs: map<string, string>)
    ensures ImportStatement(kwargs := kwargs) == ImportStatement(1, kwargs)
    ensures "package" in kwargs ==> ImportStatement(kwargs := kwargs) == Ok("import " + kwargs["package"])
    ensures "package" !in kwargs ==> ImportStatement(kwargs := kwargs) == Err("KeyError: 'package'")
  {
  }

  /** When a needed keyword argument is missing, the error names the first
      one missing in reading order. */
  lemma MissingKeyReported(mode: int, kwargs: map<string, string>, i: nat)
    requires KnownMode(mode) && i < |RequiredKeys(mode)|
    requires RequiredKeys(mode)[i] !in kwargs
    requires forall j :: 0 <= j < i ==> RequiredKeys(mode)[j] in kwargs
    ensures ImportStatement(mode, kwargs) == Err("KeyError: '" + RequiredKeys(mode)[i] + "'")
  {
    var keys := RequiredKeys(mode);
    if mode == 2 {
      assert keys[0] == "package" && keys[1] == "object";
    } else if mode == 3 {
      assert keys[0] == "package" && keys[1] == "object" && keys[2] == "alias";
    } else if mode == 4 {
      assert keys[0] == "package" && keys[1] == "alias";
    }
  }
}
