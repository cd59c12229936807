/** The string helpers of the generator (jenna/utils/__init__.py), plus the
    few Python string primitives they and the renderers rely on: `join`,
    `split`, `rstrip`, and ASCII case mapping. */
module Utils {

  // ---------------------------------------------------------------------
  // ASCII case mapping (Python's `upper`, `lower`, `isupper` on ASCII)
  // ---------------------------------------------------------------------

  predicate IsUpper(c: char) { 'A' <= c <= 'Z' }

  predicate IsLower(c: char) { 'a' <= c <= 'z' }

  function ToUpper(c: char): (r: char)
    ensures !IsLower(r)
    ensures IsLower(c) ==> IsUpper(r) && r as int == c as int - 32
    ensures !IsLower(c) ==> r == c
  {
    if IsLower(c) then (c as int - 32) as char else c
  }

  function ToLower(c: char): (r: char)
    ensures !IsUpper(r)
    ensures IsUpper(c) ==> IsLower(r) && r as int == c as int + 32
    ensures !IsUpper(c) ==> r == c
  {
    if IsUpper(c) then (c as int + 32) as char else c
  }

  /** A character that is neither upper- nor lower-case keeps its identity
      under both mappings; in particular `_` never appears out of a letter. */
  lemma CaseMappingKeepsUnderscore(c: char)
    ensures ToUpper(c) == '_' <==> c == '_'
    ensures ToLower(c) == '_' <==> c == '_'
  {
  }

  function Lower(s: string): (r: string)
    ensures |r| == |s|
    ensures forall i :: 0 <= i < |s| ==> r[i] == ToLower(s[i])
  {
    seq(|s|, i requires 0 <= i < |s| => ToLower(s[i]))
  }

  /** Python's `str.capitalize`: first character upper-cased, the rest lower-cased. */
  function Capitalize(s: string): (r: string)
    ensures |r| == |s|
    ensures |s| > 0 ==> r[0] == ToUpper(s[0])
    ensures forall i :: 1 <= i < |s| ==> r[i] == ToLower(s[i])
  {
    if |s| == 0 then "" else [ToUpper(s[0])] + Lower(s[1..])
  }

  // ---------------------------------------------------------------------
  // join, split, rstrip
  // ---------------------------------------------------------------------

  /** Python's `sep.join(xs)`. */
  function Join(xs: seq<string>, sep: string): string
  {
    if |xs| == 0 then ""
    else if |xs| == 1 then xs[0]
    else Join(xs[..|xs| - 1], sep) + sep + xs[|xs| - 1]
  }

  /** A join starts with the first piece and ends with the last. */
  lemma {:induction false} JoinEnds(xs: seq<string>, sep: string)
    requires |xs| > 0
    ensures |Join(xs, sep)| >= |xs[0]| && Join(xs, sep)[..|xs[0]|] == xs[0]
    ensures |Join(xs, sep)| >= |xs[|xs| - 1]| && Join(xs, sep)[|Join(xs, sep)| - |xs[|xs| - 1]|..] == xs[|xs| - 1]
  {
    if |xs| > 1 {
      var init := xs[..|xs| - 1];
      JoinEnds(init, sep);
      assert init[0] == xs[0];
      var a := Join(init, sep);
      assert Join(xs, sep) == a + (sep + xs[|xs| - 1]);
      assert (a + (sep + xs[|xs| - 1]))[..|xs[0]|] == a[..|xs[0]|];
    }
  }

  lemma JoinSnoc(xs: seq<string>, x: string, sep: string)
    requires |xs| >= 1
    ensures Join(xs + [x], sep) == Join(xs, sep) + sep + x
  {
    assert (xs + [x])[..|xs|] == xs;
  }

  /** Joining one more element of a prefix. */
  lemma JoinPrefixSnoc(xs: seq<string>, k: nat, sep: string)
    requires 1 < k <= |xs|
    ensures Join(xs[..k], sep) == Join(xs[..k - 1], sep) + sep + xs[k - 1]
  {
    assert xs[..k][..k - 1] == xs[..k - 1];
  }

  /** Text built line by line agrees with the join of those lines: if what
      came before is the join so far plus a separator, adding the next line
      gives the join that includes it. */
  lemma JoinedLast(text: string, before: string, line: string, joined: string, joinedBefore: string, sep: string)
    requires text == before + line
    requires before == joinedBefore + sep
    requires joined == joinedBefore + sep + line
    ensures text == joined
  {
  }

  /** With the empty separator, joining is plain concatenation, also at the front. */
  lemma {:induction false} JoinEmptySepSnoc(xs: seq<string>, x: string)
    ensures Join(xs + [x], "") == Join(xs, "") + x
  {
    if |xs| >= 1 {
      JoinSnoc(xs, x, "");
    }
  }

  lemma {:induction false} JoinEmptySepCons(x: string, xs: seq<string>)
    ensures Join([x] + xs, "") == x + Join(xs, "")
    decreases |xs|
  {
    if |xs| == 0 {
    } else {
      var init := xs[..|xs| - 1];
      var last := xs[|xs| - 1];
      assert xs == init + [last];
      assert [x] + xs == ([x] + init) + [last];
      JoinEmptySepCons(x, init);
      JoinEmptySepSnoc([x] + init, last);
      JoinEmptySepSnoc(init, last);
    }
  }

  /** Every character of a join comes from the separator or from one of the parts. */
  lemma {:induction false} JoinChars(xs: seq<string>, sep: string, c: char)
    requires c in Join(xs, sep)
    ensures c in sep || exists i :: 0 <= i < |xs| && c in xs[i]
  {
    if |xs| == 0 {
    } else if |xs| == 1 {
      assert c in xs[0];
    } else {
      var init := xs[..|xs| - 1];
      var j :| 0 <= j < |Join(xs, sep)| && Join(xs, sep)[j] == c;
      var a := Join(init, sep);
      assert Join(xs, sep) == a + sep + xs[|xs| - 1];
      if j < |a| {
        assert c in a;
        JoinChars(init, sep, c);
        if !(c in sep) {
          var i :| 0 <= i < |init| && c in init[i];
          assert init[i] == xs[i];
        }
      } else if j < |a| + |sep| {
        assert sep[j - |a|] == c;
      } else {
        assert xs[|xs| - 1][j - |a| - |sep|] == c;
      }
    }
  }

  lemma JoinExtendLast(xs: seq<string>, sep: string, c: char)
    requires |xs| >= 1
    ensures Join(xs[..|xs| - 1] + [xs[|xs| - 1] + [c]], sep) == Join(xs, sep) + [c]
  {
    var k := |xs| - 1;
    if k == 0 {
      assert xs[..k] + [xs[k] + [c]] == [xs[k] + [c]];
    } else {
      JoinSnoc(xs[..k], xs[k] + [c], sep);
      JoinSnoc(xs[..k], xs[k], sep);
      assert xs[..k] + [xs[k]] == xs;
    }
  }

  /** Python's `s.split(sep)` for a one-character separator: the pieces between
      separators, never fewer than one, and joining them back gives `s`. */
  function Split(s: string, sep: char): (parts: seq<string>)
    ensures |parts| >= 1
    ensures forall i :: 0 <= i < |parts| ==> sep !in parts[i]
    ensures Join(parts, [sep]) == s
    decreases |s|
  {
    if |s| == 0 then [""]
    else
      var r := Split(s[..|s| - 1], sep);
      var c := s[|s| - 1];
      assert s == s[..|s| - 1] + [c];
      if c == sep then
        JoinSnoc(r, "", [sep]);
        r + [""]
      else
        JoinExtendLast(r, [sep], c);
        r[..|r| - 1] + [r[|r| - 1] + [c]]
  }

  /** Without a separator in it, a string splits into itself alone. */
  lemma {:induction false} SplitWithoutSep(s: string, sep: char)
    requires sep !in s
    ensures Split(s, sep) == [s]
    decreases |s|
  {
    if |s| > 0 {
      assert sep !in s[..|s| - 1];
      SplitWithoutSep(s[..|s| - 1], sep);
      assert s == s[..|s| - 1] + [s[|s| - 1]];
    }
  }

  /** Python's `s.rstrip(chars)`: drop trailing characters that are in `chars`. */
  function RStrip(s: string, chars: set<char>): (r: string)
    ensures |r| <= |s| && r == s[..|r|]
    ensures forall i :: |r| <= i < |s| ==> s[i] in chars
    ensures |r| == 0 || r[|r| - 1] !in chars
  {
    if |s| > 0 && s[|s| - 1] in chars then RStrip(s[..|s| - 1], chars) else s
  }

  /** The characters for which Python's `str.isspace` holds, i.e. what a bare
      `rstrip()` removes. */
  const Whitespace: set<char> :=
    {'\U{9}', '\U{A}', '\U{B}', '\U{C}', '\U{D}', '\U{1C}', '\U{1D}', '\U{1E}',
     '\U{1F}', '\U{20}', '\U{85}', '\U{A0}', '\U{1680}', '\U{2000}', '\U{2001}', '\U{2002}',
     '\U{2003}', '\U{2004}', '\U{2005}', '\U{2006}', '\U{2007}', '\U{2008}', '\U{2009}', '\U{200A}',
     '\U{2028}', '\U{2029}', '\U{202F}', '\U{205F}', '\U{3000}'}

  // ---------------------------------------------------------------------
  // Quoting
  // ---------------------------------------------------------------------

  /** Drops a pair of surrounding double quotes. Python's `string[0]` fails on
      the empty string, so callers must pass a non-empty one. */
  function StripStringQuotes(s: string): (r: string)
    requires |s| > 0
    ensures s[0] == '"' && s[|s| - 1] == '"' && |s| >= 2 ==> r == s[1..|s| - 1]
    ensures s == "\"" ==> r == ""
    ensures !(s[0] == '"' && s[|s| - 1] == '"') ==> r == s
  {
    if s[0] == '"' && s[|s| - 1] == '"' then
      var res := s[1..];
      if |res| == 0 then "" else res[..|res| - 1]
    else s
  }

  /** Wrapping in double quotes and stripping them again gives back the text. */
  lemma StripQuotesRoundTrip(s: string)
    ensures StripStringQuotes("\"" + s + "\"") == s
  {
    var q := "\"" + s + "\"";
    assert q[1..|q| - 1] == s;
  }

  /** A single-quoted Python string literal around `s` (no escaping). */
  function Stringify(s: string): (r: string)
    ensures |r| == |s| + 2
    ensures r[0] == '\'' && r[|r| - 1] == '\''
    ensures r[1..|r| - 1] == s
  {
    "'" + s + "'"
  }

  /** A triple-double-quoted Python string literal around `s`. */
  function TripleStringify(s: string): (r: string)
    ensures |r| == |s| + 6
    ensures r[..3] == "\"\"\"" && r[|r| - 3..] == "\"\"\""
    ensures r[3..|r| - 3] == s
  {
    "\"\"\"" + s + "\"\"\""
  }

  // ---------------------------------------------------------------------
  // snake_case -> camelCase
  // ---------------------------------------------------------------------

  /** The split pieces with every piece but the first capitalised. */
  function CapitalizeLater(parts: seq<string>): (r: seq<string>)
    ensures |r| == |parts|
    ensures |parts| > 0 ==> r[0] == parts[0]
    ensures forall i :: 1 <= i < |parts| ==> r[i] == Capitalize(parts[i])
  {
    seq(|parts|, i requires 0 <= i < |parts| => if i == 0 then parts[i] else Capitalize(parts[i]))
  }

  /** What `snake_case_to_camel_case` computes. */
  function SnakeToCamel(s: string): string
  {
    Join(CapitalizeLater(Split(s, '_')), "")
  }

  /** Jenna's loop over the split pieces: every piece after the first
      is overwritten, in place, with its capitalised form. */
  method CapitalizeLaterInPlace(original: seq<string>) returns (parts: seq<string>)
    ensures parts == CapitalizeLater(original)
  {
    parts := original;
    var i := 0;
    while i < |parts|
      invariant 0 <= i <= |parts| == |original|
      invariant forall j :: 0 <= j < i ==> parts[j] == CapitalizeLater(original)[j]
      invariant forall j :: i <= j < |parts| ==> parts[j] == original[j]
    {
      if i != 0 {
        parts := parts[i := Capitalize(parts[i])];
      }
      i := i + 1;
    }
  }

  /** `snake_case_to_camel_case`: split on `_`, capitalise every piece after
      the first, and join with the empty separator. */
  method SnakeCaseToCamelCase(s: string) returns (r: string)
    ensures r == SnakeToCamel(s)
  {
    var parts := Split(s, '_');
    parts := CapitalizeLaterInPlace(parts);
    r := Join(parts, "");
  }

  /** The output of snake-to-camel conversion never contains `_`. */
  lemma SnakeToCamelHasNoUnderscore(s: string)
    ensures '_' !in SnakeToCamel(s)
  {
    var parts := Split(s, '_');
    var caps := CapitalizeLater(parts);
    forall i | 0 <= i < |caps| ensures '_' !in caps[i] {
      if i > 0 {
        forall j | 0 <= j < |caps[i]| ensures caps[i][j] != '_' {
          if j == 0 {
            CaseMappingKeepsUnderscore(parts[i][0]);
          } else {
            CaseMappingKeepsUnderscore(parts[i][j]);
          }
        }
      }
    }
    if '_' in SnakeToCamel(s) {
      JoinChars(caps, "", '_');
    }
  }

  /** A string without `_` comes back unchanged. */
  lemma SnakeToCamelWithoutUnderscore(s: string)
    requires '_' !in s
    ensures SnakeToCamel(s) == s
  {
    SplitWithoutSep(s, '_');
    assert CapitalizeLater([s]) == [s];
  }

  /** The first `_`-separated piece is kept verbatim as a prefix; each later
      piece follows, capitalised, in order. */
  lemma SnakeToCamelPieces(s: string)
    ensures var parts := Split(s, '_');
      SnakeToCamel(s) == parts[0] + Join(seq(|parts| - 1, i requires 0 <= i < |parts| - 1 => Capitalize(parts[i + 1])), "")
  {
    var parts := Split(s, '_');
    var tail := seq(|parts| - 1, i requires 0 <= i < |parts| - 1 => Capitalize(parts[i + 1]));
    CapitalizeLaterCons(parts);
    JoinEmptySepCons(parts[0], tail);
  }

  lemma CapitalizeLaterCons(parts: seq<string>)
    requires |parts| > 0
    ensures CapitalizeLater(parts) ==
      [parts[0]] + seq(|parts| - 1, i requires 0 <= i < |parts| - 1 => Capitalize(parts[i + 1]))
  {
  }

  // ---------------------------------------------------------------------
  // CamelCase -> snake_case
  // ---------------------------------------------------------------------

  /** What Jenna puts in place of the character `c` at position `i`. */
  function Piece(i: nat, c: char): string
  {
    if IsUpper(c) then (if i == 0 then [ToLower(c)] else ['_', ToLower(c)]) else [c]
  }

  function Pieces(s: string): (r: seq<string>)
    ensures |r| == |s|
    ensures forall i :: 0 <= i < |s| ==> r[i] == Piece(i, s[i])
  {
    seq(|s|, i requires 0 <= i < |s| => Piece(i, s[i]))
  }

  /** What `camel_case_to_snake_case` computes. */
  function CamelToSnake(s: string): string
  {
    Join(Pieces(s), "")
  }

  /** Jenna's loop over the list of characters: an upper-case character
      becomes its lower-case form, preceded by `_` unless it is the first. */
  method CamelCaseToSnakeCase(s: string) returns (r: string)
    ensures r == CamelToSnake(s)
  {
    var parts := seq(|s|, i requires 0 <= i < |s| => [s[i]]);
    var i := 0;
    while i < |parts|
      invariant 0 <= i <= |parts| == |s|
      invariant forall j :: 0 <= j < i ==> parts[j] == Piece(j, s[j])
      invariant forall j :: i <= j < |parts| ==> parts[j] == [s[j]]
    {
      var part := parts[i];
      if IsUpper(part[0]) {
        if i == 0 {
          parts := parts[i := [ToLower(part[0])]];
        } else {
          parts := parts[i := "_" + [ToLower(part[0])]];
        }
      }
      i := i + 1;
    }
    assert parts == Pieces(s);
    r := Join(parts, "");
  }

  /** Number of upper-case characters after the first position. */
  function UpperAfterFirst(s: string): nat
  {
    if |s| <= 1 then 0
    else UpperAfterFirst(s[..|s| - 1]) + (if IsUpper(s[|s| - 1]) then 1 else 0)
  }

  lemma PiecesSnoc(s: string)
    requires |s| > 0
    ensures Pieces(s) == Pieces(s[..|s| - 1]) + [Piece(|s| - 1, s[|s| - 1])]
  {
  }

  /** The snake-case form has no upper-case letter, and it is one character
      longer than the input for every upper-case letter after the first position. */
  lemma {:induction false} CamelToSnakeShape(s: string)
    ensures forall i :: 0 <= i < |CamelToSnake(s)| ==> !IsUpper(CamelToSnake(s)[i])
    ensures |CamelToSnake(s)| == |s| + UpperAfterFirst(s)
    decreases |s|
  {
    if |s| > 0 {
      var init := s[..|s| - 1];
      CamelToSnakeShape(init);
      PiecesSnoc(s);
      JoinEmptySepSnoc(Pieces(init), Piece(|s| - 1, s[|s| - 1]));
    }
  }

  /** A string without upper-case letters comes back unchanged. */
  lemma {:induction false} CamelToSnakeWithoutUpper(s: string)
    requires forall i :: 0 <= i < |s| ==> !IsUpper(s[i])
    ensures CamelToSnake(s) == s
    decreases |s|
  {
    if |s| > 0 {
      var init := s[..|s| - 1];
      CamelToSnakeWithoutUpper(init);
      PiecesSnoc(s);
      JoinEmptySepSnoc(Pieces(init), Piece(|s| - 1, s[|s| - 1]));
      assert s == init + [s[|s| - 1]];
    }
  }

  /** A character of a prefix is a character of the whole. */
  lemma InPrefix(a: string, b: string, c: char)
    requires c in a
    ensures c in a + b
  {
    var j :| 0 <= j < |a| && a[j] == c;
    assert (a + b)[j] == c;
  }

  /** Regrouping a concatenation. */
  lemma Regroup3(a: string, b: string, c: string)
    ensures a + b + c == a + (b + c)
  {
  }

  lemma Regroup4(a: string, b: string, c: string, d: string)
    ensures a + b + c + d == a + (b + c + d)
  {
  }

  lemma Regroup5(a: string, b: string, c: string, d: string, e: string)
    ensures a + b + c + d + e == a + (b + c + d + e)
  {
    Regroup4(a, b, c, d);
  }
}
