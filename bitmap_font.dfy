/**
  `BitmapFont`: a glyph table read from the lines of a BMFont text file
  (`char id=...` lines add glyphs, `common ...` lines set the line height,
  every other line is ignored) and `MeasureString`, which folds the known
  characters of a text into a width and a height.
*/
module Fonts {
  import opened Geometry
  import opened Textures

  /** `Glyph`: the atlas region, the drawing offset and the pen advance. */
  datatype Glyph = Glyph(source: Rect, offset: Vec2, xAdvance: real)

  /** The state the constructor builds: the glyph dictionary and `LineHeight`. */
  datatype FontTable = FontTable(glyphs: map<int, Glyph>, lineHeight: real)

  /** An empty dictionary and `LineHeight` at its default, 0. */
  const EmptyTable: FontTable := FontTable(map[], 0.0)

  /** The `(char)` conversion of a parsed id: its low 16 bits, a UTF-16 code unit. */
  function CharKey(id: int): (k: int)
    ensures 0 <= k < 0x1_0000
    ensures 0 <= id < 0x1_0000 ==> k == id
  {
    id % 0x1_0000
  }

  /** The dictionary key of a text character. */
  function KeyOf(c: char): int
  {
    c as int
  }

  // ---------------------------------------------------------------------
  // Strings

  /** Ordinal `s.StartsWith(prefix)`. */
  predicate StartsWith(s: string, prefix: string)
  {
    |prefix| <= |s| && s[..|prefix|] == prefix
  }

  /**
    `s.Split(sep)`: the maximal runs between separators, empty runs
    included, so there is always one more part than separators.
  */
  function Split(s: string, sep: char): (parts: seq<string>)
    ensures |parts| >= 1
    ensures forall i :: 0 <= i < |parts| ==> sep !in parts[i]
  {
    if s == [] then [""]
    else
      var ps := Split(s[..|s| - 1], sep);
      var c := s[|s| - 1];
      if c == sep then ps + [""]
      else ps[..|ps| - 1] + [ps[|ps| - 1] + [c]]
  }

  /** `string.Join(sep, parts)`, the inverse of `Split`. */
  function Join(parts: seq<string>, sep: char): string
    requires |parts| >= 1
  {
    if |parts| == 1 then parts[0]
    else Join(parts[..|parts| - 1], sep) + [sep] + parts[|parts| - 1]
  }

  /** Joining the parts of a split gives back the string. */
  lemma {:induction false} JoinSplit(s: string, sep: char)
    ensures Join(Split(s, sep), sep) == s
  {
    if s != [] {
      var p := s[..|s| - 1];
      var c := s[|s| - 1];
      var ps := Split(p, sep);
      JoinSplit(p, sep);
      assert s == p + [c];
      if c == sep {
        assert (ps + [""])[..|ps|] == ps;
      } else {
        JoinLast(ps, ps[|ps| - 1] + [c], sep);
      }
    }
  }

  /** Joining after replacing the last part by a longer one extends the join by the difference. */
  lemma JoinLast(ps: seq<string>, last: string, sep: char)
    requires |ps| >= 1 && |last| >= |ps[|ps| - 1]| && last[..|ps[|ps| - 1]|] == ps[|ps| - 1]
    ensures Join(ps[..|ps| - 1] + [last], sep) == Join(ps, sep) + last[|ps[|ps| - 1]|..]
  {
    var qs := ps[..|ps| - 1] + [last];
    if |ps| > 1 {
      assert qs[..|qs| - 1] == ps[..|ps| - 1];
    }
  }

  /** Splitting a join of separator-free parts gives back the parts. */
  lemma {:induction false} SplitJoin(parts: seq<string>, sep: char)
    requires |parts| >= 1
    requires forall i :: 0 <= i < |parts| ==> sep !in parts[i]
    ensures Split(Join(parts, sep), sep) == parts
  {
    if |parts| == 1 {
      SplitNoSep(parts[0], sep);
    } else {
      var init := parts[..|parts| - 1];
      var last := parts[|parts| - 1];
      SplitJoin(init, sep);
      SplitAfterSep(Join(init, sep), last, sep);
    }
  }

  /** A string without the separator is one part. */
  lemma {:induction false} SplitNoSep(s: string, sep: char)
    requires sep !in s
    ensures Split(s, sep) == [s]
  {
    if s != [] {
      SplitNoSep(s[..|s| - 1], sep);
      assert s == s[..|s| - 1] + [s[|s| - 1]];
    }
  }

  /** Appending a separator and a separator-free run appends that run as one more part. */
  lemma {:induction false} SplitAfterSep(a: string, t: string, sep: char)
    requires sep !in t
    ensures Split(a + [sep] + t, sep) == Split(a, sep) + [t]
  {
    if t == [] {
      assert (a + [sep])[..|a|] == a;
      assert a + [sep] + t == a + [sep];
    } else {
      var t' := t[..|t| - 1];
      var c := t[|t| - 1];
      SplitAfterSep(a, t', sep);
      assert (a + [sep] + t)[..|a + [sep] + t| - 1] == a + [sep] + t';
      assert t' + [c] == t;
    }
  }

  // ---------------------------------------------------------------------
  // `Get`

  /** The value of `key` in the parts of a line: after `key=` in the first match, else "0". */
  function GetSpec(parts: seq<string>, key: string): (r: string)
  {
    if parts == [] then "0"
    else if StartsWith(parts[0], key + "=") then parts[0][|key| + 1..]
    else GetSpec(parts[1..], key)
  }

  /** The local `Get` of the constructor: a search loop over the parts. */
  method Get(parts: seq<string>, key: string) returns (r: string)
    ensures r == GetSpec(parts, key)
  {
    for i := 0 to |parts|
      invariant GetSpec(parts, key) == GetSpec(parts[i..], key)
    {
      assert parts[i..][1..] == parts[i + 1..];
      if StartsWith(parts[i], key + "=") {
        return parts[i][|key| + 1..];
      }
    }
    r := "0";
  }

  /**
    `Get` returns the text after `key=` in the FIRST part that starts with
    `key=`, and "0" exactly when no part does.
  */
  lemma {:induction false} GetFirstMatch(parts: seq<string>, key: string)
    ensures (forall i :: 0 <= i < |parts| ==> !StartsWith(parts[i], key + "=")) ==> GetSpec(parts, key) == "0"
    ensures forall i :: 0 <= i < |parts| && StartsWith(parts[i], key + "=") &&
                        (forall j :: 0 <= j < i ==> !StartsWith(parts[j], key + "=")) ==>
                          GetSpec(parts, key) == parts[i][|key| + 1..]
  {
    if parts != [] {
      GetFirstMatch(parts[1..], key);
      forall i | 0 < i < |parts| && StartsWith(parts[i], key + "=") &&
                 (forall j :: 0 <= j < i ==> !StartsWith(parts[j], key + "="))
        ensures GetSpec(parts, key) == parts[i][|key| + 1..]
      {
        assert parts[1..][i - 1] == parts[i];
        forall j | 0 <= j < i - 1 ensures !StartsWith(parts[1..][j], key + "=") {
          assert parts[1..][j] == parts[j + 1];
        }
      }
      if forall i :: 0 <= i < |parts| ==> !StartsWith(parts[i], key + "=") {
        forall j | 0 <= j < |parts| - 1 ensures !StartsWith(parts[1..][j], key + "=") {
          assert parts[1..][j] == parts[j + 1];
        }
      }
    }
  }

  /**
    The match includes the `=`: a part `key2=...` never matches a key that
    is a proper prefix of `key2` unless `key2` continues with `=` there. So
    key `x` does not match `xoffset=` or `xadvance=`.
  */
  lemma EqualsSignSeparatesKeys(part: string, key: string, key2: string)
    requires |key| < |key2| && key2[..|key|] == key && key2[|key|] != '='
    requires StartsWith(part, key2 + "=")
    ensures !StartsWith(part, key + "=")
  {
    assert part[|key|] == (key2 + "=")[|key|] == key2[|key|];
  }

  /** A string whose `i`-th character differs from the prefix's does not start with it. */
  lemma FirstMismatch(s: string, prefix: string, i: int)
    requires 0 <= i < |prefix| && i < |s| && s[i] != prefix[i]
    ensures !StartsWith(s, prefix)
  {
  }

  /** A `char` line without an `x=` part: `x` reads as "0" although `xoffset=` and `xadvance=` are there. */
  lemma MissingKeyReadsZero()
    ensures GetSpec(["char", "id=65", "xoffset=2", "xadvance=9"], "x") == "0"
  {
    var parts: seq<string> := ["char", "id=65", "xoffset=2", "xadvance=9"];
    EqualsSignSeparatesKeys(parts[2], "x", "xoffset");
    EqualsSignSeparatesKeys(parts[3], "x", "xadvance");
    FirstMismatch(parts[0], "x=", 0);
    FirstMismatch(parts[1], "x=", 0);
    GetFirstMatch(parts, "x");
  }

  // ---------------------------------------------------------------------
  // Loading

  /** A line the constructor turns into a glyph. */
  predicate IsCharLine(line: string)
  {
    StartsWith(line, "char id=")
  }

  /** A line the constructor takes `LineHeight` from. */
  predicate IsCommonLine(line: string)
  {
    StartsWith(line, "common ")
  }

  /** The dictionary key a `char` line writes. */
  function CharLineKey(line: string, parseInt: string -> int): int
  {
    CharKey(parseInt(GetSpec(Split(line, ' '), "id")))
  }

  /** The glyph a `char` line describes. */
  function CharLineGlyph(line: string, parseFloat: string -> real): (g: Glyph)
    ensures var parts := Split(line, ' ');
            g.source == Rect(parseFloat(GetSpec(parts, "x")), parseFloat(GetSpec(parts, "y")),
                             parseFloat(GetSpec(parts, "width")), parseFloat(GetSpec(parts, "height"))) &&
            g.offset == Vec2(parseFloat(GetSpec(parts, "xoffset")), parseFloat(GetSpec(parts, "yoffset"))) &&
            g.xAdvance == parseFloat(GetSpec(parts, "xadvance"))
  {
    var parts := Split(line, ' ');
    Glyph(Rect(parseFloat(GetSpec(parts, "x")), parseFloat(GetSpec(parts, "y")),
               parseFloat(GetSpec(parts, "width")), parseFloat(GetSpec(parts, "height"))),
          Vec2(parseFloat(GetSpec(parts, "xoffset")), parseFloat(GetSpec(parts, "yoffset"))),
          parseFloat(GetSpec(parts, "xadvance")))
  }

  /** The line height a `common` line sets. */
  function CommonLineHeight(line: string, parseFloat: string -> real): real
  {
    parseFloat(GetSpec(Split(line, ' '), "lineHeight"))
  }

  /** One iteration of the constructor's loop. */
  function LoadLine(t: FontTable, line: string, parseInt: string -> int, parseFloat: string -> real): FontTable
  {
    if IsCharLine(line) then
      t.(glyphs := t.glyphs[CharLineKey(line, parseInt) := CharLineGlyph(line, parseFloat)])
    else if IsCommonLine(line) then
      t.(lineHeight := CommonLineHeight(line, parseFloat))
    else t
  }

  /** The constructor's loop over `lines`, from table `t`. */
  function LoadFrom(t: FontTable, lines: seq<string>, parseInt: string -> int, parseFloat: string -> real): FontTable
  {
    if lines == [] then t
    else LoadLine(LoadFrom(t, lines[..|lines| - 1], parseInt, parseFloat), lines[|lines| - 1], parseInt, parseFloat)
  }

  /** Loading two runs of lines is loading the first, then the second from there. */
  lemma {:induction false} LoadAppend(t: FontTable, a: seq<string>, b: seq<string>,
                                      parseInt: string -> int, parseFloat: string -> real)
    ensures LoadFrom(t, a + b, parseInt, parseFloat) == LoadFrom(LoadFrom(t, a, parseInt, parseFloat), b, parseInt, parseFloat)
  {
    if b == [] {
      assert a + b == a;
    } else {
      LoadAppend(t, a, b[..|b| - 1], parseInt, parseFloat);
      assert (a + b)[..|a + b| - 1] == a + b[..|b| - 1];
    }
  }

  /** Lines that are neither `char` nor `common` lines leave the table as it was. */
  lemma {:induction false} OtherLinesIgnored(t: FontTable, lines: seq<string>,
                                             parseInt: string -> int, parseFloat: string -> real)
    requires forall i :: 0 <= i < |lines| ==> !IsCharLine(lines[i]) && !IsCommonLine(lines[i])
    ensures LoadFrom(t, lines, parseInt, parseFloat) == t
  {
    if lines != [] {
      OtherLinesIgnored(t, lines[..|lines| - 1], parseInt, parseFloat);
    }
  }

  /**
    A `char` line fixes the glyph of its key until a later `char` line
    with the same key: the last definition of a key wins.
  */
  lemma {:induction false} LastCharLineWins(t: FontTable, line: string, rest: seq<string>,
                                            parseInt: string -> int, parseFloat: string -> real)
    requires IsCharLine(line)
    requires forall i :: 0 <= i < |rest| && IsCharLine(rest[i]) ==>
                           CharLineKey(rest[i], parseInt) != CharLineKey(line, parseInt)
    ensures var k := CharLineKey(line, parseInt);
            var r := LoadFrom(LoadLine(t, line, parseInt, parseFloat), rest, parseInt, parseFloat);
            k in r.glyphs && r.glyphs[k] == CharLineGlyph(line, parseFloat)
  {
    if rest != [] {
      LastCharLineWins(t, line, rest[..|rest| - 1], parseInt, parseFloat);
    }
  }

  /** `LineHeight` is set by the last `common` line, whatever comes after it. */
  lemma {:induction false} LastCommonLineWins(t: FontTable, line: string, rest: seq<string>,
                                              parseInt: string -> int, parseFloat: string -> real)
    requires IsCommonLine(line)
    requires forall i :: 0 <= i < |rest| ==> !IsCommonLine(rest[i])
    ensures LoadFrom(LoadLine(t, line, parseInt, parseFloat), rest, parseInt, parseFloat).lineHeight
         == CommonLineHeight(line, parseFloat)
  {
    if rest != [] {
      var init := rest[..|rest| - 1];
      forall i | 0 <= i < |init| ensures !IsCommonLine(init[i]) {
        assert init[i] == rest[i];
      }
      LastCommonLineWins(t, line, init, parseInt, parseFloat);
      assert !IsCommonLine(rest[|rest| - 1]);
    } else {
      LineKindsDisjoint(line);
    }
  }

  /** A `char` line never starts with "common ", so the two kinds of line do not overlap. */
  lemma LineKindsDisjoint(line: string)
    ensures !(IsCharLine(line) && IsCommonLine(line))
  {
    if IsCharLine(line) {
      assert line[..8][1] == 'h';
      FirstMismatch(line, "common ", 1);
    }
  }

  // ---------------------------------------------------------------------
  // Measuring

  /** The height a glyph occupies: its region's height plus its vertical offset. */
  function GlyphHeight(g: Glyph): real
  {
    g.source.height + g.offset.y
  }

  /** The width accumulator of `MeasureString`. */
  function Width(glyphs: map<int, Glyph>, text: string): real
  {
    if text == [] then 0.0
    else
      var c := text[|text| - 1];
      Width(glyphs, text[..|text| - 1]) + (if KeyOf(c) in glyphs then glyphs[KeyOf(c)].xAdvance else 0.0)
  }

  /** The height accumulator of `MeasureString`, starting from the line height. */
  function Height(glyphs: map<int, Glyph>, lineHeight: real, text: string): real
  {
    if text == [] then lineHeight
    else
      var h := Height(glyphs, lineHeight, text[..|text| - 1]);
      var c := text[|text| - 1];
      if KeyOf(c) in glyphs && GlyphHeight(glyphs[KeyOf(c)]) > h then GlyphHeight(glyphs[KeyOf(c)]) else h
  }

  /** Measured width is additive over concatenation. */
  lemma {:induction false} WidthAppend(glyphs: map<int, Glyph>, s: string, t: string)
    ensures Width(glyphs, s + t) == Width(glyphs, s) + Width(glyphs, t)
  {
    if t == [] {
      assert s + t == s;
    } else {
      WidthAppend(glyphs, s, t[..|t| - 1]);
      assert (s + t)[..|s + t| - 1] == s + t[..|t| - 1];
    }
  }

  /** Characters without a glyph add nothing to the width or to the height. */
  lemma {:induction false} UnknownCharsAddNothing(glyphs: map<int, Glyph>, text: string)
    requires forall i :: 0 <= i < |text| ==> KeyOf(text[i]) !in glyphs
    ensures Width(glyphs, text) == 0.0
    ensures forall lineHeight: real :: Height(glyphs, lineHeight, text) == lineHeight
  {
    if text != [] {
      UnknownCharsAddNothing(glyphs, text[..|text| - 1]);
    }
  }

  /**
    The height is the largest of the line height and the heights of the
    known characters: at least each of them, and equal to one of them.
  */
  lemma {:induction false} HeightIsMax(glyphs: map<int, Glyph>, lineHeight: real, text: string)
    ensures Height(glyphs, lineHeight, text) >= lineHeight
    ensures forall i :: 0 <= i < |text| && KeyOf(text[i]) in glyphs ==>
              Height(glyphs, lineHeight, text) >= GlyphHeight(glyphs[KeyOf(text[i])])
    ensures Height(glyphs, lineHeight, text) == lineHeight ||
            exists i :: 0 <= i < |text| && KeyOf(text[i]) in glyphs &&
                        Height(glyphs, lineHeight, text) == GlyphHeight(glyphs[KeyOf(text[i])])
  {
    if text != [] {
      var p := text[..|text| - 1];
      HeightIsMax(glyphs, lineHeight, p);
      forall i | 0 <= i < |p| ensures text[i] == p[i] { }
      if Height(glyphs, lineHeight, p) != lineHeight && Height(glyphs, lineHeight, text) == Height(glyphs, lineHeight, p) {
        var i :| 0 <= i < |p| && KeyOf(p[i]) in glyphs && Height(glyphs, lineHeight, p) == GlyphHeight(glyphs[KeyOf(p[i])]);
        assert text[i] == p[i];
      }
    }
  }

  /** The empty string measures (0, LineHeight). */
  lemma EmptyMeasure(glyphs: map<int, Glyph>, lineHeight: real)
    ensures Width(glyphs, "") == 0.0 && Height(glyphs, lineHeight, "") == lineHeight
  {
  }

  class BitmapFont {
    const texture: Texture
    var glyphs: map<int, Glyph>
    var lineHeight: real

    function Table(): FontTable
      reads this
    {
      FontTable(glyphs, lineHeight)
    }

    /**
      Reads the lines of a font file; `parseInt` and `parseFloat` stand for
      `int.Parse` and `float.Parse`.
    */
    constructor (texture: Texture, lines: seq<string>, parseInt: string -> int, parseFloat: string -> real)
      ensures this.texture == texture
      ensures Table() == LoadFrom(EmptyTable, lines, parseInt, parseFloat)
    {
      this.texture := texture;
      glyphs := map[];
      lineHeight := 0.0;
      new;
      for i := 0 to |lines|
        invariant Table() == LoadFrom(EmptyTable, lines[..i], parseInt, parseFloat)
      {
        var line := lines[i];
        assert lines[..i + 1][..i] == lines[..i];
        if StartsWith(line, "char id=") {
          var parts := Split(line, ' ');
          var id := Get(parts, "id");
          var x := Get(parts, "x");
          var y := Get(parts, "y");
          var w := Get(parts, "width");
          var h := Get(parts, "height");
          var ox := Get(parts, "xoffset");
          var oy := Get(parts, "yoffset");
          var xa := Get(parts, "xadvance");
          glyphs := glyphs[CharKey(parseInt(id)) := Glyph(Rect(parseFloat(x), parseFloat(y), parseFloat(w), parseFloat(h)),
                                                          Vec2(parseFloat(ox), parseFloat(oy)), parseFloat(xa))];
        } else if StartsWith(line, "common ") {
          var v := Get(Split(line, ' '), "lineHeight");
          lineHeight := parseFloat(v);
        }
      }
      assert lines[..|lines|] == lines;
    }

    /** `(width, height)` of `text`: the two folds over its characters. */
    method MeasureString(text: string) returns (r: Vec2)
      ensures r == Vec2(Width(glyphs, text), Height(glyphs, lineHeight, text))
    {
      var width := 0.0;
      var maxHeight := lineHeight;
      for i := 0 to |text|
        invariant width == Width(glyphs, text[..i])
        invariant maxHeight == Height(glyphs, lineHeight, text[..i])
      {
        var c := text[i];
        assert text[..i + 1][..i] == text[..i];
        if KeyOf(c) in glyphs {
          var glyph := glyphs[KeyOf(c)];
          width := width + glyph.xAdvance;
          var glyphHeight := glyph.source.height + glyph.offset.y;
          if glyphHeight > maxHeight {
            maxHeight := glyphHeight;
          }
        }
      }
      assert text[..|text|] == text;
      r := Vec2(width, maxHeight);
    }
  }
}
