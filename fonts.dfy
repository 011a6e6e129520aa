/** Bitmap fonts in the AngelCode BMFont text format, and the text meshes built from them. The font
  * file's lines are given as a value (`None` when the file is missing); the page texture is recorded
  * by its path. */
module Fonts {
  import opened Java
  import opened JavaStrings

  /** One glyph of the atlas: where it is, its size, and how it sits on and advances the cursor. */
  datatype FontChar = FontChar(tX: int, tY: int, tWidth: int, tHeight: int, xOffset: int, yOffset: int, xAdvance: int)

  // ---------------------------------------------------------------- the font file's path

  /** Every segment but the last, each followed by `/`. */
  function FolderOf(paths: seq<string>): (folder: string)
  {
    if |paths| <= 1 then [] else paths[0] + "/" + FolderOf(paths[1..])
  }

  /** The folder and the file name of a path; a path of slashes only leaves no segment to name the
    * file, and reading the last one is out of bounds. */
  function SplitPath(path: string): (r: Result<(string, string)>)
    ensures r.Throws? <==> Split(Lit('/'), path) == []
    ensures r.Throws? ==> r.ex == IndexOutOfBounds
  {
    var paths := Split(Lit('/'), path);
    if |paths| == 0 then Throws(IndexOutOfBounds) else Ok((FolderOf(paths), paths[|paths| - 1]))
  }

  lemma {:induction false} FolderJoin(paths: seq<string>)
    requires |paths| >= 1
    ensures FolderOf(paths) + paths[|paths| - 1] == Join(paths, "/")
  {
    if |paths| > 1 {
      FolderJoin(paths[1..]);
    }
  }

  /** For a path that does not end with `/`, the folder followed by the file name is the path. */
  lemma SplitPathRestores(path: string)
    requires path != [] && path[|path| - 1] != '/'
    ensures SplitPath(path).Ok? && SplitPath(path).value.0 + SplitPath(path).value.1 == path
  {
    SplitLitJoin('/', path);
    FolderJoin(Split(Lit('/'), path));
  }

  /** The constructor's folder loop. */
  method BuildFolder(paths: seq<string>) returns (folder: string)
    ensures folder == FolderOf(paths)
  {
    folder := [];
    var i := 1;
    while i < |paths|
      invariant 1 <= i <= |paths| || (|paths| == 0 && i == 1)
      invariant folder + FolderOf(paths[i - 1..]) == FolderOf(paths)
    {
      assert paths[i - 1..][1..] == paths[i..];
      folder := folder + paths[i - 1] + "/";
      i := i + 1;
    }
  }

  // ---------------------------------------------------------------- properties and lines

  /** The text between the first and second `=`, quotes removed. */
  function StringProperty(property: string): (r: Result<string>)
    ensures r.Throws? <==> |Split(Lit('='), property)| < 2
    ensures r.Throws? ==> r.ex == IndexOutOfBounds
    ensures r.Ok? ==> '"' !in r.value
  {
    var ps := Split(Lit('='), property);
    if |ps| < 2 then Throws(IndexOutOfBounds) else Ok(RemoveChar(ps[1], '"'))
  }

  /** The text between the first and second `=`, as an `int`. */
  function IntProperty(property: string): (r: Result<int>)
    ensures r.Throws? ==> r.ex in {IndexOutOfBounds, NumberFormat}
    ensures r.Ok? ==> IsInt32(r.value)
  {
    var ps := Split(Lit('='), property);
    if |ps| < 2 then Throws(IndexOutOfBounds) else ParseInt(ps[1])
  }

  /** A property written as `key=value`. */
  function Property(key: string, value: string): string
  {
    key + "=" + value
  }

  lemma PropertySplits(key: string, value: string)
    requires Clean(Lit('='), key) && Clean(Lit('='), value)
    ensures Split(Lit('='), Property(key, value)) == [key, value]
  {
    assert Join([key, value], "=") == Property(key, value) by {
      assert [key, value][1..] == [value];
    }
    SplitJoin(Lit('='), [key, value]);
  }

  lemma IntToStringAvoids(n: int, c: char)
    requires c != '-' && !IsDigit(c)
    ensures c !in IntToString(n)
  {
    var s := IntToString(n);
    assert forall i :: 0 <= i < |s| ==> s[i] != c;
  }

  /** A property written with a printed `int` reads back as that `int`. */
  lemma IntPropertyRoundTrip(key: string, n: int)
    requires Clean(Lit('='), key) && IsInt32(n)
    ensures IntProperty(Property(key, IntToString(n))) == Ok(n)
  {
    IntToStringAvoids(n, '=');
    PropertySplits(key, IntToString(n));
    ParseIntToString(n);
  }

  /** A quoted property reads back as the text between the quotes. */
  lemma StringPropertyRoundTrip(key: string, value: string)
    requires Clean(Lit('='), key) && '=' !in value && '"' !in value
    ensures StringProperty(Property(key, "\"" + value + "\"")) == Ok(value)
  {
    var q := "\"" + value + "\"";
    assert Clean(Lit('='), q) by {
      assert forall i :: 0 <= i < |q| ==> q[i] == '"' || q[i] in value;
    }
    PropertySplits(key, q);
    assert RemoveChar("\"", '"') == [];
    assert forall i :: 0 <= i < |value| ==> value[i] != '"';
    assert RemoveChar(value, '"') == value;
    RemoveCharAppend("\"", value, '"');
    RemoveCharAppend("\"" + value, "\"", '"');
    assert RemoveChar(q, '"') == value;
  }

  /** What a font file defines: its glyphs by character code, and the path of its page texture
    * (`None` while no `page` line was read). */
  datatype FontData = FontData(characters: map<int, FontChar>, page: Option<string>)

  /** The values of a sequence of reads done in order: the first one that throws decides. */
  function Collect(results: seq<Result<int>>): (r: Result<seq<int>>)
    ensures r.Ok? ==> |r.value| == |results|
    ensures r.Throws? ==> Throws(r.ex) in results
  {
    if results == [] then Ok([])
    else if results[0].Throws? then Throws(results[0].ex)
    else
      var rest := Collect(results[1..]);
      if rest.Throws? then rest else Ok([results[0].value] + rest.value)
  }

  /** Reads that each give the expected value give all of them. */
  lemma {:induction false} CollectOk(results: seq<Result<int>>, values: seq<int>)
    requires |results| == |values| && forall k :: 0 <= k < |results| ==> results[k] == Ok(values[k])
    ensures Collect(results) == Ok(values)
  {
    if results != [] {
      CollectOk(results[1..], values[1..]);
      assert [values[0]] + values[1..] == values;
    }
  }

  /** `getIntProperty(line[k])`: out of bounds past the last token. */
  function FieldAt(tokens: seq<string>, k: nat): (r: Result<int>)
    ensures r.Throws? ==> r.ex in {IndexOutOfBounds, NumberFormat}
  {
    if k < |tokens| then IntProperty(tokens[k]) else Throws(IndexOutOfBounds)
  }

  /** The `int` properties `tokens[from..from + count]`, read in order. */
  function IntFields(tokens: seq<string>, from: nat, count: nat): (r: Result<seq<int>>)
    ensures r.Ok? ==> |r.value| == count
  {
    Collect(seq(count, k requires 0 <= k < count => FieldAt(tokens, from + k)))
  }

  /** One line of the file, split on runs of spaces and dispatched on its first token. */
  function ParseLine(folder: string, data: FontData, line: string): (r: Result<FontData>)
    ensures var tokens := Split(Run(' '), line);
      tokens != [] && tokens[0] != "page" && tokens[0] != "char" ==> r == Ok(data)
    ensures r.Ok? ==> r.value.page == data.page || r.value.characters == data.characters
    ensures r.Ok? ==> data.characters.Keys <= r.value.characters.Keys
    ensures r.Ok? && data.page.Some? ==> r.value.page.Some?
  {
    var tokens := Split(Run(' '), line);
    if |tokens| == 0 then Throws(IndexOutOfBounds)
    else if tokens[0] == "page" then
      if |tokens| < 3 then Throws(IndexOutOfBounds)
      else
        var file := StringProperty(tokens[2]);
        if file.Throws? then Throws(file.ex) else Ok(data.(page := Some(folder + file.value)))
    else if tokens[0] == "char" then
      var f := IntFields(tokens, 1, 8);
      if f.Throws? then Throws(f.ex)
      else
        var v := f.value;
        Ok(data.(characters := data.characters[v[0] := FontChar(v[1], v[2], v[3], v[4], v[5], v[6], v[7])]))
    else Ok(data)
  }

  /** The lines in order; the first one that throws ends the load. */
  function ParseLines(folder: string, data: FontData, lines: seq<string>): (r: Result<FontData>)
    ensures r.Ok? ==> data.characters.Keys <= r.value.characters.Keys
    ensures r.Ok? && data.page.Some? ==> r.value.page.Some?
    ensures lines == [] ==> r == Ok(data)
    decreases |lines|
  {
    if lines == [] then Ok(data)
    else
      var d := ParseLine(folder, data, lines[0]);
      if d.Throws? then d else ParseLines(folder, d.value, lines[1..])
  }

  /** `loadFont`: the glyph table starts empty; a missing file is reported and leaves it so. */
  function LoadFont(folder: string, page: Option<string>, file: Option<seq<string>>): (r: Result<FontData>)
    ensures file.None? ==> r == Ok(FontData(map[], page))
    ensures r.Ok? && page.Some? ==> r.value.page.Some?
  {
    if file.None? then Ok(FontData(map[], page)) else ParseLines(folder, FontData(map[], page), file.value)
  }

  lemma {:induction false} ParseLinesAppend(folder: string, data: FontData, a: seq<string>, b: seq<string>)
    ensures ParseLines(folder, data, a + b) ==
      (var d := ParseLines(folder, data, a); if d.Throws? then d else ParseLines(folder, d.value, b))
    decreases |a|
  {
    if a == [] {
      assert a + b == b;
    } else {
      assert (a + b)[0] == a[0] && (a + b)[1..] == a[1..] + b;
      var d := ParseLine(folder, data, a[0]);
      if d.Ok? {
        ParseLinesAppend(folder, d.value, a[1..], b);
      }
    }
  }

  /** The line the BMFont tools write for a glyph (the channel and page fields after it are ignored). */
  function CharLine(id: int, c: FontChar): string
  {
    Join(CharTokens(id, c), " ")
  }

  /** The keys of a glyph line's fields, in the order they are read. */
  const CHAR_KEYS: seq<string> := ["id", "x", "y", "width", "height", "xoffset", "yoffset", "xadvance"]

  function CharValues(id: int, c: FontChar): (vs: seq<int>)
    ensures |vs| == 8
  {
    [id, c.tX, c.tY, c.tWidth, c.tHeight, c.xOffset, c.yOffset, c.xAdvance]
  }

  function CharTokens(id: int, c: FontChar): (ts: seq<string>)
    ensures |ts| == 9
  {
    var vs := CharValues(id, c);
    ["char"] + seq(8, k requires 0 <= k < 8 => Property(CHAR_KEYS[k], IntToString(vs[k])))
  }

  predicate Int32Char(c: FontChar)
  {
    IsInt32(c.tX) && IsInt32(c.tY) && IsInt32(c.tWidth) && IsInt32(c.tHeight) &&
    IsInt32(c.xOffset) && IsInt32(c.yOffset) && IsInt32(c.xAdvance)
  }

  lemma IntTokenClean(key: string, n: int)
    requires Clean(Run(' '), key) && Clean(Lit('='), key)
    ensures Clean(Run(' '), Property(key, IntToString(n)))
  {
    IntToStringAvoids(n, ' ');
    var s := Property(key, IntToString(n));
    assert forall i :: 0 <= i < |s| ==> s[i] in key || s[i] == '=' || s[i] in IntToString(n);
  }

  lemma CharKeysClean()
    ensures forall k :: 0 <= k < |CHAR_KEYS| ==> Clean(Run(' '), CHAR_KEYS[k]) && Clean(Lit('='), CHAR_KEYS[k])
  {
  }

  lemma CharTokensSplit(id: int, c: FontChar)
    ensures Split(Run(' '), CharLine(id, c)) == CharTokens(id, c)
  {
    var ts, vs := CharTokens(id, c), CharValues(id, c);
    CharKeysClean();
    forall k | 0 <= k < |ts| ensures Clean(Run(' '), ts[k]) {
      if k > 0 {
        IntTokenClean(CHAR_KEYS[k - 1], vs[k - 1]);
      }
    }
    SplitJoin(Run(' '), ts);
  }

  lemma CharFields(id: int, c: FontChar)
    requires IsInt32(id) && Int32Char(c)
    ensures IntFields(CharTokens(id, c), 1, 8) == Ok(CharValues(id, c))
  {
    var ts, vs := CharTokens(id, c), CharValues(id, c);
    CharKeysClean();
    var results := seq(8, k requires 0 <= k < 8 => FieldAt(ts, 1 + k));
    forall k | 0 <= k < |vs| ensures results[k] == Ok(vs[k]) {
      assert IsInt32(vs[k]);
      IntPropertyRoundTrip(CHAR_KEYS[k], vs[k]);
    }
    CollectOk(results, vs);
  }

  /** A glyph's line puts exactly that glyph under its id; a later line for the same id therefore
    * replaces an earlier one. */
  lemma CharLineRoundTrip(folder: string, data: FontData, id: int, c: FontChar)
    requires IsInt32(id) && Int32Char(c)
    ensures ParseLine(folder, data, CharLine(id, c)) == Ok(data.(characters := data.characters[id := c]))
  {
    CharTokensSplit(id, c);
    CharFields(id, c);
  }

  /** The line naming the page texture. */
  function PageLine(file: string): string
  {
    Join(["page", Property("id", "0"), Property("file", "\"" + file + "\"")], " ")
  }

  /** A page line sets the texture to the file next to the font. */
  lemma PageLineRoundTrip(folder: string, data: FontData, file: string)
    requires '=' !in file && '"' !in file && ' ' !in file
    ensures ParseLine(folder, data, PageLine(file)) == Ok(data.(page := Some(folder + file)))
  {
    var q := "\"" + file + "\"";
    var fileToken := Property("file", q);
    assert forall i :: 0 <= i < |fileToken| ==> fileToken[i] != ' ' by {
      assert forall i :: 0 <= i < |fileToken| ==> fileToken[i] in "file=" || fileToken[i] == '"' || fileToken[i] in file;
    }
    assert Clean(Run(' '), Property("id", "0"));
    SplitJoin(Run(' '), ["page", Property("id", "0"), fileToken]);
    StringPropertyRoundTrip("file", file);
  }

  /** The last line for a character code decides its glyph. */
  lemma LaterCharWins(folder: string, data: FontData, lines: seq<string>, id: int, c: FontChar)
    requires IsInt32(id) && Int32Char(c)
    requires ParseLines(folder, data, lines).Ok?
    ensures var r := ParseLines(folder, data, lines + [CharLine(id, c)]);
      r.Ok? && r.value.characters == ParseLines(folder, data, lines).value.characters[id := c]
  {
    ParseLinesAppend(folder, data, lines, [CharLine(id, c)]);
    CharLineRoundTrip(folder, ParseLines(folder, data, lines).value, id, c);
  }

  /** `getChar`: the glyph for a character's code, `None` for `null`. */
  function GlyphOf(characters: map<int, FontChar>, ch: char): (r: Option<FontChar>)
    ensures r.Some? <==> ch as int in characters
    ensures r.Some? ==> r.value == characters[ch as int]
  {
    if ch as int in characters then Some(characters[ch as int]) else None
  }

  /** The parsing loop of `loadFont`. */
  method ReadLines(folder: string, page: Option<string>, lines: seq<string>) returns (r: Result<FontData>)
    ensures r == ParseLines(folder, FontData(map[], page), lines)
  {
    var data := FontData(map[], page);
    var i := 0;
    while i < |lines|
      invariant 0 <= i <= |lines|
      invariant ParseLines(folder, FontData(map[], page), lines) == ParseLines(folder, data, lines[i..])
    {
      assert lines[i..][0] == lines[i] && lines[i..][1..] == lines[i + 1..];
      var d := ParseLine(folder, data, lines[i]);
      if d.Throws? {
        return d;
      }
      data := d.value;
      i := i + 1;
    }
    r := Ok(data);
  }

  /** A font type: its glyphs and the path of its page texture. */
  class FontType {
    var characters: map<int, FontChar>
    var texture: Option<string>

    constructor (data: FontData)
      ensures characters == data.characters && texture == data.page
    {
      characters := data.characters;
      texture := data.page;
    }

    method GetChar(ch: char) returns (r: Option<FontChar>)
      ensures r == GlyphOf(characters, ch)
    {
      if ch as int in characters {
        r := Some(characters[ch as int]);
      } else {
        r := None;
      }
    }
  }

  /** `new FontType(path)`: the folder and file of `path`, then the font read from `file`. A
    * missing file leaves the font empty; any other failure escapes the constructor. */
  method CreateFontType(path: string, file: Option<seq<string>>) returns (r: Result<FontType>)
    ensures SplitPath(path).Throws? ==> r == Throws(IndexOutOfBounds)
    ensures SplitPath(path).Ok? ==>
      (var loaded := LoadFont(SplitPath(path).value.0, None, file);
       (loaded.Throws? ==> r == Throws(loaded.ex)) &&
       (loaded.Ok? ==> r.Ok? && fresh(r.value) && r.value.characters == loaded.value.characters && r.value.texture == loaded.value.page))
  {
    var data := LoadPath(path, file);
    if data.Throws? {
      return Throws(data.ex);
    }
    var font := new FontType(data.value);
    r := Ok(font);
  }

  /** The font read for `path`: the constructor's folder loop, then `loadFont`. */
  method LoadPath(path: string, file: Option<seq<string>>) returns (r: Result<FontData>)
    ensures SplitPath(path).Throws? ==> r == Throws(IndexOutOfBounds)
    ensures SplitPath(path).Ok? ==> r == LoadFont(SplitPath(path).value.0, None, file)
  {
    var paths := Split(Lit('/'), path);
    var folder := BuildFolder(paths);
    if |paths| == 0 {
      return Throws(IndexOutOfBounds);
    }
    if file.None? {
      return Ok(FontData(map[], None));
    }
    r := ReadLines(folder, None, file.value);
  }

  /** The older copy of the font type, with the same parser. */
  class Font {
    var characters: map<int, FontChar>
    var texture: Option<string>

    constructor (data: FontData)
      ensures characters == data.characters && texture == data.page
    {
      characters := data.characters;
      texture := data.page;
    }

    method GetChar(ch: char) returns (r: Option<FontChar>)
      ensures r == GlyphOf(characters, ch)
    {
      if ch as int in characters {
        r := Some(characters[ch as int]);
      } else {
        r := None;
      }
    }
  }

  /** `new Font(path)`. */
  method CreateFont(path: string, file: Option<seq<string>>) returns (r: Result<Font>)
    ensures SplitPath(path).Throws? ==> r == Throws(IndexOutOfBounds)
    ensures SplitPath(path).Ok? ==>
      (var loaded := LoadFont(SplitPath(path).value.0, None, file);
       (loaded.Throws? ==> r == Throws(loaded.ex)) &&
       (loaded.Ok? ==> r.Ok? && fresh(r.value) && r.value.characters == loaded.value.characters && r.value.texture == loaded.value.page))
  {
    var data := LoadPath(path, file);
    if data.Throws? {
      return Throws(data.ex);
    }
    var font := new Font(data.value);
    r := Ok(font);
  }

  // ---------------------------------------------------------------- text meshes

  /** A mesh vertex: its position and its texture coordinate in atlas pixels. */
  datatype Vertex = Vertex(x: int, y: int, u: int, v: int)

  datatype Mesh = Mesh(vertices: seq<Vertex>, indices: seq<int>)

  /** The glyph drawn for a character: its own, else the font's `?`, else none (`null`). */
  function Resolve(characters: map<int, FontChar>, ch: char): (r: Option<FontChar>)
    ensures r.Some? <==> ch as int in characters || '?' as int in characters
    ensures ch as int in characters ==> r == Some(characters[ch as int])
    ensures ch as int !in characters && r.Some? ==> r == Some(characters['?' as int])
  {
    var c := GlyphOf(characters, ch);
    if c.Some? then c else GlyphOf(characters, '?')
  }

  /** Every one of the first `n` characters has a glyph to draw. */
  predicate DrawableUpTo(characters: map<int, FontChar>, text: string, n: nat)
  {
    n <= |text| && forall i :: 0 <= i < n ==> Resolve(characters, text[i]).Some?
  }

  predicate Drawable(characters: map<int, FontChar>, text: string)
  {
    DrawableUpTo(characters, text, |text|)
  }

  /** The cursor before glyph `i`: the advances of the glyphs before it. */
  function Cursor(characters: map<int, FontChar>, text: string, i: nat): int
    requires DrawableUpTo(characters, text, i)
  {
    if i == 0 then 0 else Cursor(characters, text, i - 1) + Resolve(characters, text[i - 1]).value.xAdvance
  }

  /** The four corners of a glyph's quad, clockwise from the top left. */
  function Quad(c: FontChar, cursor: int): (q: seq<Vertex>)
    ensures |q| == 4
    ensures q[0].x == q[3].x == cursor + c.xOffset && q[1].x == q[2].x == q[0].x + c.tWidth
    ensures q[0].y == q[1].y == -c.yOffset && q[2].y == q[3].y == q[0].y - c.tHeight
    ensures q[0].u == q[3].u == c.tX && q[1].u == q[2].u == c.tX + c.tWidth
    ensures q[0].v == q[1].v == c.tY && q[2].v == q[3].v == c.tY + c.tHeight
  {
    var x, y := cursor + c.xOffset, -c.yOffset;
    [Vertex(x, y, c.tX, c.tY), Vertex(x + c.tWidth, y, c.tX + c.tWidth, c.tY),
     Vertex(x + c.tWidth, y - c.tHeight, c.tX + c.tWidth, c.tY + c.tHeight), Vertex(x, y - c.tHeight, c.tX, c.tY + c.tHeight)]
  }

  /** The corners of a quad the two triangles use, in order. */
  const QUAD_TRIANGLES: seq<int> := [3, 0, 1, 3, 1, 2]

  /** The two triangles of glyph `i`'s quad. */
  function GlyphIndices(i: int): (g: seq<int>)
    ensures |g| == 6
  {
    seq(6, k requires 0 <= k < 6 => 4 * i + QUAD_TRIANGLES[k])
  }

  function Vertices(characters: map<int, FontChar>, text: string, n: nat): (vs: seq<Vertex>)
    requires DrawableUpTo(characters, text, n)
    ensures |vs| == 4 * n
  {
    if n == 0 then [] else Vertices(characters, text, n - 1) + Quad(Resolve(characters, text[n - 1]).value, Cursor(characters, text, n - 1))
  }

  function Indices(n: nat): (ix: seq<int>)
    ensures |ix| == 6 * n
  {
    if n == 0 then [] else Indices(n - 1) + GlyphIndices(n - 1)
  }

  /** Glyph `i` of the mesh is its quad at its cursor. */
  lemma {:induction false} VerticesOfGlyph(characters: map<int, FontChar>, text: string, n: nat, i: nat)
    requires i < n && DrawableUpTo(characters, text, n)
    ensures Vertices(characters, text, n)[4 * i..4 * i + 4] == Quad(Resolve(characters, text[i]).value, Cursor(characters, text, i))
  {
    if i < n - 1 {
      VerticesOfGlyph(characters, text, n - 1, i);
      var prev := Vertices(characters, text, n - 1);
      assert Vertices(characters, text, n)[4 * i..4 * i + 4] == prev[4 * i..4 * i + 4];
    } else {
      assert Vertices(characters, text, n)[4 * i..4 * i + 4] == Vertices(characters, text, n)[4 * (n - 1)..];
    }
  }

  lemma SliceOfAppend<T>(a: seq<T>, b: seq<T>, lo: nat, hi: nat)
    requires lo <= hi <= |a|
    ensures (a + b)[lo..hi] == a[lo..hi]
  {
  }

  lemma SixSteps(i: nat, n: nat)
    requires i < n
    ensures 6 * i + 6 <= 6 * n
  {
  }

  /** Glyph `i`'s six indices are its two triangles. */
  lemma {:induction false} IndicesOfGlyph(n: nat, i: nat)
    requires i < n
    ensures Indices(n)[6 * i..6 * i + 6] == GlyphIndices(i)
  {
    var prev, last := Indices(n - 1), GlyphIndices(n - 1);
    assert Indices(n) == prev + last;
    if i < n - 1 {
      calc {
        Indices(n)[6 * i..6 * i + 6];
        { SixSteps(i, n - 1); SliceOfAppend(prev, last, 6 * i, 6 * i + 6); }
        prev[6 * i..6 * i + 6];
        { IndicesOfGlyph(n - 1, i); }
        GlyphIndices(i);
      }
    } else {
      assert |prev| == 6 * i;
    }
  }

  /** Every index names a vertex of the mesh. */
  lemma {:induction false} IndicesInRange(n: nat)
    ensures forall k :: 0 <= k < |Indices(n)| ==> 0 <= Indices(n)[k] < 4 * n
  {
    if n > 0 {
      IndicesInRange(n - 1);
      var prev := Indices(n - 1);
      forall k | 0 <= k < |Indices(n)| ensures 0 <= Indices(n)[k] < 4 * n {
        if k < |prev| {
          assert Indices(n)[k] == prev[k];
        } else {
          assert Indices(n)[k] == GlyphIndices(n - 1)[k - |prev|];
        }
      }
    }
  }

  /** The two triangles of a glyph use all four corners of its quad and nothing else. */
  lemma GlyphCoversQuad(i: int)
    ensures forall k :: 0 <= k < 6 ==> 4 * i <= GlyphIndices(i)[k] < 4 * i + 4
    ensures forall v :: 4 * i <= v < 4 * i + 4 ==> v in GlyphIndices(i)
  {
    var g := GlyphIndices(i);
    assert g[1] == 4 * i && g[2] == 4 * i + 1 && g[5] == 4 * i + 2 && g[0] == 4 * i + 3;
  }

  /** Writes glyph `i`'s corners. */
  method PutQuad(vertices: array<Vertex>, i: nat, q: seq<Vertex>)
    requires |q| == 4 && 4 * i + 4 <= vertices.Length
    modifies vertices
    ensures vertices[..4 * i + 4] == old(vertices[..4 * i]) + q
    ensures vertices[4 * i + 4..] == old(vertices[4 * i + 4..])
  {
    vertices[4 * i] := q[0];
    vertices[4 * i + 1] := q[1];
    vertices[4 * i + 2] := q[2];
    vertices[4 * i + 3] := q[3];
  }

  /** Writes glyph `i`'s two triangles. */
  method PutIndices(indices: array<int>, i: nat)
    requires 6 * i + 6 <= indices.Length
    modifies indices
    ensures indices[..6 * i + 6] == old(indices[..6 * i]) + GlyphIndices(i)
    ensures indices[6 * i + 6..] == old(indices[6 * i + 6..])
  {
    indices[6 * i] := 4 * i + 3;
    indices[6 * i + 1] := 4 * i;
    indices[6 * i + 2] := 4 * i + 1;
    indices[6 * i + 3] := 4 * i + 3;
    indices[6 * i + 4] := 4 * i + 1;
    indices[6 * i + 5] := 4 * i + 2;
    assert indices[6 * i..6 * i + 6] == GlyphIndices(i);
  }

  /** `createFont`: the arrays are filled glyph by glyph while the cursor advances; a character
    * with neither its own glyph nor a `?` throws. */
  method BuildMesh(characters: map<int, FontChar>, text: string) returns (r: Result<Mesh>)
    ensures r.Ok? <==> Drawable(characters, text)
    ensures r.Throws? ==> r.ex == NullPointer
    ensures r.Ok? ==> r.value == Mesh(Vertices(characters, text, |text|), Indices(|text|))
  {
    var n := |text|;
    var vertices := new Vertex[4 * n](_ => Vertex(0, 0, 0, 0));
    var indices := new int[6 * n];
    var cursor := 0;
    var i := 0;
    while i < n
      invariant 0 <= i <= n
      invariant DrawableUpTo(characters, text, i)
      invariant cursor == Cursor(characters, text, i)
      invariant vertices[..4 * i] == Vertices(characters, text, i)
      invariant indices[..6 * i] == Indices(i)
    {
      var c := GlyphOf(characters, text[i]);
      if c.None? {
        c := GlyphOf(characters, '?');
      }
      if c.None? {
        return Throws(NullPointer);
      }
      var g := c.value;
      MeshStep(characters, text, i, g);
      PutQuad(vertices, i, Quad(g, cursor));
      PutIndices(indices, i);
      cursor := cursor + g.xAdvance;
      i := i + 1;
    }
    assert vertices[..] == vertices[..4 * n] && indices[..] == indices[..6 * n];
    r := Ok(Mesh(vertices[..], indices[..]));
  }

  /** One more drawable glyph adds its quad at the cursor and its two triangles. */
  lemma MeshStep(characters: map<int, FontChar>, text: string, i: nat, g: FontChar)
    requires DrawableUpTo(characters, text, i) && i < |text|
    requires GlyphOf(characters, text[i]) == Some(g) || (GlyphOf(characters, text[i]).None? && GlyphOf(characters, '?') == Some(g))
    ensures DrawableUpTo(characters, text, i + 1)
    ensures Cursor(characters, text, i + 1) == Cursor(characters, text, i) + g.xAdvance
    ensures Vertices(characters, text, i + 1) == Vertices(characters, text, i) + Quad(g, Cursor(characters, text, i))
    ensures Indices(i + 1) == Indices(i) + GlyphIndices(i)
  {
    assert Resolve(characters, text[i]) == Some(g);
  }

  /** What the renderer draws: nothing for empty text, the glyph mesh otherwise. */
  method TextMesh(characters: map<int, FontChar>, text: string) returns (r: Result<Mesh>)
    ensures |text| < 1 ==> r == Ok(Mesh([], []))
    ensures |text| >= 1 ==> (r.Ok? <==> Drawable(characters, text))
    ensures r.Throws? ==> r.ex == NullPointer
    ensures r.Ok? ==> r.value == Mesh(Vertices(characters, text, |text|), Indices(|text|))
    ensures r.Ok? ==> |r.value.vertices| == 4 * |text| && |r.value.indices| == 6 * |text|
  {
    if |text| < 1 {
      return Ok(Mesh([], []));
    }
    r := BuildMesh(characters, text);
  }

  /** Every one of the first `n` characters has its own glyph (`getWidth` and `getHeight` have no
    * `?` fallback). */
  predicate KnownUpTo(characters: map<int, FontChar>, text: string, n: nat)
  {
    n <= |text| && forall i :: 0 <= i < n ==> text[i] as int in characters
  }

  /** The loop of `getWidth`: each glyph's advance scaled by the size. */
  function WidthOf(characters: map<int, FontChar>, text: string, size: real, n: nat): real
    requires KnownUpTo(characters, text, n)
  {
    if n == 0 then 0.0 else WidthOf(characters, text, size, n - 1) + characters[text[n - 1] as int].xAdvance as real * size
  }

  function GlyphHeight(c: FontChar, size: real): real
  {
    (c.tHeight + c.yOffset) as real * size
  }

  /** The loop of `getHeight`: the largest scaled glyph height, and at least 0. */
  function HeightOf(characters: map<int, FontChar>, text: string, size: real, n: nat): real
    requires KnownUpTo(characters, text, n)
  {
    if n == 0 then 0.0
    else
      var h := GlyphHeight(characters[text[n - 1] as int], size);
      var m := HeightOf(characters, text, size, n - 1);
      if h > m then h else m
  }

  /** The width is where the mesh's cursor ends, scaled by the size. */
  lemma {:induction false} WidthIsCursor(characters: map<int, FontChar>, text: string, size: real, n: nat)
    requires KnownUpTo(characters, text, n)
    ensures DrawableUpTo(characters, text, n)
    ensures WidthOf(characters, text, size, n) == Cursor(characters, text, n) as real * size
  {
    if n > 0 {
      WidthIsCursor(characters, text, size, n - 1);
    }
  }

  /** The height bounds every glyph's scaled height and is one of them unless it is 0. */
  lemma {:induction false} HeightIsMax(characters: map<int, FontChar>, text: string, size: real, n: nat)
    requires KnownUpTo(characters, text, n)
    ensures forall i :: 0 <= i < n ==> GlyphHeight(characters[text[i] as int], size) <= HeightOf(characters, text, size, n)
    ensures HeightOf(characters, text, size, n) >= 0.0
    ensures HeightOf(characters, text, size, n) == 0.0 ||
      exists i :: 0 <= i < n && HeightOf(characters, text, size, n) == GlyphHeight(characters[text[i] as int], size)
  {
    if n > 0 {
      HeightIsMax(characters, text, size, n - 1);
    }
  }

  class FontRenderer {
    var text: string
    var characters: map<int, FontChar>
    var size: real
    var mesh: Mesh
    /** The path of the font's page texture. */
    var page: string

    /** The renderer once its mesh is built; `FontRenderer.Create` builds it. */
    constructor (text: string, characters: map<int, FontChar>, size: real, mesh: Mesh, page: string)
      ensures this.text == text && this.characters == characters && this.size == size && this.mesh == mesh
      ensures this.page == page
    {
      this.text, this.characters, this.size, this.mesh, this.page := text, characters, size, mesh, page;
    }

    /** `new FontRenderer(x, y, text, font, size)`: the font's texture (`None` when its file names no
      * page) has its filters set before the mesh is built. */
    static method Create(text: string, characters: map<int, FontChar>, texture: Option<string>, size: real)
      returns (r: Result<FontRenderer>)
      ensures texture.None? ==> r == Throws(NullPointer)
      ensures texture.Some? && |text| >= 1 && !Drawable(characters, text) ==> r == Throws(NullPointer)
      ensures r.Ok? <==> texture.Some? && (|text| < 1 || Drawable(characters, text))
      ensures r.Ok? ==> (fresh(r.value) && r.value.text == text && r.value.size == size &&
        r.value.characters == characters && r.value.page == texture.value &&
        r.value.mesh == Mesh(Vertices(characters, text, |text|), Indices(|text|)))
    {
      if texture.None? {
        return Throws(NullPointer);
      }
      var m := TextMesh(characters, text);
      if m.Throws? {
        return Throws(m.ex);
      }
      var fr := new FontRenderer(text, characters, size, m.value, texture.value);
      r := Ok(fr);
    }

    /** Replaces the text; the text changes even when building its mesh throws. */
    method ReallocateText(text: string) returns (o: Outcome)
      modifies this`text, this`mesh
      ensures this.text == text
      ensures |text| >= 1 && !Drawable(characters, text) ==> o == Thrown(NullPointer) && mesh == old(mesh)
      ensures |text| < 1 || Drawable(characters, text) ==> o == Normal && mesh == Mesh(Vertices(characters, text, |text|), Indices(|text|))
    {
      this.text := text;
      var m := TextMesh(characters, text);
      if m.Throws? {
        return Thrown(m.ex);
      }
      mesh := m.value;
      o := Normal;
    }

    method GetWidth() returns (r: Result<real>)
      ensures KnownUpTo(characters, text, |text|) ==> r == Ok(WidthOf(characters, text, size, |text|))
      ensures !KnownUpTo(characters, text, |text|) ==> r == Throws(NullPointer)
    {
      var width := 0.0;
      var i := 0;
      while i < |text|
        invariant 0 <= i <= |text| && KnownUpTo(characters, text, i)
        invariant width == WidthOf(characters, text, size, i)
      {
        if text[i] as int !in characters {
          return Throws(NullPointer);
        }
        width := width + characters[text[i] as int].xAdvance as real * size;
        i := i + 1;
      }
      r := Ok(width);
    }

    method GetHeight() returns (r: Result<real>)
      ensures KnownUpTo(characters, text, |text|) ==> r == Ok(HeightOf(characters, text, size, |text|))
      ensures !KnownUpTo(characters, text, |text|) ==> r == Throws(NullPointer)
    {
      var height := 0.0;
      var i := 0;
      while i < |text|
        invariant 0 <= i <= |text| && KnownUpTo(characters, text, i)
        invariant height == HeightOf(characters, text, size, i)
      {
        if text[i] as int !in characters {
          return Throws(NullPointer);
        }
        var c := characters[text[i] as int];
        var h := (c.tHeight + c.yOffset) as real * size;
        if h > height {
          height := h;
        }
        i := i + 1;
      }
      r := Ok(height);
    }
  }
}
