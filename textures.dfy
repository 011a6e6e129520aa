/** Sprite sheets cut from one image, dynamic textures that show one sprite of a sheet, and
  * animations that step a dynamic texture through a list of sprite indices. GL texture objects are
  * modelled by the pixels they are generated from. */
module Textures {
  import opened Java

  /** A generated texture: its pixels row by row, and its size. */
  datatype Texture = Texture(pixels: seq<int>, width: int, height: int)

  /** `Texture.genTexture`: the pixel count must match the size. */
  function GenTexture(pixels: seq<int>, width: int, height: int): (r: Result<Texture>)
    ensures r.Ok? <==> |pixels| == width * height
    ensures r.Ok? ==> r.value.pixels == pixels && r.value.width == width && r.value.height == height
    ensures r.Throws? ==> r.ex == IllegalArgument
  {
    if |pixels| != width * height then Throws(IllegalArgument) else Ok(Texture(pixels, width, height))
  }

  /** A decoded image: its size and its ARGB pixels row by row. */
  datatype Image = Image(width: nat, height: nat, argb: seq<int>)

  predicate WellFormed(im: Image)
  {
    |im.argb| == im.width * im.height
  }

  /** The entry at row `r`, column `c` of a row-major grid `w` wide (0 off the grid). */
  function At(s: seq<int>, w: int, r: int, c: int): int
  {
    if 0 <= c + r * w < |s| then s[c + r * w] else 0
  }

  lemma MulMono(a: int, b: int, c: int)
    requires 0 <= a <= b && 0 <= c
    ensures a * c <= b * c
  {
  }

  /** Row-major positions of a grid `w` wide lie inside the grid and keep the row-major order. */
  lemma RowMajor(r: int, c: int, w: int, h: int)
    requires 0 <= r < h && 0 <= c < w
    ensures 0 <= c + r * w < w * h
    ensures c + r * w < (r + 1) * w
  {
    MulMono(r + 1, h, w);
  }

  lemma RowMajorLess(r1: int, c1: int, r2: int, c2: int, w: int)
    requires 0 <= c1 < w && 0 <= c2 < w && 0 <= r1 && 0 <= r2
    requires r1 < r2 || (r1 == r2 && c1 < c2)
    ensures c1 + r1 * w < c2 + r2 * w
  {
    if r1 < r2 {
      MulMono(r1 + 1, r2, w);
    }
  }

  /** Row-major positions are distinct: the entry at a position determines its row and column. */
  lemma RowMajorOnto(p: int, w: int, h: int) returns (r: int, c: int)
    requires 0 <= p < w * h && 0 < w
    ensures 0 <= r < h && 0 <= c < w && p == c + r * w
  {
    r, c := p / w, p % w;
    if r >= h {
      MulMono(h, r, w);
    }
  }

  lemma MulSub(a: int, b: int, c: int)
    ensures a * c - b * c == (a - b) * c
  {
  }

  /** Euclidean division has one quotient and one remainder. */
  lemma DivModUnique(a: int, d: int, q: int, r: int)
    requires 0 < d && a == q * d + r && 0 <= r < d
    ensures a / d == q && a % d == r
  {
    var q', r' := a / d, a % d;
    assert a == q' * d + r' && 0 <= r' < d;
    MulSub(q, q', d);
    if q > q' {
      MulMono(1, q - q', d);
    } else if q < q' {
      MulMono(1, q' - q, d);
    }
  }

  /** Frame (i, j) of a sheet cut from an image `w` by `h` pixels reads only pixels inside the image. */
  predicate Fits(i: int, j: int, fw: int, fh: int, w: int, h: int)
  {
    fw == 0 || fh == 0 || ((i + 1) * fh <= h && (j + 1) * fw <= w)
  }

  /** Every frame of a grid `sx` by `sy` reads inside the image. */
  predicate AllFit(sx: int, sy: int, fw: int, fh: int, w: int, h: int)
  {
    sx == 0 || sy == 0 || fw == 0 || fh == 0 || (sx * fw <= w && sy * fh <= h)
  }

  /** The frames cut before the first frame that reads outside the image, in row-major order. */
  predicate Filled(i: int, j: int, sx: int, fw: int, fh: int, w: int, h: int)
  {
    Fits(i, j, fw, fh, w, h) && (fw == 0 || fh == 0 || sx * fw <= w || i == 0)
  }

  /** `d` is frame (i, j) of the image: `fw` by `fh` pixels, taken from the image's rows
    * `i*fh ..` and columns `j*fw ..`. */
  predicate IsFrame(d: seq<int>, im: Image, i: int, j: int, fw: int, fh: int)
  {
    |d| == fw * fh &&
    forall k, l :: 0 <= k < fh && 0 <= l < fw ==> At(d, fw, k, l) == At(im.argb, im.width, k + i * fh, l + j * fw)
  }

  /** A frame is determined by the image and its position. */
  lemma {:induction false} FrameUnique(d1: seq<int>, d2: seq<int>, im: Image, i: int, j: int, fw: int, fh: int)
    requires 0 <= fw && 0 <= fh
    requires IsFrame(d1, im, i, j, fw, fh) && IsFrame(d2, im, i, j, fw, fh)
    ensures d1 == d2
  {
    if fw == 0 {
      assert fw * fh == 0;
    }
    forall p | 0 <= p < |d1| ensures d1[p] == d2[p] {
      var k, l := RowMajorOnto(p, fw, fh);
      assert At(d1, fw, k, l) == At(d2, fw, k, l);
    }
  }

  /** The first frame that reads outside the image, in row-major order, ends the cutting: the frames
    * before it are exactly the `Filled` ones. */
  lemma FirstMisfit(ci: int, cj: int, sx: int, sy: int, fw: int, fh: int, w: int, h: int)
    requires 0 <= ci < sy && 0 <= cj < sx && 0 <= fw && 0 <= fh && 0 <= w && 0 <= h
    requires !Fits(ci, cj, fw, fh, w, h)
    requires forall i, j :: 0 <= i < sy && 0 <= j < sx && (i < ci || (i == ci && j < cj)) ==> Fits(i, j, fw, fh, w, h)
    ensures forall i, j :: 0 <= i < sy && 0 <= j < sx ==>
      ((i < ci || (i == ci && j < cj)) <==> Filled(i, j, sx, fw, fh, w, h))
    ensures !AllFit(sx, sy, fw, fh, w, h)
  {
    MulMono(ci + 1, sy, fh);
    MulMono(cj + 1, sx, fw);
    assert ci == 0 || Fits(ci - 1, sx - 1, fw, fh, w, h);
    if cj > 0 {
      assert Fits(ci, cj - 1, fw, fh, w, h);
      forall i, j | 0 <= i < sy && 0 <= j < sx && i == 0 && j >= cj ensures !Fits(i, j, fw, fh, w, h) {
        MulMono(cj + 1, j + 1, fw);
      }
    } else if ci == 0 {
      forall i, j | 0 <= i < sy && 0 <= j < sx ensures !Fits(i, j, fw, fh, w, h) {
        MulMono(1, i + 1, fh);
        MulMono(1, j + 1, fw);
      }
    } else {
      MulMono(1, sx, fw);
      forall i, j | 0 <= i < sy && 0 <= j < sx && i >= ci ensures !Fits(i, j, fw, fh, w, h) {
        MulMono(ci + 1, i + 1, fh);
      }
    }
  }

  /** When no frame reads outside the image, the whole grid fits. */
  lemma NoMisfit(sx: int, sy: int, fw: int, fh: int, w: int, h: int)
    requires 0 <= sx && 0 <= sy && 0 <= fw && 0 <= fh
    requires forall i, j :: 0 <= i < sy && 0 <= j < sx ==> Fits(i, j, fw, fh, w, h)
    ensures AllFit(sx, sy, fw, fh, w, h)
    ensures forall i, j :: 0 <= i < sy && 0 <= j < sx ==> Filled(i, j, sx, fw, fh, w, h)
  {
    if sx > 0 && sy > 0 {
      assert Fits(sy - 1, sx - 1, fw, fh, w, h);
    }
  }

  class SpriteSheet {
    /** The sprites, `spritesY` rows of `spritesX` columns, indexed `[y, x]`; `None` plays `null`. */
    var textures: array2<Option<Texture>>
    var totalWidth: int
    var totalHeight: int
    var spritesX: int
    var spritesY: int
    var frameWidth: int
    var frameHeight: int

    predicate Valid()
      reads this
    {
      textures.Length0 == spritesY && textures.Length1 == spritesX
    }

    /** An empty grid; allocating it fails for negative counts, which are not modelled. */
    constructor (spritesX: int, spritesY: int, frameWidth: int, frameHeight: int)
      requires 0 <= spritesX && 0 <= spritesY
      ensures Valid() && fresh(textures)
      ensures this.spritesX == spritesX && this.spritesY == spritesY
      ensures this.frameWidth == frameWidth && this.frameHeight == frameHeight
      ensures totalWidth == 0 && totalHeight == 0
      ensures forall y, x :: 0 <= y < spritesY && 0 <= x < spritesX ==> textures[y, x] == None
    {
      this.spritesX, this.spritesY := spritesX, spritesY;
      this.frameWidth, this.frameHeight := frameWidth, frameHeight;
      totalWidth, totalHeight := 0, 0;
      textures := new Option<Texture>[spritesY, spritesX]((y, x) => None);
    }

    /** Sets the sprite at column `x`, row `y`. */
    /** `None` stores a `null` texture, which clears the cell. */
    method SetTexture(t: Option<Texture>, x: int, y: int) returns (o: Outcome)
      modifies textures
      ensures o.Normal? <==> 0 <= y < textures.Length0 && 0 <= x < textures.Length1
      ensures o.Thrown? ==> o.ex == IndexOutOfBounds && unchanged(textures)
      ensures o.Normal? ==> textures[y, x] == t
      ensures forall r, c :: 0 <= r < textures.Length0 && 0 <= c < textures.Length1 && (r, c) != (y, x) ==>
        textures[r, c] == old(textures[r, c])
    {
      if 0 <= y < textures.Length0 && 0 <= x < textures.Length1 {
        textures[y, x] := t;
        o := Normal;
      } else {
        o := Thrown(IndexOutOfBounds);
      }
    }

    /** The sprite at column `x`, row `y`. */
    method GetTexture(x: int, y: int) returns (r: Result<Option<Texture>>)
      ensures r.Ok? <==> 0 <= y < textures.Length0 && 0 <= x < textures.Length1
      ensures r.Ok? ==> r.value == textures[y, x]
      ensures r.Throws? ==> r.ex == IndexOutOfBounds
    {
      if 0 <= y < textures.Length0 && 0 <= x < textures.Length1 {
        r := Ok(textures[y, x]);
      } else {
        r := Throws(IndexOutOfBounds);
      }
    }

    /** Unpacks the image's pixels into a grid: `pixels[i, j]` is the pixel in row `i`, column `j`. */
    static method Unpack(im: Image) returns (pixels: array2<int>)
      requires WellFormed(im)
      ensures fresh(pixels) && pixels.Length0 == im.height && pixels.Length1 == im.width
      ensures forall i, j :: 0 <= i < im.height && 0 <= j < im.width ==> pixels[i, j] == At(im.argb, im.width, i, j)
    {
      pixels := new int[im.height, im.width];
      var i := 0;
      while i < im.height
        invariant 0 <= i <= im.height
        invariant forall r, c :: 0 <= r < i && 0 <= c < im.width ==> pixels[r, c] == At(im.argb, im.width, r, c)
      {
        var j := 0;
        while j < im.width
          invariant 0 <= j <= im.width
          invariant forall r, c :: 0 <= r < i && 0 <= c < im.width ==> pixels[r, c] == At(im.argb, im.width, r, c)
          invariant forall c :: 0 <= c < j ==> pixels[i, c] == At(im.argb, im.width, i, c)
        {
          RowMajor(i, j, im.width, im.height);
          pixels[i, j] := im.argb[j + i * im.width];
          j := j + 1;
        }
        i := i + 1;
      }
    }

    /** Copies `n` pixels of image row `y`, from column `x0` on, into `data` from index `b` on;
      * `false` when a read falls outside the image. Nothing else in `data` changes. */
    static method CopyRow(im: Image, pixels: array2<int>, data: array<int>, b: int, y: int, x0: int, n: int)
      returns (ok: bool)
      requires WellFormed(im) && 0 <= b && 0 <= y && 0 <= x0 && 0 <= n && b + n <= data.Length
      requires pixels.Length0 == im.height && pixels.Length1 == im.width
      requires forall r, c :: 0 <= r < im.height && 0 <= c < im.width ==> pixels[r, c] == At(im.argb, im.width, r, c)
      modifies data
      ensures ok <==> n == 0 || (y < im.height && n - 1 + x0 < im.width)
      ensures ok ==> forall p :: b <= p < b + n ==> data[p] == At(im.argb, im.width, y, p - b + x0)
      ensures forall p :: 0 <= p < data.Length && !(b <= p < b + n) ==> data[p] == old(data[p])
    {
      var l := 0;
      while l < n
        invariant 0 <= l <= n
        invariant 0 < l ==> y < im.height && l - 1 + x0 < im.width
        invariant forall p :: b <= p < b + l ==> data[p] == At(im.argb, im.width, y, p - b + x0)
        invariant forall p :: 0 <= p < data.Length && !(b <= p < b + n) ==> data[p] == old(data[p])
      {
        if y >= im.height || l + x0 >= im.width {
          return false;
        }
        data[b + l] := pixels[y, l + x0];
        l := l + 1;
      }
      ok := true;
    }

    /** Copies frame (i, j) out of the unpacked pixels; a read outside them throws. */
    static method CutFrame(im: Image, pixels: array2<int>, i: int, j: int, fw: int, fh: int) returns (r: Result<seq<int>>)
      requires WellFormed(im) && 0 <= i && 0 <= j && 0 <= fw && 0 <= fh
      requires pixels.Length0 == im.height && pixels.Length1 == im.width
      requires forall r, c :: 0 <= r < im.height && 0 <= c < im.width ==> pixels[r, c] == At(im.argb, im.width, r, c)
      ensures r.Ok? <==> Fits(i, j, fw, fh, im.width, im.height)
      ensures r.Ok? ==> IsFrame(r.value, im, i, j, fw, fh)
      ensures r.Throws? ==> r.ex == IndexOutOfBounds
    {
      var data := new int[fw * fh];
      var y0, x0 := i * fh, j * fw;
      assert (i + 1) * fh == y0 + fh && (j + 1) * fw == x0 + fw;
      var k := 0;
      while k < fh
        invariant 0 <= k <= fh
        invariant 0 < k && 0 < fw ==> k - 1 + y0 < im.height && fw - 1 + x0 < im.width
        invariant forall k', l' :: 0 <= k' < k && 0 <= l' < fw ==>
          At(data[..], fw, k', l') == At(im.argb, im.width, k' + y0, l' + x0)
      {
        ghost var before := data[..];
        MulMono(k + 1, fh, fw);
        var ok := CopyRow(im, pixels, data, k * fw, k + y0, x0, fw);
        if !ok {
          return Throws(IndexOutOfBounds);
        }
        forall k', l' | 0 <= k' < k && 0 <= l' < fw
          ensures At(data[..], fw, k', l') == At(before, fw, k', l')
        {
          RowMajorLess(k', l', k, 0, fw);
          RowMajor(k', l', fw, fh);
        }
        forall l | 0 <= l < fw
          ensures At(data[..], fw, k, l) == At(im.argb, im.width, k + y0, l + x0)
        {
          RowMajor(k, l, fw, fh);
          assert (l + k * fw) - k * fw + x0 == l + x0;
        }
        k := k + 1;
      }
      r := Ok(data[..]);
    }

    /** Cuts every sprite out of a loaded image. `None` stands for a load that failed with an
      * `IOException`, which is reported and leaves the sheet as it was. A frame that reads outside the
      * image throws, leaving the frames cut before it in place. */
    method LoadTexture(image: Option<Image>) returns (o: Outcome)
      requires Valid() && 0 <= frameWidth && 0 <= frameHeight
      requires image.Some? ==> WellFormed(image.value)
      modifies this`totalWidth, this`totalHeight, textures
      ensures image.None? ==> o == Normal && unchanged(this) && unchanged(textures)
      ensures image.Some? ==> totalWidth == image.value.width && totalHeight == image.value.height
      ensures image.Some? ==> (o.Normal? <==> AllFit(spritesX, spritesY, frameWidth, frameHeight, totalWidth, totalHeight))
      ensures o.Thrown? ==> o.ex == IndexOutOfBounds
      ensures image.Some? ==> forall y, x :: 0 <= y < spritesY && 0 <= x < spritesX ==>
        if Filled(y, x, spritesX, frameWidth, frameHeight, totalWidth, totalHeight)
        then textures[y, x].Some? && textures[y, x].value.width == frameWidth && textures[y, x].value.height == frameHeight &&
             IsFrame(textures[y, x].value.pixels, image.value, y, x, frameWidth, frameHeight)
        else textures[y, x] == old(textures[y, x])
    {
      if image.None? {
        return Normal;
      }
      var im := image.value;
      totalWidth, totalHeight := im.width, im.height;
      var pixels := Unpack(im);
      var i := 0;
      while i < spritesY
        modifies textures
        invariant 0 <= i <= spritesY
        invariant forall y, x :: 0 <= y < i && 0 <= x < spritesX ==> Fits(y, x, frameWidth, frameHeight, im.width, im.height)
        invariant forall y, x :: 0 <= y < spritesY && 0 <= x < spritesX ==>
          if y < i then textures[y, x].Some? && textures[y, x].value.width == frameWidth && textures[y, x].value.height == frameHeight &&
                        IsFrame(textures[y, x].value.pixels, im, y, x, frameWidth, frameHeight)
          else textures[y, x] == old(textures[y, x])
      {
        var j := 0;
        while j < spritesX
          modifies textures
          invariant 0 <= j <= spritesX
          invariant forall y, x :: 0 <= y < spritesY && 0 <= x < spritesX && (y < i || (y == i && x < j)) ==>
            Fits(y, x, frameWidth, frameHeight, im.width, im.height)
          invariant forall y, x :: 0 <= y < spritesY && 0 <= x < spritesX ==>
            if y < i || (y == i && x < j)
            then textures[y, x].Some? && textures[y, x].value.width == frameWidth && textures[y, x].value.height == frameHeight &&
                 IsFrame(textures[y, x].value.pixels, im, y, x, frameWidth, frameHeight)
            else textures[y, x] == old(textures[y, x])
        {
          var data := CutFrame(im, pixels, i, j, frameWidth, frameHeight);
          if data.Throws? {
            FirstMisfit(i, j, spritesX, spritesY, frameWidth, frameHeight, im.width, im.height);
            return Thrown(IndexOutOfBounds);
          }
          textures[i, j] := Some(GenTexture(data.value, frameWidth, frameHeight).value);
          j := j + 1;
        }
        i := i + 1;
      }
      NoMisfit(spritesX, spritesY, frameWidth, frameHeight, im.width, im.height);
      o := Normal;
    }
  }

  /** Shows one sprite of a sheet, chosen by a column and row cursor. */
  class DynamicTexture {
    /** `null` until a sheet is set. */
    var sheet: SpriteSheet?
    var x: int
    var y: int

    /** A dynamic texture without a sheet. */
    constructor Empty()
      ensures sheet == null && x == 0 && y == 0
    {
      sheet, x, y := null, 0, 0;
    }

    /** A dynamic texture over `sheet`, at its first sprite. */
    constructor (sheet: SpriteSheet)
      ensures this.sheet == sheet && x == 0 && y == 0
    {
      this.sheet, x, y := sheet, 0, 0;
    }

    /** A dynamic texture over a new one-sprite sheet holding `t`. */
    constructor FromTexture(t: Texture)
      ensures sheet != null && fresh(sheet) && fresh(sheet.textures) && sheet.Valid()
      ensures sheet.spritesX == 1 && sheet.spritesY == 1 && sheet.frameWidth == t.width && sheet.frameHeight == t.height
      ensures sheet.textures[0, 0] == Some(t)
      ensures x == 0 && y == 0
    {
      var s := new SpriteSheet(1, 1, t.width, t.height);
      var o := s.SetTexture(Some(t), 0, 0);
      sheet, x, y := s, 0, 0;
    }

    /** `null` is accepted and leaves the texture without a sheet. */
    method SetSpriteSheet(s: SpriteSheet?)
      modifies this`sheet
      ensures sheet == s && x == old(x) && y == old(y)
    {
      sheet := s;
    }

    /** Moves the cursor to column `x`, row `y`, without a bounds check. */
    method SwapTo(x: int, y: int)
      modifies this`x, this`y
      ensures this.x == x && this.y == y
    {
      this.x, this.y := x, y;
    }

    /** Moves the cursor to sprite number `i` of the sheet, counted row by row. */
    method Swap(i: int) returns (o: Outcome)
      modifies this`x, this`y
      ensures sheet == null ==> o == Thrown(NullPointer) && unchanged(this)
      ensures sheet != null && sheet.spritesX == 0 ==> o == Thrown(Arithmetic) && unchanged(this)
      ensures sheet != null && sheet.spritesX != 0 ==>
        o == Normal && x == JavaRem(i, sheet.spritesX) && y == FloorDiv(i, sheet.spritesX)
    {
      if sheet == null {
        return Thrown(NullPointer);
      }
      if sheet.spritesX == 0 {
        return Thrown(Arithmetic);
      }
      x := JavaRem(i, sheet.spritesX);
      y := FloorDiv(i, sheet.spritesX);
      o := Normal;
    }

    /** Steps the cursor one column right, unless that leaves the sheet. The cursor is a Java `int`. */
    method IncrementX() returns (r: Result<bool>)
      requires IsInt32(x)
      modifies this`x
      ensures sheet == null ==> r == Throws(NullPointer) && x == Wrap32(old(x) + 1)
      ensures sheet != null ==> r.Ok? && (r.value <==> Wrap32(old(x) + 1) < sheet.spritesX)
      ensures sheet != null ==> x == if r.value then Wrap32(old(x) + 1) else old(x)
    {
      x := Wrap32(x + 1);
      if sheet == null {
        return Throws(NullPointer);
      }
      if x >= sheet.spritesX {
        x := Wrap32(x - 1);
        return Ok(false);
      }
      r := Ok(true);
    }

    /** Steps the cursor one row down, unless that leaves the sheet. */
    method IncrementY() returns (r: Result<bool>)
      requires IsInt32(y)
      modifies this`y
      ensures sheet == null ==> r == Throws(NullPointer) && y == Wrap32(old(y) + 1)
      ensures sheet != null ==> r.Ok? && (r.value <==> Wrap32(old(y) + 1) < sheet.spritesY)
      ensures sheet != null ==> y == if r.value then Wrap32(old(y) + 1) else old(y)
    {
      y := Wrap32(y + 1);
      if sheet == null {
        return Throws(NullPointer);
      }
      if y >= sheet.spritesY {
        y := Wrap32(y - 1);
        return Ok(false);
      }
      r := Ok(true);
    }

    /** The sprite under the cursor. */
    method GetTexture() returns (r: Result<Option<Texture>>)
      ensures sheet == null ==> r == Throws(NullPointer)
      ensures sheet != null ==> (r.Ok? <==> 0 <= y < sheet.textures.Length0 && 0 <= x < sheet.textures.Length1)
      ensures sheet != null && r.Ok? ==> r.value == sheet.textures[y, x]
      ensures r.Throws? && sheet != null ==> r.ex == IndexOutOfBounds
    {
      if sheet == null {
        return Throws(NullPointer);
      }
      r := sheet.GetTexture(x, y);
    }
  }

  /** Sprite number `i` of a sheet `sx` columns wide is at column `i % sx`, row `floorDiv(i, sx)`: for
    * `i >= 0` the pair counts back to `i` and lies on the sheet's columns. */
  lemma SwapIndexRoundTrip(i: int, sx: int)
    requires 0 <= i && 0 < sx
    ensures 0 <= JavaRem(i, sx) < sx && FloorDiv(i, sx) >= 0
    ensures FloorDiv(i, sx) * sx + JavaRem(i, sx) == i
  {
  }

  /** A negative sprite number that is not a multiple of the width lands left of the sheet. */
  lemma SwapNegativeIndex(i: int, sx: int)
    requires i < 0 && 0 < sx && i % sx != 0
    ensures JavaRem(i, sx) < 0 && FloorDiv(i, sx) < 0
  {
    var q := (-i) / sx;
    if (-i) % sx == 0 {
      DivModUnique(i, sx, -q, 0);
    }
    if i / sx >= 0 {
      MulMono(0, i / sx, sx);
    }
  }

  /** A successful step keeps the cursor on the sheet, and a refused step leaves it where it was. */
  lemma IncrementStaysOnSheet(x: int, sx: int)
    requires 0 <= x < sx && IsInt32(sx)
    ensures Wrap32(x + 1) == x + 1
    ensures Wrap32(x + 1) < sx ==> 0 <= Wrap32(x + 1) < sx
  {
  }

  /** Whether an animation frame is due: Java compares against `1 / speed`, which is `+Infinity` for a
    * zero speed, so a stopped animation never steps. */
  function Due(deltaStack: real, speed: real): (b: bool)
    ensures b <==> (speed > 0.0 && deltaStack * speed > 1.0) || (speed < 0.0 && deltaStack * speed < 1.0)
  {
    if speed == 0.0 then false
    else
      var t := 1.0 / speed;
      var d := deltaStack - t;
      assert deltaStack * speed - 1.0 == d * speed;
      assert speed > 0.0 ==> (d > 0.0 <==> d * speed > 0.0);
      assert speed < 0.0 ==> (d > 0.0 <==> d * speed < 0.0);
      deltaStack > t
  }

  /** The mark after showing `indices[mark]`: the next entry, wrapping to the first, unless the next
    * entry is the hold marker `-1`. */
  function NextMark(mark: int, indices: seq<int>): (m: int)
    requires 0 <= mark < |indices|
    ensures 0 <= m < |indices|
    ensures mark < |indices| - 1 && indices[mark + 1] == -1 ==> m == mark
    ensures !(mark < |indices| - 1 && indices[mark + 1] == -1) ==> m == JavaRem(mark + 1, |indices|)
  {
    if mark < |indices| - 1 && indices[mark + 1] == -1 then mark else JavaRem(mark + 1, |indices|)
  }

  /** Without hold markers the animation cycles: after `|indices|` steps from any mark it is back there,
    * having shown every entry once. */
  lemma {:induction false} CyclesWithoutHolds(mark: int, indices: seq<int>, n: nat)
    requires 0 <= mark < |indices| && -1 !in indices
    ensures Steps(mark, indices, n) == (mark + n) % |indices|
  {
    if n == 0 {
      DivModUnique(mark, |indices|, 0, mark);
    } else {
      var a, len := mark + n - 1, |indices|;
      CyclesWithoutHolds(mark, indices, n - 1);
      var m := Steps(mark, indices, n - 1);
      assert m == a % len;
      NextMarkWithoutHold(m, indices);
      ModSucc(a, len);
      assert a + 1 == mark + n;
      assert Steps(mark, indices, n) == NextMark(m, indices) == (a % len + 1) % len;
    }
  }

  lemma NextMarkWithoutHold(m: int, indices: seq<int>)
    requires 0 <= m < |indices| && -1 !in indices
    ensures NextMark(m, indices) == (m + 1) % |indices|
  {
    if m < |indices| - 1 {
      assert indices[m + 1] in indices;
    }
  }

  lemma ModSucc(a: int, d: int)
    requires 0 <= a && 0 < d
    ensures (a % d + 1) % d == (a + 1) % d
  {
    var q, m := a / d, a % d;
    assert a == q * d + m;
    if m + 1 < d {
      DivModUnique(m + 1, d, 0, m + 1);
      DivModUnique(a + 1, d, q, m + 1);
    } else {
      assert (q + 1) * d == q * d + d;
      DivModUnique(a + 1, d, q + 1, 0);
      DivModUnique(m + 1, d, 1, 0);
    }
  }

  /** The mark after `n` frames. */
  function Steps(mark: int, indices: seq<int>, n: nat): (m: int)
    requires 0 <= mark < |indices|
    ensures 0 <= m < |indices|
  {
    if n == 0 then mark else NextMark(Steps(mark, indices, n - 1), indices)
  }

  /** A hold is permanent: once the next entry is `-1`, every later frame shows the same entry. */
  lemma {:induction false} HoldIsPermanent(mark: int, indices: seq<int>, n: nat)
    requires 0 <= mark < |indices| - 1 && indices[mark + 1] == -1
    ensures Steps(mark, indices, n) == mark
  {
    if n > 0 {
      HoldIsPermanent(mark, indices, n - 1);
    }
  }

  /** What showing entry `m` raises: the index array and the index are read first, then the texture,
    * its sheet and the sheet's width are used. */
  function ShowOutcome(indices: Option<seq<int>>, m: int, dyn: DynamicTexture?): (o: Outcome)
    reads dyn, if dyn != null then {dyn.sheet} else {}
    ensures o.Normal? <==>
      indices.Some? && 0 <= m < |indices.value| && dyn != null && dyn.sheet != null && dyn.sheet.spritesX != 0
    ensures indices.None? ==> o == Thrown(NullPointer)
    ensures indices.Some? && !(0 <= m < |indices.value|) ==> o == Thrown(IndexOutOfBounds)
    ensures indices.Some? && 0 <= m < |indices.value| && (dyn == null || dyn.sheet == null) ==> o == Thrown(NullPointer)
    ensures indices.Some? && 0 <= m < |indices.value| && dyn != null && dyn.sheet != null && dyn.sheet.spritesX == 0 ==>
      o == Thrown(Arithmetic)
  {
    if indices.None? then Thrown(NullPointer)
    else if !(0 <= m < |indices.value|) then Thrown(IndexOutOfBounds)
    else if dyn == null || dyn.sheet == null then Thrown(NullPointer)
    else if dyn.sheet.spritesX == 0 then Thrown(Arithmetic)
    else Normal
  }

  /** Steps a dynamic texture through a list of sprite numbers at `speed` frames per time unit. */
  class Animation {
    /** `null` until set. */
    var dyn: DynamicTexture?
    /** `None` plays the `null` array of an animation whose indices are not set. */
    var indices: Option<seq<int>>
    var mark: int
    var speed: real
    var deltaStack: real

    constructor Empty()
      ensures dyn == null && indices == None && mark == 0 && speed == 1.0 && deltaStack == 0.0
    {
      dyn, indices, mark, speed, deltaStack := null, None, 0, 1.0, 0.0;
    }

    constructor (dyn: DynamicTexture, indices: seq<int>)
      ensures this.dyn == dyn && this.indices == Some(indices) && mark == 0 && speed == 1.0 && deltaStack == 0.0
    {
      this.dyn, this.indices, mark, speed, deltaStack := dyn, Some(indices), 0, 1.0, 0.0;
    }

    method SetSpeed(speed: real)
      modifies this`speed
      ensures this.speed == speed
    {
      this.speed := speed;
    }

    method SetIndices(indices: seq<int>)
      modifies this`indices
      ensures this.indices == Some(indices)
    {
      this.indices := Some(indices);
    }

    /** `null` is accepted; the next frame then raises `NullPointerException`. */
    method SetDynamicTexture(dyn: DynamicTexture?)
      modifies this`dyn
      ensures this.dyn == dyn
    {
      this.dyn := dyn;
    }

    /** `dynTex.swap(indices[m])`: the index is read before the texture reference is checked. */
    method Show(m: int) returns (o: Outcome)
      modifies dyn
      ensures indices.None? ==> o == Thrown(NullPointer)
      ensures indices.Some? && !(0 <= m < |indices.value|) ==> o == Thrown(IndexOutOfBounds)
      ensures indices.Some? && 0 <= m < |indices.value| && dyn == null ==> o == Thrown(NullPointer)
      ensures indices.Some? && 0 <= m < |indices.value| && dyn != null ==> var sx := dyn.sheet;
        (sx == null ==> o == Thrown(NullPointer)) &&
        (sx != null && sx.spritesX == 0 ==> o == Thrown(Arithmetic)) &&
        (sx != null && sx.spritesX != 0 ==>
          (o == Normal && dyn.x == JavaRem(indices.value[m], sx.spritesX) && dyn.y == FloorDiv(indices.value[m], sx.spritesX)))
      ensures o == old(ShowOutcome(indices, m, dyn))
      ensures o.Thrown? ==> dyn == null || unchanged(dyn)
      ensures dyn != null ==> dyn.sheet == old(dyn.sheet)
    {
      if indices.None? {
        return Thrown(NullPointer);
      }
      if !(0 <= m < |indices.value|) {
        return Thrown(IndexOutOfBounds);
      }
      if dyn == null {
        return Thrown(NullPointer);
      }
      o := dyn.Swap(indices.value[m]);
    }

    /** Adds `dt` to the time since the last frame; once a frame is due, shows `indices[mark]` and
      * moves the mark on. */
    method Update(dt: real) returns (o: Outcome)
      modifies this`deltaStack, this`mark, dyn
      ensures !Due(old(deltaStack) + dt, speed) ==> o == Normal && deltaStack == old(deltaStack) + dt && mark == old(mark)
      ensures !Due(old(deltaStack) + dt, speed) && dyn != null ==> unchanged(dyn)
      ensures Due(old(deltaStack) + dt, speed) ==> deltaStack == 0.0 && o == old(ShowOutcome(indices, mark, dyn))
      ensures Due(old(deltaStack) + dt, speed) && o.Normal? ==>
        indices.Some? && 0 <= old(mark) < |indices.value| && mark == NextMark(old(mark), indices.value) &&
        dyn != null && dyn.sheet != null && dyn.sheet.spritesX != 0 &&
        dyn.x == JavaRem(indices.value[old(mark)], dyn.sheet.spritesX) &&
        dyn.y == FloorDiv(indices.value[old(mark)], dyn.sheet.spritesX)
      ensures o.Thrown? ==> mark == old(mark) && (dyn == null || unchanged(dyn))
      ensures dyn != null ==> dyn.sheet == old(dyn.sheet)
    {
      deltaStack := deltaStack + dt;
      if Due(deltaStack, speed) {
        deltaStack := 0.0;
        o := Show(mark);
        if o.Thrown? {
          return;
        }
        mark := NextMark(mark, indices.value);
      } else {
        o := Normal;
      }
    }

    /** Jumps to entry `m` and restarts the frame timer. */
    method SetMark(m: int) returns (o: Outcome)
      modifies this`deltaStack, this`mark, dyn
      ensures mark == m && o == old(ShowOutcome(indices, m, dyn))
      ensures o == Normal ==>
        (deltaStack == 0.0 && indices.Some? && 0 <= m < |indices.value| && dyn != null &&
         dyn.sheet != null && dyn.sheet.spritesX != 0 &&
         dyn.x == JavaRem(indices.value[m], dyn.sheet.spritesX) && dyn.y == FloorDiv(indices.value[m], dyn.sheet.spritesX))
      ensures o.Thrown? ==> deltaStack == old(deltaStack) && (dyn == null || unchanged(dyn))
      ensures dyn != null ==> dyn.sheet == old(dyn.sheet)
    {
      mark := m;
      o := Show(m);
      if o.Thrown? {
        return;
      }
      deltaStack := 0.0;
    }

    method ResetDeltaStack()
      modifies this`deltaStack
      ensures deltaStack == 0.0
    {
      deltaStack := 0.0;
    }

    /** Back to the first entry with the frame timer restarted. */
    method Reset() returns (o: Outcome)
      modifies this`deltaStack, this`mark, dyn
      ensures mark == 0 && deltaStack == 0.0 && o == old(ShowOutcome(indices, 0, dyn))
      ensures o.Thrown? ==> dyn == null || unchanged(dyn)
      ensures dyn != null ==> dyn.sheet == old(dyn.sheet)
      ensures o == Normal ==>
        (indices.Some? && 0 < |indices.value| && dyn != null &&
         dyn.sheet != null && dyn.sheet.spritesX != 0 &&
         dyn.x == JavaRem(indices.value[0], dyn.sheet.spritesX) && dyn.y == FloorDiv(indices.value[0], dyn.sheet.spritesX))
    {
      deltaStack := 0.0;
      mark := 0;
      o := Show(mark);
    }
  }
}
