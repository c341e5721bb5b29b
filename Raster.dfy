/**
 * The canvas pixel buffer: RGBA samples in row-major order, four bytes per
 * pixel, and the three 2D-context primitives the editor's handlers use on it
 * (getImageData, putImageData, clearRect), plus the reallocation that follows
 * an assignment to canvas.width / canvas.height.
 */
module Raster {
  import opened Geometry

  /** One channel sample, as stored in a Uint8ClampedArray. */
  type Byte = b: int | 0 <= b < 256

  /** Index of the alpha channel within a pixel. */
  const Alpha: nat := 3

  /** An ImageData value: a width x height bitmap of RGBA samples. */
  datatype ImageData = ImageData(width: nat, height: nat, data: seq<Byte>) {
    predicate Valid()
    {
      |data| == width * height * 4
    }
  }

  // ---------------------------------------------------------------------------
  // Addressing pixels inside the flat sample array
  // ---------------------------------------------------------------------------

  /** Position of channel `c` of pixel (x, y) in the samples of an image `w` pixels wide. */
  function Offset(w: nat, x: nat, y: nat, c: nat): nat
  {
    (y * w + x) * 4 + c
  }

  /** The column of the pixel that sample `i` belongs to. */
  function Column(w: nat, i: nat): nat
  {
    if w == 0 then 0 else (i / 4) % w
  }

  /** The row of the pixel that sample `i` belongs to. */
  function Row(w: nat, i: nat): nat
  {
    if w == 0 then 0 else (i / 4) / w
  }

  /** The channel (0 red, 1 green, 2 blue, 3 alpha) that sample `i` holds. */
  function Channel(i: nat): nat
  {
    i % 4
  }

  predicate InImage(img: ImageData, x: int, y: int)
  {
    0 <= x < img.width && 0 <= y < img.height
  }

  /**
   * Channel `c` of pixel (x, y); a pixel off the image reads as transparent
   * black, as getImageData reports it.
   */
  function Sample(img: ImageData, x: int, y: int, c: nat): Byte
  {
    if InImage(img, x, y) && c < 4 && Offset(img.width, x, y, c) < |img.data|
    then img.data[Offset(img.width, x, y, c)]
    else 0
  }

  lemma MulMonotone(a: nat, b: nat, k: nat)
    requires a <= b
    ensures a * k <= b * k
  {
  }

  lemma OffsetBound(w: nat, h: nat, x: nat, y: nat, c: nat)
    requires x < w && y < h && c < 4
    ensures Offset(w, x, y, c) < w * h * 4
  {
    assert y * w + x < (y + 1) * w;
    MulMonotone(y + 1, h, w);
  }

  lemma DivModUnique(a: nat, w: nat, q: nat, r: nat)
    requires 0 < w && r < w && a == q * w + r
    ensures a / w == q && a % w == r
  {
    var q', r' := a / w, a % w;
    assert q' * w + r' == a;
    if q' < q {
      MulMonotone(q' + 1, q, w);
    } else if q < q' {
      MulMonotone(q + 1, q', w);
    }
  }

  /** Decoding the offset of a pixel gives that pixel back. */
  lemma DecodeOffset(w: nat, x: nat, y: nat, c: nat)
    requires x < w && c < 4
    ensures Column(w, Offset(w, x, y, c)) == x && Row(w, Offset(w, x, y, c)) == y
    ensures Channel(Offset(w, x, y, c)) == c
  {
    var k := y * w + x;
    assert Offset(w, x, y, c) / 4 == k;
    DivModUnique(k, w, y, x);
  }

  /** Every sample index is the offset of the pixel and channel it decodes to. */
  lemma EncodeIndex(w: nat, h: nat, i: nat)
    requires i < w * h * 4
    ensures 0 < w && Column(w, i) < w && Row(w, i) < h && Channel(i) < 4
    ensures Offset(w, Column(w, i), Row(w, i), Channel(i)) == i
  {
    var k := i / 4;
    assert k * 4 + i % 4 == i;
    assert 0 < w;
    assert Row(w, i) * w + Column(w, i) == k;
    if h <= Row(w, i) {
      MulMonotone(h, Row(w, i), w);
      assert false;
    }
  }

  /** In a valid image, sample `i` is the sample of the pixel and channel it decodes to. */
  lemma SampleAtIndex(img: ImageData, i: nat)
    requires img.Valid() && i < |img.data|
    ensures Sample(img, Column(img.width, i), Row(img.width, i), Channel(i)) == img.data[i]
  {
    EncodeIndex(img.width, img.height, i);
  }

  /** Two valid images of one size that agree on every pixel are equal. */
  lemma {:induction false} SamePixels(a: ImageData, b: ImageData)
    requires a.Valid() && b.Valid() && a.width == b.width && a.height == b.height
    requires forall x: nat, y: nat, c: nat :: x < a.width && y < a.height && c < 4 ==> Sample(a, x, y, c) == Sample(b, x, y, c)
    ensures a == b
  {
    forall i | 0 <= i < |a.data|
      ensures a.data[i] == b.data[i]
    {
      EncodeIndex(a.width, a.height, i);
      SampleAtIndex(a, i);
      SampleAtIndex(b, i);
    }
  }

  // ---------------------------------------------------------------------------
  // Images defined pixel by pixel
  // ---------------------------------------------------------------------------

  /** The w x h image whose channel c of pixel (x, y) is f(x, y, c). */
  function Tabulate(w: nat, h: nat, f: (nat, nat, nat) -> Byte): (img: ImageData)
    ensures img.width == w && img.height == h && img.Valid()
  {
    ImageData(w, h, seq<Byte>(w * h * 4, i requires 0 <= i => f(Column(w, i), Row(w, i), Channel(i))))
  }

  lemma TabulateSample(w: nat, h: nat, f: (nat, nat, nat) -> Byte, x: nat, y: nat, c: nat)
    requires x < w && y < h && c < 4
    ensures Sample(Tabulate(w, h, f), x, y, c) == f(x, y, c)
  {
    OffsetBound(w, h, x, y, c);
    DecodeOffset(w, x, y, c);
  }

  /** A freshly sized canvas: every sample 0 (transparent black). */
  function Blank(w: nat, h: nat): (img: ImageData)
    ensures img.width == w && img.height == h && img.Valid()
  {
    ImageData(w, h, seq(w * h * 4, _ => 0))
  }

  /** getImageData(sx, sy, sw, sh): a copy of the sw x sh block whose top-left pixel is (sx, sy). */
  function Region(img: ImageData, sx: int, sy: int, sw: nat, sh: nat): (r: ImageData)
    ensures r.width == sw && r.height == sh && r.Valid()
  {
    Tabulate(sw, sh, (x, y, c) => Sample(img, sx + x, sy + y, c))
  }

  /** putImageData(src, dx, dy): src's pixels replace those they land on; the rest of dst stays. */
  function Put(dst: ImageData, src: ImageData, dx: int, dy: int): (r: ImageData)
    ensures r.width == dst.width && r.height == dst.height && r.Valid()
  {
    Tabulate(dst.width, dst.height,
      (x, y, c) => if InImage(src, x - dx, y - dy) then Sample(src, x - dx, y - dy, c) else Sample(dst, x, y, c))
  }

  /** clearRect(rx, ry, rw, rh): the pixels of the rectangle become transparent black. */
  function Cleared(img: ImageData, rx: int, ry: int, rw: nat, rh: nat): (r: ImageData)
    ensures r.width == img.width && r.height == img.height && r.Valid()
  {
    Tabulate(img.width, img.height,
      (x, y, c) => if rx <= x < rx + rw && ry <= y < ry + rh then 0 else Sample(img, x, y, c))
  }

  // ---------------------------------------------------------------------------
  // What the primitives do to individual pixels
  // ---------------------------------------------------------------------------

  /** Pixel (i, j) of a copied block is pixel (sx + i, sy + j) of the source image. */
  lemma RegionSample(img: ImageData, sx: int, sy: int, sw: nat, sh: nat, i: nat, j: nat, c: nat)
    requires i < sw && j < sh && c < 4
    ensures Sample(Region(img, sx, sy, sw, sh), i, j, c) == Sample(img, sx + i, sy + j, c)
  {
    TabulateSample(sw, sh, (x, y, c) => Sample(img, sx + x, sy + y, c), i, j, c);
  }

  /** After putImageData a pixel holds src's pixel where src lands, and its old value elsewhere. */
  lemma PutSample(dst: ImageData, src: ImageData, dx: int, dy: int, x: nat, y: nat, c: nat)
    requires x < dst.width && y < dst.height && c < 4
    ensures Sample(Put(dst, src, dx, dy), x, y, c) ==
      if InImage(src, x - dx, y - dy) then Sample(src, x - dx, y - dy, c) else Sample(dst, x, y, c)
  {
    TabulateSample(dst.width, dst.height,
      (x, y, c) => if InImage(src, x - dx, y - dy) then Sample(src, x - dx, y - dy, c) else Sample(dst, x, y, c), x, y, c);
  }

  /** clearRect zeroes exactly the pixels of its rectangle and keeps every other pixel. */
  lemma ClearedSample(img: ImageData, rx: int, ry: int, rw: nat, rh: nat, x: nat, y: nat, c: nat)
    requires x < img.width && y < img.height && c < 4
    ensures Sample(Cleared(img, rx, ry, rw, rh), x, y, c) ==
      if rx <= x < rx + rw && ry <= y < ry + rh then 0 else Sample(img, x, y, c)
  {
    TabulateSample(img.width, img.height,
      (x, y, c) => if rx <= x < rx + rw && ry <= y < ry + rh then 0 else Sample(img, x, y, c), x, y, c);
  }

  /**
   * Putting an image of the canvas's own size at the origin replaces the whole
   * canvas: what redrawBaseImage does with the saved buffer, and what drawing
   * the cropped temporary canvas does.
   */
  lemma PutCoversWhole(dst: ImageData, src: ImageData)
    requires src.Valid() && src.width == dst.width && src.height == dst.height
    ensures Put(dst, src, 0, 0) == src
  {
    forall x: nat, y: nat, c: nat | x < src.width && y < src.height && c < 4
      ensures Sample(Put(dst, src, 0, 0), x, y, c) == Sample(src, x, y, c)
    {
      PutSample(dst, src, 0, 0, x, y, c);
    }
    SamePixels(Put(dst, src, 0, 0), src);
  }

  /**
   * Extraction round trip: copying a block out, clearing it, then putting the
   * copy back at the same place restores the image exactly.
   */
  lemma RestoreAfterClear(img: ImageData, r: Rect)
    requires img.Valid()
    ensures Put(Cleared(img, r.x, r.y, r.width, r.height), Region(img, r.x, r.y, r.width, r.height), r.x, r.y) == img
  {
    var cleared := Cleared(img, r.x, r.y, r.width, r.height);
    var held := Region(img, r.x, r.y, r.width, r.height);
    var restored := Put(cleared, held, r.x, r.y);
    forall x: nat, y: nat, c: nat | x < img.width && y < img.height && c < 4
      ensures Sample(restored, x, y, c) == Sample(img, x, y, c)
    {
      PutSample(cleared, held, r.x, r.y, x, y, c);
      if InImage(held, x - r.x, y - r.y) {
        RegionSample(img, r.x, r.y, r.width, r.height, x - r.x, y - r.y, c);
      } else {
        ClearedSample(img, r.x, r.y, r.width, r.height, x, y, c);
      }
    }
    SamePixels(restored, img);
  }

  /** Pixel (x, y) lies in rectangle r. */
  predicate InRect(r: Rect, x: int, y: int)
  {
    r.x <= x < r.x + r.width && r.y <= y < r.y + r.height
  }

  /**
   * The snip-and-swap, from the image before region 1 was extracted: clear r1
   * keeping its pixels, copy r2 over r1, then put the held r1 pixels over r2.
   * For two disjoint rectangles of one size inside the image, r1 ends up with
   * r2's original pixels, r2 with r1's, and every other pixel is untouched.
   */
  lemma {:induction false} SwapExchangesRegions(img: ImageData, r1: Rect, r2: Rect, x: nat, y: nat, c: nat)
    requires img.Valid()
    requires InsideCanvas(r1, img.width, img.height) && InsideCanvas(r2, img.width, img.height)
    requires r1.width == r2.width && r1.height == r2.height && Disjoint(r1, r2)
    requires x < img.width && y < img.height && c < 4
    ensures var extracted := Cleared(img, r1.x, r1.y, r1.width, r1.height);
      var held := Region(img, r1.x, r1.y, r1.width, r1.height);
      var moved := Region(extracted, r2.x, r2.y, r2.width, r2.height);
      var swapped := Put(Put(extracted, moved, r1.x, r1.y), held, r2.x, r2.y);
      Sample(swapped, x, y, c) ==
        if InRect(r1, x, y) then Sample(img, x - r1.x + r2.x, y - r1.y + r2.y, c)
        else if InRect(r2, x, y) then Sample(img, x - r2.x + r1.x, y - r2.y + r1.y, c)
        else Sample(img, x, y, c)
  {
    var extracted := Cleared(img, r1.x, r1.y, r1.width, r1.height);
    var held := Region(img, r1.x, r1.y, r1.width, r1.height);
    var moved := Region(extracted, r2.x, r2.y, r2.width, r2.height);
    var first := Put(extracted, moved, r1.x, r1.y);
    PutSample(first, held, r2.x, r2.y, x, y, c);
    if InRect(r2, x, y) {
      RegionSample(img, r1.x, r1.y, r1.width, r1.height, x - r2.x, y - r2.y, c);
    } else {
      PutSample(extracted, moved, r1.x, r1.y, x, y, c);
      if InRect(r1, x, y) {
        var sx, sy := x - r1.x + r2.x, y - r1.y + r2.y;
        RegionSample(extracted, r2.x, r2.y, r2.width, r2.height, x - r1.x, y - r1.y, c);
        ClearedSample(img, r1.x, r1.y, r1.width, r1.height, sx, sy, c);
      } else {
        ClearedSample(img, r1.x, r1.y, r1.width, r1.height, x, y, c);
      }
    }
  }

  // ---------------------------------------------------------------------------
  // The canvas element and its bitmap
  // ---------------------------------------------------------------------------

  /** The canvas element: its size and its bitmap, updated in place by the 2D context. */
  class Canvas {
    var width: nat
    var height: nat
    var pixels: array<Byte>

    ghost predicate Valid()
      reads this
    {
      pixels.Length == width * height * 4
    }

    /** ctx.getImageData(0, 0, width, height): the whole bitmap as a value. */
    function Image(): (img: ImageData)
      reads this, pixels
      ensures Valid() ==> img.Valid()
    {
      ImageData(width, height, pixels[..])
    }

    /** A canvas element of the given size, all transparent black. */
    constructor (w: nat, h: nat)
      ensures Valid() && fresh(pixels)
      ensures width == w && height == h && Image() == Blank(w, h)
    {
      width, height := w, h;
      pixels := new Byte[w * h * 4](_ => 0);
    }

    /**
     * Assigning canvas.width and canvas.height: a new bitmap of the new size,
     * all transparent black.
     */
    method Resize(w: nat, h: nat)
      modifies this
      ensures Valid() && fresh(pixels)
      ensures width == w && height == h && Image() == Blank(w, h)
    {
      width, height := w, h;
      pixels := new Byte[w * h * 4](_ => 0);
    }

    /** ctx.putImageData(src, dx, dy): only the pixels that land on the canvas are written. */
    method PutImageData(src: ImageData, dx: int, dy: int)
      requires Valid()
      modifies pixels
      ensures Valid() && Image() == Put(old(Image()), src, dx, dy)
    {
      ghost var before := Image();
      forall i | 0 <= i < pixels.Length && InImage(src, Column(width, i) - dx, Row(width, i) - dy) {
        pixels[i] := Sample(src, Column(width, i) - dx, Row(width, i) - dy, Channel(i));
      }
      forall i | 0 <= i < pixels.Length
        ensures pixels[i] == Put(before, src, dx, dy).data[i]
      {
        SampleAtIndex(before, i);
      }
      assert pixels[..] == Put(before, src, dx, dy).data;
    }

    /** ctx.clearRect(rx, ry, rw, rh). */
    method ClearRect(rx: int, ry: int, rw: nat, rh: nat)
      requires Valid()
      modifies pixels
      ensures Valid() && Image() == Cleared(old(Image()), rx, ry, rw, rh)
    {
      ghost var before := Image();
      forall i | 0 <= i < pixels.Length && rx <= Column(width, i) < rx + rw && ry <= Row(width, i) < ry + rh {
        pixels[i] := 0;
      }
      forall i | 0 <= i < pixels.Length
        ensures pixels[i] == Cleared(before, rx, ry, rw, rh).data[i]
      {
        SampleAtIndex(before, i);
      }
      assert pixels[..] == Cleared(before, rx, ry, rw, rh).data;
    }
  }
}
