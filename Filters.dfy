/** The invert filter (filterInvert in script.js), run over an RGBA sample array. */
module Filters {
  import opened Raster

  /** The samples after inversion: each colour channel c becomes 255 - c, alpha is kept. */
  function Inverted(data: seq<Byte>): (r: seq<Byte>)
    ensures |r| == |data|
    // Only the colour channels are touched.
    ensures forall i :: 0 <= i < |data| && i % 4 == Alpha ==> r[i] == data[i]
  {
    seq(|data|, i requires 0 <= i < |data| => if i % 4 == Alpha then data[i] else 255 - data[i])
  }

  /**
   * filterInvert: a loop over the pixels in steps of four that rewrites the
   * red, green and blue samples in place. A write past the end of a typed array
   * is ignored, so a trailing partial pixel is handled sample by sample.
   */
  method InvertInPlace(data: array<Byte>)
    modifies data
    ensures data[..] == Inverted(old(data[..]))
  {
    ghost var before := data[..];
    var i := 0;
    while i < data.Length
      invariant 0 <= i && i % 4 == 0
      invariant forall j :: 0 <= j < data.Length && j < i ==> data[j] == Inverted(before)[j]
      invariant forall j :: i <= j < data.Length ==> data[j] == before[j]
    {
      data[i] := 255 - data[i];
      if i + 1 < data.Length {
        data[i + 1] := 255 - data[i + 1];
      }
      if i + 2 < data.Length {
        data[i + 2] := 255 - data[i + 2];
      }
      i := i + 4;
    }
  }

  /** Inverting twice gives back the original samples exactly. */
  lemma InvertTwice(data: seq<Byte>)
    ensures Inverted(Inverted(data)) == data
  {
    assert forall i :: 0 <= i < |data| ==> Inverted(Inverted(data))[i] == data[i];
  }

  /**
   * Per pixel: inversion keeps the alpha channel of every pixel and maps every
   * colour channel c to 255 - c.
   */
  lemma InvertedSample(img: ImageData, x: nat, y: nat, c: nat)
    requires img.Valid() && x < img.width && y < img.height && c < 4
    ensures var inv := ImageData(img.width, img.height, Inverted(img.data));
      Sample(inv, x, y, c) == if c == Alpha then Sample(img, x, y, c) else 255 - Sample(img, x, y, c)
  {
    OffsetBound(img.width, img.height, x, y, c);
    DecodeOffset(img.width, x, y, c);
  }
}
