/**
 * PngTextureHelper::LoadBitmapData: turns the decoded image buffer, whose
 * rows run top down with the channels of each pixel in blue-green-red
 * order, into a pixel array mirrored vertically, with rows running bottom
 * up in red-green-blue order. Decoding the PNG file itself is not part of
 * this model.
 */
module PngTexture {
  import opened Math3D

  newtype byte = b: int | 0 <= b < 256

  /** The row length the source computes from the image width. */
  function AsWrittenBytesPerRow(width: nat): nat {
    ((width * 3 + 3) / 4) * 4 - width * 3 % 4
  }

  /** 3 * width modulo 4, by the width modulo 4. */
  lemma TripleMod4(width: nat)
    ensures width % 4 == 0 ==> width * 3 % 4 == 0
    ensures width % 4 == 1 ==> width * 3 % 4 == 3
    ensures width % 4 == 2 ==> width * 3 % 4 == 2
    ensures width % 4 == 3 ==> width * 3 % 4 == 1
  {
    var q, r := width / 4, width % 4;
    assert width * 3 == 4 * (3 * q) + 3 * r;
    if r == 0 {
    } else if r == 1 {
      assert width * 3 == 4 * (3 * q) + 3;
    } else if r == 2 {
      assert width * 3 == 4 * (3 * q + 1) + 2;
    } else {
      assert width * 3 == 4 * (3 * q + 2) + 1;
    }
  }

  /**
   * The formula gives 3 * width when 3 * width is 0 or 2 modulo 4, two
   * bytes more when it is 1 and two bytes fewer when it is 3, which is
   * the case exactly when the width is 1 modulo 4.
   */
  lemma AsWrittenBytesPerRowCases(width: nat)
    ensures width * 3 % 4 == 0 || width * 3 % 4 == 2 ==> AsWrittenBytesPerRow(width) == 3 * width
    ensures width * 3 % 4 == 1 ==> AsWrittenBytesPerRow(width) == 3 * width + 2
    ensures width * 3 % 4 == 3 ==> AsWrittenBytesPerRow(width) == 3 * width - 2
    ensures width * 3 % 4 == 3 <==> width % 4 == 1
  {
    TripleMod4(width);
    var k, r := width * 3 / 4, width * 3 % 4;
    assert width * 3 == 4 * k + r;
    if r == 0 {
      assert (width * 3 + 3) / 4 == k;
    } else {
      assert width * 3 + 3 == 4 * (k + 1) + (r - 1);
      assert (width * 3 + 3) / 4 == k + 1;
    }
  }

  /** The rows of the decoded buffer are packed: three bytes per pixel, no padding. */
  function BytesPerRow(width: nat): nat {
    3 * width
  }

  /** A width is even exactly when it is 0 or 2 modulo 4. */
  lemma EvenByMod4(width: nat)
    ensures width % 2 == 0 <==> width % 4 == 0 || width % 4 == 2
  {
    var q := width / 4;
    assert width == 4 * q + width % 4;
    var r := width % 4;
    if r == 0 {
      assert width / 2 == 2 * q;
    } else if r == 1 {
      assert width / 2 == 2 * q;
    } else if r == 2 {
      assert width / 2 == 2 * q + 1;
    } else {
      assert width / 2 == 2 * q + 1;
    }
  }

  /** The two row lengths agree exactly when 3 * width is even modulo 4, that is, when the width is even. */
  lemma BytesPerRowAgrees(width: nat)
    ensures AsWrittenBytesPerRow(width) == BytesPerRow(width) <==> width % 2 == 0
  {
    AsWrittenBytesPerRowCases(width);
    TripleMod4(width);
    EvenByMod4(width);
    if width % 4 == 1 {
      assert AsWrittenBytesPerRow(width) == 3 * width - 2;
    } else if width % 4 == 3 {
      assert AsWrittenBytesPerRow(width) == 3 * width + 2;
    } else {
      assert AsWrittenBytesPerRow(width) == 3 * width;
    }
  }

  /**
   * The position in the bitmap copy that channel c of output pixel (x, y)
   * is read from: row height - 1 - y, channel 2 - c.
   */
  function SourceIndex(bytesPerRow: nat, height: nat, y: nat, x: nat, c: nat): nat
    requires y < height && c < 3
  {
    MulNonNegative(bytesPerRow, height - 1 - y);
    bytesPerRow * (height - 1 - y) + 3 * x + (2 - c)
  }

  /** The position in the output array that channel c of pixel (x, y) is written to. */
  function TargetIndex(width: nat, y: nat, x: nat, c: nat): nat {
    MulNonNegative(width, y);
    3 * (width * y + x) + c
  }

  /** With the row length the source computes, a width of 1 modulo 4 makes the last pixel of the first output row (x = width - 1) read one byte past the bitmap copy. */
  lemma AsWrittenReadsPastCopy(width: nat, height: nat)
    requires width % 4 == 1 && height >= 1
    ensures SourceIndex(AsWrittenBytesPerRow(width), height, 0, width - 1, 0)
         >= AsWrittenBytesPerRow(width) * height
  {
    AsWrittenBytesPerRowCases(width);
    var bpr := AsWrittenBytesPerRow(width);
    assert bpr * (height - 1) + bpr == bpr * height;
  }

  /** One pixel wide and one high: a row of 1 byte, and the red channel is read at position 2. */
  lemma AsWrittenOverrunExample()
    ensures AsWrittenBytesPerRow(1) == 1
    ensures SourceIndex(AsWrittenBytesPerRow(1), 1, 0, 0, 0) == 2
  {
  }

  lemma MulMonotone(a: nat, b: nat, c: nat)
    requires b <= c
    ensures a * b <= a * c
  {
  }

  /** Every write lands inside the output array. */
  lemma TargetInside(width: nat, height: nat, y: nat, x: nat, c: nat)
    requires y < height && x < width && c < 3
    ensures TargetIndex(width, y, x, c) < width * height * 3
  {
    MulMonotone(width, y + 1, height);
    assert width * (y + 1) == width * y + width;
  }

  /** With packed rows every read lands inside the bitmap copy. */
  lemma SourceInside(width: nat, height: nat, y: nat, x: nat, c: nat)
    requires y < height && x < width && c < 3
    ensures SourceIndex(BytesPerRow(width), height, y, x, c) < BytesPerRow(width) * height
  {
    var bpr := BytesPerRow(width);
    MulMonotone(bpr, height - 1 - y, height - 1);
    assert bpr * (height - 1) + bpr == bpr * height;
  }

  /** The three output bytes of pixel (x, y): the source pixel of the mirrored row, channels reversed. */
  function PixelBytes(bitmap: seq<byte>, width: nat, height: nat, y: nat, x: nat): (p: seq<byte>)
    requires y < height && x < width && |bitmap| >= BytesPerRow(width) * height
    ensures |p| == 3
  {
    SourceInside(width, height, y, x, 0);
    SourceInside(width, height, y, x, 1);
    SourceInside(width, height, y, x, 2);
    var bpr := BytesPerRow(width);
    [bitmap[SourceIndex(bpr, height, y, x, 0)], bitmap[SourceIndex(bpr, height, y, x, 1)],
     bitmap[SourceIndex(bpr, height, y, x, 2)]]
  }

  /** The first n pixels of output row y. */
  function RowBytes(bitmap: seq<byte>, width: nat, height: nat, y: nat, n: nat): (r: seq<byte>)
    requires y < height && n <= width && |bitmap| >= BytesPerRow(width) * height
    ensures |r| == 3 * n
  {
    if n == 0 then [] else RowBytes(bitmap, width, height, y, n - 1) + PixelBytes(bitmap, width, height, y, n - 1)
  }

  /** The first m output rows, top down. */
  function ImageBytes(bitmap: seq<byte>, width: nat, height: nat, m: nat): (r: seq<byte>)
    requires m <= height && |bitmap| >= BytesPerRow(width) * height
    ensures |r| == 3 * (width * m)
  {
    if m == 0 then []
    else
      assert width * m == width * (m - 1) + width;
      ImageBytes(bitmap, width, height, m - 1) + RowBytes(bitmap, width, height, m - 1, width)
  }

  lemma {:induction false} RowBytesAt(bitmap: seq<byte>, width: nat, height: nat, y: nat, n: nat, x: nat, c: nat)
    requires y < height && x < n <= width && c < 3 && |bitmap| >= BytesPerRow(width) * height
    ensures SourceIndex(BytesPerRow(width), height, y, x, c) < |bitmap|
    ensures RowBytes(bitmap, width, height, y, n)[3 * x + c] == bitmap[SourceIndex(BytesPerRow(width), height, y, x, c)]
    decreases n
  {
    SourceInside(width, height, y, x, c);
    if x < n - 1 {
      RowBytesAt(bitmap, width, height, y, n - 1, x, c);
    }
  }

  lemma {:induction false} ImageBytesAt(bitmap: seq<byte>, width: nat, height: nat, m: nat, y: nat, x: nat, c: nat)
    requires y < m <= height && x < width && c < 3 && |bitmap| >= BytesPerRow(width) * height
    ensures SourceIndex(BytesPerRow(width), height, y, x, c) < |bitmap|
    ensures TargetIndex(width, y, x, c) < 3 * (width * m)
    ensures ImageBytes(bitmap, width, height, m)[TargetIndex(width, y, x, c)]
         == bitmap[SourceIndex(BytesPerRow(width), height, y, x, c)]
    decreases m
  {
    TargetInside(width, m, y, x, c);
    assert width * m == width * (m - 1) + width;
    if y == m - 1 {
      RowBytesAt(bitmap, width, height, y, width, x, c);
    } else {
      ImageBytesAt(bitmap, width, height, m - 1, y, x, c);
    }
  }

  /**
   * The pixel array LoadBitmapData fills: width * height * 3 bytes, and
   * the byte of channel c of pixel (x, y) is the byte of channel 2 - c of
   * pixel x on row height - 1 - y of the bitmap.
   */
  lemma FlippedImage(bitmap: seq<byte>, width: nat, height: nat)
    requires |bitmap| >= BytesPerRow(width) * height
    ensures |ImageBytes(bitmap, width, height, height)| == width * height * 3
    ensures forall y: nat, x: nat, c: nat | y < height && x < width && c < 3 ::
      && TargetIndex(width, y, x, c) < width * height * 3
      && SourceIndex(BytesPerRow(width), height, y, x, c) < |bitmap|
      && ImageBytes(bitmap, width, height, height)[TargetIndex(width, y, x, c)]
         == bitmap[SourceIndex(BytesPerRow(width), height, y, x, c)]
  {
    forall y: nat, x: nat, c: nat | y < height && x < width && c < 3
      ensures TargetIndex(width, y, x, c) < width * height * 3
      ensures SourceIndex(BytesPerRow(width), height, y, x, c) < |bitmap|
      ensures ImageBytes(bitmap, width, height, height)[TargetIndex(width, y, x, c)]
           == bitmap[SourceIndex(BytesPerRow(width), height, y, x, c)]
    {
      ImageBytesAt(bitmap, width, height, height, y, x, c);
    }
  }

  /** The first |done| bytes of the pixel array are done. */
  ghost predicate Written(pixels: array<byte>, done: seq<byte>)
    reads pixels
  {
    |done| <= pixels.Length && pixels[..|done|] == done
  }

  /** What the loops have written once channel c of pixel (x, y) is next. */
  ghost function Done(bitmap: seq<byte>, width: nat, height: nat, y: nat, x: nat, c: nat): (d: seq<byte>)
    requires y < height && x < width && c <= 3 && |bitmap| >= BytesPerRow(width) * height
    ensures |d| == 3 * (width * y) + 3 * x + c
  {
    ImageBytes(bitmap, width, height, y) + RowBytes(bitmap, width, height, y, x)
      + PixelBytes(bitmap, width, height, y, x)[..c]
  }

  /**
   * LoadBitmapData for a decoded image of the given size: the dimensions
   * are copied, the format is 24 bits, and the pixel array holds the
   * flipped image. The buffer holds at least one bitmap's worth of bytes.
   */
  method LoadBitmapData(imageWidth: nat, imageHeight: nat, buffer: seq<byte>)
    returns (width: nat, height: nat, format: nat, length: nat, pixels: array<byte>)
    requires |buffer| >= BytesPerRow(imageWidth) * imageHeight
    ensures width == imageWidth && height == imageHeight && format == 24
    ensures length == width * height * 3 && pixels.Length == length
    ensures pixels[..] == ImageBytes(buffer, width, height, height)
  {
    width := imageWidth;
    height := imageHeight;
    format := 24;
    var bytesPerRow := BytesPerRow(width);
    var bitmapSize := bytesPerRow * height;
    var bitmap := buffer[..bitmapSize];
    ImageBytesPrefix(buffer, bitmapSize, width, height, height);
    length := width * height * 3;
    pixels := new byte[length];
    var y := 0;
    while y < height
      invariant y <= height
      invariant Written(pixels, ImageBytes(bitmap, width, height, y))
    {
      CopyRow(pixels, bitmap, width, height, bytesPerRow, y);
      y := y + 1;
    }
    assert 3 * (width * height) == length;
  }

  /** The middle loop: all pixels of output row y, left to right. */
  method CopyRow(pixels: array<byte>, bitmap: seq<byte>, width: nat, height: nat, bytesPerRow: nat, y: nat)
    requires bytesPerRow == BytesPerRow(width) && |bitmap| == bytesPerRow * height
    requires y < height && pixels.Length == width * height * 3
    requires Written(pixels, ImageBytes(bitmap, width, height, y))
    modifies pixels
    ensures Written(pixels, ImageBytes(bitmap, width, height, y + 1))
  {
    var x := 0;
    while x < width
      invariant x <= width
      invariant Written(pixels, ImageBytes(bitmap, width, height, y) + RowBytes(bitmap, width, height, y, x))
    {
      CopyPixel(pixels, bitmap, width, height, bytesPerRow, y, x);
      x := x + 1;
    }
  }

  /** The innermost loop: the three channels of pixel (x, y). */
  method CopyPixel(pixels: array<byte>, bitmap: seq<byte>, width: nat, height: nat, bytesPerRow: nat, y: nat, x: nat)
    requires bytesPerRow == BytesPerRow(width) && |bitmap| == bytesPerRow * height
    requires y < height && x < width && pixels.Length == width * height * 3
    requires Written(pixels, ImageBytes(bitmap, width, height, y) + RowBytes(bitmap, width, height, y, x))
    modifies pixels
    ensures Written(pixels, ImageBytes(bitmap, width, height, y) + RowBytes(bitmap, width, height, y, x + 1))
  {
    var c := 0;
    assert Done(bitmap, width, height, y, x, 0)
        == ImageBytes(bitmap, width, height, y) + RowBytes(bitmap, width, height, y, x);
    while c < 3
      invariant c <= 3
      invariant Written(pixels, Done(bitmap, width, height, y, x, c))
    {
      CopyChannel(pixels, bitmap, width, height, bytesPerRow, y, x, c);
      c := c + 1;
    }
    assert Done(bitmap, width, height, y, x, 3)
        == ImageBytes(bitmap, width, height, y) + RowBytes(bitmap, width, height, y, x + 1);
  }

  /** One step of the innermost loop: channel c of pixel (x, y) is written and the written prefix grows by that byte. */
  method CopyChannel(pixels: array<byte>, bitmap: seq<byte>, width: nat, height: nat, bytesPerRow: nat, y: nat, x: nat, c: nat)
    requires bytesPerRow == BytesPerRow(width) && |bitmap| == bytesPerRow * height
    requires y < height && x < width && c < 3 && pixels.Length == width * height * 3
    requires Written(pixels, Done(bitmap, width, height, y, x, c))
    modifies pixels
    ensures Written(pixels, Done(bitmap, width, height, y, x, c + 1))
  {
    TargetInside(width, height, y, x, c);
    SourceInside(width, height, y, x, c);
    ghost var before := Done(bitmap, width, height, y, x, c);
    pixels[3 * (width * y + x) + c] := bitmap[bytesPerRow * ((height - 1) - y) + 3 * x + (2 - c)];
    assert pixels[..|before| + 1] == before + [pixels[|before|]];
    ghost var p := PixelBytes(bitmap, width, height, y, x);
    assert p[..c + 1] == p[..c] + [p[c]];
  }

  /** The flipped image reads only the first bitmapSize bytes of the buffer. */
  lemma {:induction false} ImageBytesPrefix(buffer: seq<byte>, size: nat, width: nat, height: nat, m: nat)
    requires size == BytesPerRow(width) * height <= |buffer| && m <= height
    ensures ImageBytes(buffer[..size], width, height, m) == ImageBytes(buffer, width, height, m)
    decreases m
  {
    if m > 0 {
      ImageBytesPrefix(buffer, size, width, height, m - 1);
      RowBytesPrefix(buffer, size, width, height, m - 1, width);
    }
  }

  lemma {:induction false} RowBytesPrefix(buffer: seq<byte>, size: nat, width: nat, height: nat, y: nat, n: nat)
    requires size == BytesPerRow(width) * height <= |buffer| && y < height && n <= width
    ensures RowBytes(buffer[..size], width, height, y, n) == RowBytes(buffer, width, height, y, n)
    decreases n
  {
    if n > 0 {
      RowBytesPrefix(buffer, size, width, height, y, n - 1);
      PixelBytesPrefix(buffer, size, width, height, y, n - 1);
    }
  }

  lemma PixelBytesPrefix(buffer: seq<byte>, size: nat, width: nat, height: nat, y: nat, x: nat)
    requires size == BytesPerRow(width) * height <= |buffer| && y < height && x < width
    ensures PixelBytes(buffer[..size], width, height, y, x) == PixelBytes(buffer, width, height, y, x)
  {
    SourceInside(width, height, y, x, 0);
    SourceInside(width, height, y, x, 1);
    SourceInside(width, height, y, x, 2);
  }
}
