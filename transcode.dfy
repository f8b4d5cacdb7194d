// The pixel transcoder of RawIOHandler::read: an interleaved LibRaw bitmap of
// `colors` samples of `colorSize` bytes per pixel is turned into a
// 4-byte-per-pixel Format_RGB32 buffer, one pixel per loop iteration.
module Transcode {
  import opened LibRaw

  /** Offset in the source buffer of the byte that lands in output byte
      4 * i + channel (channel 0, 1 or 2). Three-channel pixels are written in
      reverse channel order; any other channel count replicates the first
      sample. The byte taken is always the first byte of the sample. */
  function SourceOffset(colors: int, colorSize: int, i: int, channel: int): int {
    var pixelSize := colors * colorSize;
    if colors == 3 then i * pixelSize + (2 - channel) * colorSize else i * pixelSize
  }

  /** Every byte the first `count` pixels read lies inside `src` */
  predicate Covers(src: seq<bv8>, colors: int, colorSize: int, count: nat) {
    forall i, channel :: 0 <= i < count && 0 <= channel < 3 ==>
      0 <= SourceOffset(colors, colorSize, i, channel) < |src|
  }

  /** Pixel i of a buffer of `count` pixels of `pixelSize` bytes ends inside it */
  lemma PixelWithin(i: int, count: int, pixelSize: int)
    requires 0 <= i < count && pixelSize >= 1
    ensures 0 <= i * pixelSize && i * pixelSize + pixelSize <= count * pixelSize
  {
    var rest := count - (i + 1);
    assert rest * pixelSize >= 0;
    assert count * pixelSize == i * pixelSize + pixelSize + rest * pixelSize;
  }

  lemma CoversFromSize(src: seq<bv8>, colors: int, colorSize: int, count: nat)
    requires colors >= 1 && colorSize >= 1 && count * (colors * colorSize) <= |src|
    ensures Covers(src, colors, colorSize, count)
  {
    var pixelSize := colors * colorSize;
    assert pixelSize >= colorSize by {
      assert pixelSize == colorSize + (colors - 1) * colorSize;
      assert (colors - 1) * colorSize >= 0;
    }
    forall i, channel | 0 <= i < count && 0 <= channel < 3
      ensures 0 <= SourceOffset(colors, colorSize, i, channel) < |src|
    {
      PixelWithin(i, count, pixelSize);
      if colors == 3 {
        assert pixelSize == 3 * colorSize;
        assert 0 <= (2 - channel) * colorSize <= 2 * colorSize;
      }
    }
  }

  /** The buffer after the loop has written its first `count` pixels over `prior` */
  function Filled(prior: seq<bv8>, src: seq<bv8>, colors: int, colorSize: int, count: nat): (r: seq<bv8>)
    requires 4 * count <= |prior|
    requires Covers(src, colors, colorSize, count)
    ensures |r| == |prior|
    decreases count
  {
    if count == 0 then prior
    else
      var buf := Filled(prior, src, colors, colorSize, count - 1);
      var i := count - 1;
      buf[4 * i := src[SourceOffset(colors, colorSize, i, 0)]]
         [4 * i + 1 := src[SourceOffset(colors, colorSize, i, 1)]]
         [4 * i + 2 := src[SourceOffset(colors, colorSize, i, 2)]]
  }

  /** Byte `channel` of pixel j in the filled buffer: taken from the source
      when the pixel has been written and the byte is one of its first three,
      otherwise still the prior byte. */
  lemma {:induction false} FilledAt(prior: seq<bv8>, src: seq<bv8>, colors: int, colorSize: int, count: nat,
                                    j: int, channel: int)
    requires 4 * count <= |prior|
    requires Covers(src, colors, colorSize, count)
    requires 0 <= j && 0 <= channel < 4 && 4 * j + channel < |prior|
    ensures Filled(prior, src, colors, colorSize, count)[4 * j + channel] ==
            if j < count && channel != 3 then src[SourceOffset(colors, colorSize, j, channel)]
            else prior[4 * j + channel]
  {
    if count > 0 {
      FilledAt(prior, src, colors, colorSize, count - 1, j, channel);
    }
  }

  /** The byte layout of a transcoded pixel, in the loop's own index arithmetic */
  lemma TranscodedLayout(prior: seq<bv8>, src: seq<bv8>, colors: int, colorSize: int, numPixels: nat, i: int)
    requires 4 * numPixels <= |prior|
    requires Covers(src, colors, colorSize, numPixels)
    requires 0 <= i < numPixels
    ensures 0 <= i * (colors * colorSize) &&
            (colors == 3 ==> i * (colors * colorSize) + 2 * colorSize < |src|) &&
            i * (colors * colorSize) < |src|
    ensures var out, pixelSize := Filled(prior, src, colors, colorSize, numPixels), colors * colorSize;
      (colors == 3 ==>
         out[4 * i] == src[i * pixelSize + 2 * colorSize] &&
         out[4 * i + 1] == src[i * pixelSize + colorSize] &&
         out[4 * i + 2] == src[i * pixelSize]) &&
      (colors != 3 ==>
         out[4 * i] == src[i * pixelSize] &&
         out[4 * i + 1] == src[i * pixelSize] &&
         out[4 * i + 2] == src[i * pixelSize]) &&
      out[4 * i + 3] == prior[4 * i + 3]
  {
    FilledAt(prior, src, colors, colorSize, numPixels, i, 0);
    FilledAt(prior, src, colors, colorSize, numPixels, i, 1);
    FilledAt(prior, src, colors, colorSize, numPixels, i, 2);
    FilledAt(prior, src, colors, colorSize, numPixels, i, 3);
    var pixelSize := colors * colorSize;
    if colors == 3 {
      assert SourceOffset(colors, colorSize, i, 0) == i * pixelSize + 2 * colorSize;
      assert SourceOffset(colors, colorSize, i, 1) == i * pixelSize + colorSize;
      assert SourceOffset(colors, colorSize, i, 2) == i * pixelSize;
    } else {
      assert SourceOffset(colors, colorSize, i, 0) == i * pixelSize;
      assert SourceOffset(colors, colorSize, i, 1) == i * pixelSize;
      assert SourceOffset(colors, colorSize, i, 2) == i * pixelSize;
    }
  }

  /** The transcoding loop: `data` walks the source one pixel at a time. */
  method FillPixels(pixels: array<bv8>, src: seq<bv8>, colors: int, colorSize: int, numPixels: nat)
    requires 4 * numPixels <= pixels.Length
    requires Covers(src, colors, colorSize, numPixels)
    modifies pixels
    ensures pixels[..] == Filled(old(pixels[..]), src, colors, colorSize, numPixels)
  {
    var pixelSize := colors * colorSize;
    var data := 0;
    var i := 0;
    while i < numPixels
      invariant 0 <= i <= numPixels
      invariant data == i * pixelSize
      invariant pixels[..] == Filled(old(pixels[..]), src, colors, colorSize, i)
    {
      ghost var before := pixels[..];
      var red, green, blue := SourceOffset(colors, colorSize, i, 0),
                              SourceOffset(colors, colorSize, i, 1),
                              SourceOffset(colors, colorSize, i, 2);
      assert 0 <= red < |src| && 0 <= green < |src| && 0 <= blue < |src|;
      if colors == 3 {
        assert red == data + 2 * colorSize && green == data + 1 * colorSize && blue == data;
        pixels[i * 4] := src[data + 2 * colorSize];
        pixels[i * 4 + 1] := src[data + 1 * colorSize];
        pixels[i * 4 + 2] := src[data];
      } else {
        assert red == data && green == data && blue == data;
        pixels[i * 4] := src[data];
        pixels[i * 4 + 1] := src[data];
        pixels[i * 4 + 2] := src[data];
      }
      assert pixels[..] == before[4 * i := src[red]][4 * i + 1 := src[green]][4 * i + 2 := src[blue]];
      assert data + pixelSize == (i + 1) * pixelSize;
      i, data := i + 1, data + pixelSize;
    }
  }

  /** The Format_RGB32 bytes RawIOHandler::read makes of a LibRaw bitmap,
      over a buffer whose bytes start out as zero. */
  function TranscodedBuffer(output: ProcessedImage): (r: seq<bv8>)
    requires output.BitmapImage? && output.WellFormed()
    ensures |r| == 4 * (output.width * output.height)
  {
    var numPixels := output.width * output.height;
    CoversFromSize(output.data, output.colors, output.bits / 8, numPixels);
    Filled(seq(4 * numPixels, _ => 0), output.data, output.colors, output.bits / 8, numPixels)
  }

  /** The allocation and loop of RawIOHandler::read's bitmap branch */
  method TranscodeBitmap(output: ProcessedImage) returns (pixels: array<bv8>)
    requires output.BitmapImage? && output.WellFormed()
    ensures fresh(pixels)
    ensures pixels[..] == TranscodedBuffer(output)
  {
    var numPixels := output.width * output.height;
    var colorSize := output.bits / 8;
    pixels := new bv8[numPixels * 4](_ => 0);
    assert pixels[..] == seq(4 * numPixels, _ => 0);
    CoversFromSize(output.data, output.colors, colorSize, numPixels);
    FillPixels(pixels, output.data, output.colors, colorSize, numPixels);
  }
}
