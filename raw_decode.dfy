// The decisions RawIOHandler::read takes once the decoder is open: the final
// size, the oriented preview size, thumbnail or full decode, the preview
// rotation, the scaling mode, and the image that comes out.
module RawDecode {
  import opened QtTypes
  import opened LibRaw
  import opened Transcode

  /** HIGH_QUALITY_THRESHOLD, as in Qt's JPEG plugin */
  const HighQualityThreshold := 50

  /** DEFAULT_QUALITY */
  const DefaultQuality := 75

  /** C++ integer division by 100, which truncates toward zero */
  function Hundreds(a: int): (q: int)
    ensures a >= 0 ==> 0 <= a - 100 * q < 100
    ensures a < 0 ==> -100 < a - 100 * q <= 0
  {
    if a >= 0 then a / 100 else -((-a) / 100)
  }

  /** Flip codes 5 and 6 turn the picture by a quarter, swapping its axes */
  predicate SwapsAxes(flip: int) { flip == 5 || flip == 6 }

  /** A LibRaw (pre-rotation) size as displayed under `flip` */
  function Oriented(s: QSize, flip: int): (r: QSize)
    ensures SwapsAxes(flip) ==> r.width == s.height && r.height == s.width
    ensures !SwapsAxes(flip) ==> r == s
  {
    if flip == 5 || flip == 6 then s.Transposed() else s
  }

  /** The size recorded as defaultSize once the decoder is open */
  function DefaultSize(info: ImageData): (r: QSize)
    ensures r.IsValid()
    ensures Oriented(r, info.flip) == QSize(info.width, info.height)
  {
    Oriented(QSize(info.width, info.height), info.flip)
  }

  /** The size of the embedded preview, oriented like the default size */
  function PreviewSize(info: ImageData): (r: QSize)
    ensures r.IsValid()
    ensures Oriented(r, info.flip) == QSize(info.thumbWidth, info.thumbHeight)
  {
    Oriented(QSize(info.thumbWidth, info.thumbHeight), info.flip)
  }

  /** The size read delivers: the scaled size when one was set, else the default size */
  function FinalSize(scaledSize: QSize, defaultSize: QSize): (r: QSize)
    ensures scaledSize.IsValid() ==> r == scaledSize
    ensures !scaledSize.IsValid() ==> r == defaultSize
    ensures defaultSize.IsValid() ==> r.IsValid()
  {
    if scaledSize.IsValid() then scaledSize else defaultSize
  }

  /** The final size fits inside the preview in both dimensions */
  predicate WithinPreview(final: QSize, preview: QSize) {
    final.width <= preview.width && final.height <= preview.height
  }

  /** Thumbnail or full decode. The preview is taken when it needs no
      enlargement, or, at a quality no higher than the default, when both
      dimensions fall in the same hundred as the preview's. */
  function UseThumbnail(final: QSize, preview: QSize, quality: int): (b: bool)
    ensures WithinPreview(final, preview) ==> b
    ensures quality > DefaultQuality ==> (b <==> WithinPreview(final, preview))
    ensures (quality <= DefaultQuality && final.IsValid() && preview.IsValid() &&
             final.width / 100 == preview.width / 100 && final.height / 100 == preview.height / 100) ==> b
    ensures (b && final.IsValid() && preview.IsValid()) ==>
              WithinPreview(final, preview) ||
              (-100 < final.width - preview.width < 100 && -100 < final.height - preview.height < 100)
    ensures (final.IsValid() && preview.IsValid()) ==>
              (b <==> (quality <= DefaultQuality &&
                       final.width / 100 == preview.width / 100 && final.height / 100 == preview.height / 100) ||
                      WithinPreview(final, preview))
  {
    (quality <= DefaultQuality &&
     Hundreds(final.width) == Hundreds(preview.width) &&
     Hundreds(final.height) == Hundreds(preview.height))
    ||
    (final.width <= preview.width && final.height <= preview.height)
  }

  /** The hundreds test is exact at its boundaries: at the default quality a
      199-wide request is served by a 100-wide preview, a 200-wide one is not
      served by a 199-wide preview, and neither is a 150-wide one by a 99-wide
      preview. */
  lemma ThumbnailBoundaries()
    ensures UseThumbnail(QSize(199, 50), QSize(100, 50), DefaultQuality)
    ensures !UseThumbnail(QSize(200, 50), QSize(199, 50), DefaultQuality)
    ensures !UseThumbnail(QSize(150, 50), QSize(99, 50), DefaultQuality)
    ensures !UseThumbnail(QSize(199, 50), QSize(100, 50), DefaultQuality + 1)
  {
  }

  /** The rotation applied to a decoded JPEG preview for a flip code */
  function RotationAngle(flip: int): (angle: int)
    ensures angle == 180 <==> flip == 3
    ensures angle == -90 <==> flip == 5
    ensures angle == 90 <==> flip == 6
    ensures angle == 0 <==> flip != 3 && flip != 5 && flip != 6
    ensures angle % 90 == 0
    ensures forall img: Image :: !img.IsNull() ==> Rotate(img, angle).size == Oriented(img.size, flip)
  {
    if flip == 3 then 180
    else if flip == 5 then -90
    else if flip == 6 then 90
    else 0
  }

  /** The resampling mode used when the produced image has the wrong size */
  function ScaleMode(quality: int, useThumbnail: bool): (mode: TransformationMode)
    ensures mode == SmoothTransformation <==> quality >= HighQualityThreshold || useThumbnail
    ensures useThumbnail ==> mode == SmoothTransformation
    ensures mode == FastTransformation ==> quality < HighQualityThreshold && !useThumbnail
  {
    if quality >= HighQualityThreshold || useThumbnail then SmoothTransformation else FastTransformation
  }

  /** The last step of read: scale to the final size, or pass the image
      through (copying a bitmap, whose buffer read frees) */
  function Deliver(unscaled: Image, final: QSize, quality: int, useThumbnail: bool, bitmap: bool): (r: Image)
    ensures unscaled.size == final ==> r.size == final
    ensures !unscaled.IsNull() && !final.IsEmpty() ==> r.size == final
    ensures unscaled.size != final && !unscaled.IsNull() && !final.IsEmpty() ==>
            r == Image(final, Resampled(unscaled.pixels, ScaleMode(quality, useThumbnail)))
    ensures unscaled.size == final ==> r == if bitmap then CopyOf(unscaled) else unscaled
  {
    if unscaled.size != final then ScaledTo(unscaled, final, ScaleMode(quality, useThumbnail))
    else if bitmap then CopyOf(unscaled)
    else unscaled
  }

  /** The pixels as they were before any resampling */
  function BeforeScaling(p: Pixels): Pixels {
    if p.Resampled? then p.source else p
  }

  datatype ReadFailure =
    | UnpackFailed(code: int)   // unpack_thumb() or unpack() did not return LIBRAW_SUCCESS
    | PreviewDecodeFailed       // Qt's JPEG reader could not decode the preview

  datatype ReadResult = Failed(reason: ReadFailure) | Delivered(image: Image)

  /** The path read takes for the handler's current state */
  function ChosenPath(info: ImageData, scaledSize: QSize, quality: int): bool {
    UseThumbnail(FinalSize(scaledSize, DefaultSize(info)), PreviewSize(info), quality)
  }

  /** The processed image the chosen path yields */
  function ChosenOutput(dec: Decoder, useThumbnail: bool): ProcessedImage {
    if useThumbnail then dec.thumb else dec.image
  }

  /** The status code read checks on the chosen path; dcraw_process's is not one */
  function ChosenStatus(dec: Decoder, useThumbnail: bool): int {
    if useThumbnail then dec.thumbStatus else dec.unpackStatus
  }

  /** What RawIOHandler::read produces once the decoder is open */
  function ReadAfterLoad(info: ImageData, scaledSize: QSize, quality: int, dec: Decoder): (r: ReadResult)
    requires dec.WellFormed()
    ensures var thumb := ChosenPath(info, scaledSize, quality);
      r.Failed? <==>
        ChosenStatus(dec, thumb) != Success ||
        (ChosenOutput(dec, thumb).JpegImage? && ChosenOutput(dec, thumb).decoded.None?)
    ensures var final := FinalSize(scaledSize, DefaultSize(info));
      r.Delivered? && !final.IsEmpty() && ChosenOutput(dec, ChosenPath(info, scaledSize, quality)).NonEmpty() ==>
        r.image.size == final
    ensures var thumb := ChosenPath(info, scaledSize, quality);
      var output := ChosenOutput(dec, thumb);
      r.Delivered? && output.BitmapImage? ==>
        var buffer := Transcoded(TranscodedBuffer(output));
        r.image.pixels in {NoPixels, Copied(buffer), Resampled(buffer, ScaleMode(quality, thumb))}
    ensures var final, thumb := FinalSize(scaledSize, DefaultSize(info)), ChosenPath(info, scaledSize, quality);
      var output, angle := ChosenOutput(dec, thumb), RotationAngle(info.flip);
      r.Delivered? && output.JpegImage? && !final.IsEmpty() ==>
        var decoded := JpegDecoded(output.data, quality, final);
        BeforeScaling(r.image.pixels) == if angle != 0 then Rotated(decoded, angle) else decoded
    ensures r.Delivered? && r.image.pixels.Resampled? ==>
      r.image.pixels.mode == ScaleMode(quality, ChosenPath(info, scaledSize, quality))
  {
    var final := FinalSize(scaledSize, DefaultSize(info));
    var thumb := UseThumbnail(final, PreviewSize(info), quality);
    var status := ChosenStatus(dec, thumb);
    if status != Success then Failed(UnpackFailed(status))
    else
      var output := ChosenOutput(dec, thumb);
      match output
      case JpegImage(data, decoded) =>
        if decoded.None? then Failed(PreviewDecodeFailed)
        else
          var img := Image(decoded.value, JpegDecoded(data, quality, final));
          var angle := RotationAngle(info.flip);
          var unscaled := if info.flip != 0 && angle != 0 then Rotate(img, angle) else img;
          Delivered(Deliver(unscaled, final, quality, thumb, false))
      case BitmapImage(width, height, _, _, _) =>
        var unscaled := RGB32Image(TranscodedBuffer(output), width, height);
        Delivered(Deliver(unscaled, final, quality, thumb, true))
  }
}
