// The Qt value types the RAW plugin exchanges with its host, reduced to the
// parts the plugin reads or writes. Pixel operations that Qt performs with
// floating-point filtering (JPEG decoding, rotation, resampling) are kept
// symbolic: an Image records its size and how its pixels were obtained.
module QtTypes {

  datatype Option<T> = None | Some(value: T)

  /** QSize. A default-constructed QSize is (-1, -1), which is not valid. */
  datatype QSize = QSize(width: int, height: int) {
    /** QSize::isValid */
    predicate IsValid() { width >= 0 && height >= 0 }

    /** QSize::isEmpty */
    predicate IsEmpty() { width < 1 || height < 1 }

    /** QSize::transposed */
    function Transposed(): QSize { QSize(height, width) }
  }

  const InvalidSize := QSize(-1, -1)

  /** The subset of QVariant the handler's options travel in. */
  datatype Variant = Invalid | IntValue(i: int) | SizeValue(s: QSize) {
    /** QVariant::toInt: 0 when the variant holds no integer */
    function ToInt(): int { if IntValue? then i else 0 }

    /** QVariant::toSize: an invalid QSize when the variant holds no size */
    function ToSize(): QSize { if SizeValue? then s else InvalidSize }
  }

  /** QImageIOHandler::ImageOption */
  datatype ImageOption =
    | Size | ClipRect | Description | ScaledClipRect | ScaledSize
    | CompressionRatio | Gamma | Quality | Name | SubType
    | IncrementalReading | Endianness | Animation | BackgroundColor
    | ImageFormat | SupportedSubTypes | OptimizedWrite
    | ProgressiveScanWrite | ImageTransformation

  /** The value of the enumerator QImage::Format_RGB32 */
  const FormatRGB32 := 4

  /** QImageIOPlugin::Capability */
  datatype Capability = CanRead | CanWrite | CanReadIncremental

  /** Qt::TransformationMode */
  datatype TransformationMode = FastTransformation | SmoothTransformation

  /** Where the pixels of an image came from. */
  datatype Pixels =
    | NoPixels                                             // a null QImage
    | JpegDecoded(jpeg: seq<bv8>, quality: int, requested: QSize)
    | Transcoded(bytes: seq<bv8>)                          // 4 bytes per pixel, Format_RGB32
    | Rotated(source: Pixels, angle: int)
    | Resampled(source: Pixels, mode: TransformationMode)
    | Copied(source: Pixels)                               // a deep copy (QImage::copy)

  /** QImage: its size and its pixels. A null QImage has size 0 x 0. */
  datatype Image = Image(size: QSize, pixels: Pixels) {
    /** QImage::isNull */
    predicate IsNull() { pixels.NoPixels? }
  }

  const NullImage := Image(QSize(0, 0), NoPixels)

  /** QImage(data, width, height, QImage::Format_RGB32) over a 4-byte-per-pixel buffer */
  function RGB32Image(bytes: seq<bv8>, width: int, height: int): (img: Image)
    ensures width > 0 && height > 0 ==> img == Image(QSize(width, height), Transcoded(bytes))
    ensures width <= 0 || height <= 0 ==> img.IsNull() && img.size == QSize(0, 0)
  {
    if width > 0 && height > 0 then Image(QSize(width, height), Transcoded(bytes)) else NullImage
  }

  /** QImage::transformed(QTransform().rotate(angle)) for a multiple of 90 degrees */
  function Rotate(img: Image, angle: int): (r: Image)
    requires angle % 90 == 0
    ensures img.IsNull() ==> r.IsNull()
    ensures !img.IsNull() && angle % 180 == 90 ==> r.size == img.size.Transposed()
    ensures !img.IsNull() && angle % 180 == 0 ==> r.size == img.size
  {
    if img.IsNull() then NullImage
    else Image(if angle % 180 == 90 then img.size.Transposed() else img.size, Rotated(img.pixels, angle))
  }

  /** QImage::scaled(target, Qt::IgnoreAspectRatio, mode) */
  function ScaledTo(img: Image, target: QSize, mode: TransformationMode): (r: Image)
    ensures !img.IsNull() && !target.IsEmpty() ==> r.size == target
    ensures img.IsNull() || target.IsEmpty() ==> r == NullImage
    ensures !img.IsNull() && !target.IsEmpty() && target != img.size ==>
              r == Image(target, Resampled(img.pixels, mode))
  {
    if img.IsNull() || target.IsEmpty() then NullImage
    else if target == img.size then img
    else Image(target, Resampled(img.pixels, mode))
  }

  /** QImage::copy: a deep copy with the same size */
  function CopyOf(img: Image): (r: Image)
    ensures r.size == img.size && r.IsNull() == img.IsNull()
  {
    if img.IsNull() then img else Image(img.size, Copied(img.pixels))
  }
}
