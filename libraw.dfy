// The LibRaw decoder as the handler sees it: status codes, the metadata that
// open_datastream fills in, and the processed-image descriptors that
// dcraw_make_mem_thumb and dcraw_make_mem_image hand back. LibRaw itself is
// not modelled; these values are inputs.
module LibRaw {
  import opened QtTypes

  /** LIBRAW_SUCCESS */
  const Success := 0

  /** An unsigned short field of libraw_data_t or libraw_processed_image_t */
  type UShort = x: int | 0 <= x < 0x1_0000

  /** The part of libraw_data_t that the handler reads after a successful open */
  datatype ImageData = ImageData(
    width: UShort,        // imgdata.sizes.width
    height: UShort,       // imgdata.sizes.height
    flip: int,            // imgdata.sizes.flip
    thumbWidth: UShort,   // imgdata.thumbnail.twidth
    thumbHeight: UShort)  // imgdata.thumbnail.theight

  /** libraw_processed_image_t, by its type field */
  datatype ProcessedImage =
    | JpegImage(data: seq<bv8>, decoded: Option<QSize>)
      // LIBRAW_IMAGE_JPEG; `decoded` is what Qt's JPEG reader yields for these
      // bytes at the requested size and quality (None when it fails)
    | BitmapImage(width: UShort, height: UShort, colors: UShort, bits: UShort, data: seq<bv8>)
      // LIBRAW_IMAGE_BITMAP: interleaved samples, colors * bits/8 bytes per pixel
  {
    /** What LibRaw guarantees of a descriptor it returns */
    predicate WellFormed() {
      match this
      case JpegImage(_, decoded) => decoded.Some? ==> !decoded.value.IsEmpty()
      case BitmapImage(w, h, colors, bits, data) =>
        colors >= 1 && bits >= 8 && w * h * (colors * (bits / 8)) <= |data|
    }

    /** The image has at least one pixel */
    predicate NonEmpty() {
      BitmapImage? ==> width > 0 && height > 0
    }
  }

  /** The answers of the decoder calls made by RawIOHandler::read */
  datatype Decoder = Decoder(
    thumbStatus: int,          // unpack_thumb()
    thumb: ProcessedImage,     // dcraw_make_mem_thumb()
    unpackStatus: int,         // unpack()
    processStatus: int,        // dcraw_process(), whose result is never looked at
    image: ProcessedImage)     // dcraw_make_mem_image()
  {
    predicate WellFormed() { thumb.WellFormed() && image.WellFormed() }
  }
}
