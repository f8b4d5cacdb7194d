// RawIOHandler and its private state RawIOHandlerPrivate: a lazy, idempotent
// open of the LibRaw decoder over the handler's device, a small option store,
// and read.
module RawHandler {
  import opened QtTypes
  import opened LibRaw
  import opened Transcode
  import opened RawDecode

  /** A QIODevice, together with what LibRaw::open_datastream reports for its bytes */
  class Device {
    const sequential: bool     // QIODevice::isSequential
    const readable: bool       // QIODevice::isReadable
    const openCode: int        // the code open_datastream returns for these bytes
    const openData: ImageData  // the metadata it fills in when that code is LIBRAW_SUCCESS
    const posAfterOpen: int    // where its header reads leave the device
    var pos: int               // QIODevice::pos
    ghost var decoderOpens: nat  // how many times open_datastream has run over this device

    constructor (sequential: bool, readable: bool, openCode: int, openData: ImageData, posAfterOpen: int, pos: int)
      ensures this.sequential == sequential && this.readable == readable
      ensures this.openCode == openCode && this.openData == openData
      ensures this.posAfterOpen == posAfterOpen && this.pos == pos && decoderOpens == 0
    {
      this.sequential, this.readable := sequential, readable;
      this.openCode, this.openData := openCode, openData;
      this.posAfterOpen, this.pos := posAfterOpen, pos;
      decoderOpens := 0;
    }
  }

  /** What RawIOHandler::canRead(QIODevice*) answers for a device */
  predicate CanOpen(device: Device?) {
    device != null && !device.sequential && device.openCode == Success
  }

  /** QImageIOHandler::supportsOption for this handler */
  function SupportsOption(option: ImageOption): (b: bool)
    ensures b ==> forall d, s, q :: OptionValue(option, d, s, q) != Invalid
    ensures !b ==> forall d, s, q :: OptionValue(option, d, s, q) == Invalid
  {
    match option
    case ImageFormat | Size | ScaledSize | Quality => true
    case _ => false
  }

  /** The value RawIOHandler::option returns, given the private state at that point */
  function OptionValue(option: ImageOption, defaultSize: QSize, scaledSize: QSize, quality: int): (v: Variant)
    ensures option == ImageFormat ==> v == IntValue(FormatRGB32)
    ensures option == Size ==> v == SizeValue(defaultSize)
    ensures option == ScaledSize ==> v == SizeValue(scaledSize)
    ensures option == Quality ==> v == IntValue(quality)
  {
    match option
    case ImageFormat => IntValue(FormatRGB32)
    case Size => SizeValue(defaultSize)
    case ScaledSize => SizeValue(scaledSize)
    case Quality => IntValue(quality)
    case _ => Invalid
  }

  /** The quality setOption stores for an integer: -1 selects the default,
      every other value is kept as it is, without clamping to 0..100 */
  function NormalizedQuality(value: int): (q: int)
    ensures value == -1 ==> q == DefaultQuality
    ensures value != -1 ==> q == value
    ensures q != -1
  {
    if value == -1 then DefaultQuality else value
  }

  class RawIOHandler {
    // QImageIOHandler's state
    var device: Device?
    var format: string

    // RawIOHandlerPrivate's state
    var isOpen: bool          // `raw` and `stream` are allocated
    var imgdata: ImageData    // raw->imgdata, meaningful while isOpen
    var defaultSize: QSize
    var scaledSize: QSize
    var quality: int

    /** While the decoder is open, defaultSize is its oriented sensor size */
    ghost predicate Valid()
      reads this
    {
      isOpen ==> defaultSize == DefaultSize(imgdata)
    }

    /** A handler as RawIOHandler::RawIOHandler leaves it */
    ghost predicate Initial()
      reads this
    {
      !isOpen && defaultSize == InvalidSize && scaledSize == InvalidSize && quality == DefaultQuality
    }

    constructor ()
      ensures Valid() && Initial()
      ensures device == null && format == []
    {
      device, format := null, [];
      isOpen := false;
      imgdata := ImageData(0, 0, 0, 0, 0);
      defaultSize, scaledSize := InvalidSize, InvalidSize;
      quality := DefaultQuality;
    }

    /** QImageIOHandler::setDevice */
    method SetDevice(d: Device?)
      requires Valid()
      modifies this`device
      ensures Valid()
      ensures device == d
    {
      device := d;
    }

    /** QImageIOHandler::setFormat */
    method SetFormat(f: string)
      requires Valid()
      modifies this`format
      ensures Valid()
      ensures format == f
    {
      format := f;
    }

    /** The effect of RawIOHandlerPrivate::load(dev) returning `ok` */
    twostate predicate LoadDone(dev: Device?, ok: bool)
      reads this, dev
    {
      device == old(device) && format == old(format) &&
      scaledSize == old(scaledSize) && quality == old(quality) &&
      if dev == null || dev.sequential then
        // rejected: nothing changes
        !ok && unchanged(this) && (dev != null ==> unchanged(dev))
      else if old(isOpen) then
        // already open: no second open, nothing changes
        ok && unchanged(this) && unchanged(dev)
      else if dev.openCode != Success then
        // the open failed: the handler is reset and the device rewound
        !ok && !isOpen && defaultSize == old(defaultSize) && imgdata == old(imgdata) &&
        dev.pos == old(dev.pos) && dev.decoderOpens == old(dev.decoderOpens) + 1
      else
        // opened now
        ok && isOpen && imgdata == dev.openData && defaultSize == DefaultSize(dev.openData) &&
        dev.pos == dev.posAfterOpen && dev.decoderOpens == old(dev.decoderOpens) + 1
    }

    /** RawIOHandlerPrivate::load */
    method Load(dev: Device?) returns (ok: bool)
      requires Valid()
      modifies this, dev
      ensures Valid()
      ensures LoadDone(dev, ok)
    {
      if dev == null { return false; }
      if dev.sequential { return false; }

      if isOpen { return true; }

      var pos := dev.pos;
      dev.pos := 0;

      isOpen := true;
      dev.decoderOpens := dev.decoderOpens + 1;
      var ret := dev.openCode;
      if ret != Success {
        dev.pos := pos;
        isOpen := false;
        return false;
      }
      dev.pos := dev.posAfterOpen;
      imgdata := dev.openData;

      defaultSize := QSize(imgdata.width, imgdata.height);
      if imgdata.flip == 5 || imgdata.flip == 6 {
        defaultSize := defaultSize.Transposed();
      }
      return true;
    }

    /** RawIOHandler::canRead(QIODevice*): opens the device in a handler of its own */
    static method CanReadDevice(dev: Device?) returns (ok: bool)
      modifies dev
      ensures ok == CanOpen(dev)
      ensures dev != null ==> dev.pos == if ok then dev.posAfterOpen else old(dev.pos)
      ensures dev != null ==>
        dev.decoderOpens == old(dev.decoderOpens) + if dev.sequential then 0 else 1
    {
      if dev == null { return false; }
      var handler := new RawIOHandler();
      ok := handler.Load(dev);
    }

    /** RawIOHandler::canRead(): probes the handler's device without opening this handler */
    method CanRead() returns (ok: bool)
      requires Valid()
      modifies this`format, device
      ensures Valid()
      ensures ok == CanOpen(device)
      ensures format == if ok then "raw" else old(format)
      ensures device != null ==> device.pos == if ok then device.posAfterOpen else old(device.pos)
    {
      ok := CanReadDevice(device);
      if ok {
        SetFormat("raw");
      }
    }

    /** RawIOHandler::setOption */
    method SetOption(option: ImageOption, value: Variant)
      requires Valid()
      modifies this`scaledSize, this`quality
      ensures Valid()
      ensures scaledSize == if option == ScaledSize then value.ToSize() else old(scaledSize)
      ensures quality == if option == Quality then NormalizedQuality(value.ToInt()) else old(quality)
    {
      match option
      case ScaledSize =>
        scaledSize := value.ToSize();
      case Quality =>
        quality := value.ToInt();
        if quality == -1 {
          quality := DefaultQuality;
        }
      case _ =>
    }

    /** RawIOHandler::option: asking for Size opens the decoder first */
    method Option(option: ImageOption) returns (v: Variant, ghost loaded: bool)
      requires Valid()
      modifies this, device
      ensures Valid()
      ensures option == Size ==> LoadDone(old(device), loaded)
      ensures option != Size ==> unchanged(this) && (device != null ==> unchanged(device))
      ensures v == OptionValue(option, defaultSize, scaledSize, quality)
    {
      loaded := false;
      if option == Size {
        loaded := Load(device);
      }
      v := OptionValue(option, defaultSize, scaledSize, quality);
    }

    /** RawIOHandler::supportsOption: the answer is the one SupportsOption specifies */
    method SupportsOptionOf(option: ImageOption) returns (b: bool)
      ensures b == SupportsOption(option)
    {
      b := SupportsOption(option);
    }

    /** RawIOHandler::read. On failure the caller's image (`prior`) is left as it was. */
    method Read(dec: Decoder, prior: Image) returns (ok: bool, image: Image, ghost loaded: bool)
      requires Valid() && dec.WellFormed()
      modifies this, device
      ensures Valid()
      ensures LoadDone(old(device), loaded)
      ensures !loaded ==> !ok && image == prior
      ensures loaded ==>
        var r := ReadAfterLoad(imgdata, scaledSize, quality, dec);
        ok == r.Delivered? && image == if ok then r.image else prior
    {
      var canLoad := Load(device);
      loaded := canLoad;
      if !canLoad {
        ok, image := false, prior; return;
      }

      var finalSize := FinalSize(scaledSize, defaultSize);
      var thumbnailSize := QSize(imgdata.thumbWidth, imgdata.thumbHeight);
      if imgdata.flip == 5 || imgdata.flip == 6 {
        thumbnailSize := thumbnailSize.Transposed();
      }
      var useThumbnail := UseThumbnail(finalSize, thumbnailSize, quality);

      var output: ProcessedImage;
      if useThumbnail {
        var ret := dec.thumbStatus;
        if ret != Success {
          ok, image := false, prior; return;
        }
        output := dec.thumb;
      } else {
        var ret := dec.unpackStatus;
        // dcraw_process() runs here; its code is not checked
        if ret != Success {
          ok, image := false, prior; return;
        }
        output := dec.image;
      }

      var unscaled: Image;
      match output {
        case JpegImage(data, decoded) =>
          if decoded.None? {
            ok, image := false, prior; return;
          }
          unscaled := Image(decoded.value, JpegDecoded(data, quality, finalSize));
          if imgdata.flip != 0 {
            var angle := RotationAngle(imgdata.flip);
            if angle != 0 {
              unscaled := Rotate(unscaled, angle);
            }
          }
        case BitmapImage(width, height, _, _, _) =>
          var pixels := TranscodeBitmap(output);
          unscaled := RGB32Image(pixels[..], width, height);
      }

      if unscaled.size != finalSize {
        var mode := ScaleMode(quality, useThumbnail);
        image := ScaledTo(unscaled, finalSize, mode);
      } else if output.BitmapImage? {
        image := CopyOf(unscaled);
      } else {
        image := unscaled;
      }
      ok := true;
    }
  }

  /** Loading twice opens the decoder at most once, and a failed open leaves
      the handler ready to try another device. */
  method LoadTwice(h: RawIOHandler, first: Device?, second: Device?) returns (ok1: bool, ok2: bool)
    requires h.Valid() && !h.isOpen
    modifies h, first, second
    ensures ok1 ==> ok2 && first != null && first.decoderOpens == old(first.decoderOpens) + 1
    ensures !ok1 ==> (ok2 <==> CanOpen(second))
    ensures ok1 ==> h.defaultSize == DefaultSize(first.openData)
  {
    ok1 := h.Load(first);
    ok2 := h.Load(if ok1 then first else second);
  }

  /** Reading after asking for an 800 x 600 scaled size yields an 800 x 600
      image, whatever the sensor's own size and aspect ratio. */
  method ReadScaled(h: RawIOHandler, dec: Decoder) returns (ok: bool, image: Image)
    requires h.Valid() && dec.WellFormed() && dec.thumb.NonEmpty() && dec.image.NonEmpty()
    modifies h, h.device
    ensures ok ==> image.size == QSize(800, 600)
  {
    h.SetOption(ScaledSize, SizeValue(QSize(800, 600)));
    ghost var loaded;
    ok, image, loaded := h.Read(dec, NullImage);
  }
}
