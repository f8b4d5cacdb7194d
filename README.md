# QtRaw decode logic in Dafny

A model of the decision and transcoding logic of QtRaw, the Qt image-reader
plugin for camera RAW files, and of the plugin's capability lookup. The
LibRaw decoder and Qt's image codec are replaced by inputs:

- a `Device` (`raw_handler.dfy`) is a QIODevice with its sequential and
  readable flags and a position. It also carries what LibRaw's
  `open_datastream` answers for its bytes: a status code, and the sensor
  size, flip code and preview size when that code is `LIBRAW_SUCCESS`;
- a `Decoder` (`libraw.dfy`) holds the status codes of `unpack_thumb`,
  `unpack` and `dcraw_process` and the processed-image descriptors that
  `dcraw_make_mem_thumb` and `dcraw_make_mem_image` return. A JPEG
  descriptor also says what Qt's JPEG reader yields for it;
- an `Image` (`qt_types.dfy`) is a QImage reduced to its size and a record of
  where its pixels came from: decoded JPEG, transcoded bytes, rotated,
  resampled (with the transformation mode) or deep-copied.

Files:

- `qt_types.dfy`: QSize, QVariant, the image options, capabilities, and the
  size effect of QImage's constructor, `transformed`, `scaled` and `copy`.
- `libraw.dfy`: the LibRaw values the handler reads.
- `transcode.dfy`: the pixel loop of `RawIOHandler::read`, as the method
  `FillPixels` over an `array<bv8>`, proved against the pixel-by-pixel
  function `Filled`.
- `raw_decode.dfy`: the pure decisions of `read`: final size, oriented
  preview size, thumbnail or full decode, rotation angle, scale mode, and
  `ReadAfterLoad`, the whole result of a read once the decoder is open.
- `raw_handler.dfy`: the class `RawIOHandler`, with the fields of
  `RawIOHandlerPrivate` (`isOpen` stands for `raw`/`stream` being allocated,
  plus `imgdata`, `defaultSize`, `scaledSize`, `quality`), and the methods
  `Load`, `Read`, `SetOption`, `Option`, `SupportsOptionOf` and the two
  `canRead`s.
- `raw_plugin.dfy`: `RawPlugin::capabilities` and `RawPlugin::create`.

Behaviour of the code that is easy to misread, and that the model keeps:

- Channel counts other than 3 are not rejected. The first sample of the
  pixel is copied into all three colour bytes.
- The byte taken from each sample is its first byte in memory, not
  necessarily its most significant one.
- With the default quality of 75, a resampled image always uses smooth
  transformation, because 75 is at least the threshold of 50. Fast
  transformation happens only at quality below 50 on the full-decode path.
- The output of `dcraw_process` is not checked; only `unpack`'s code is.

## Model

| member | source | states |
|---|---|---|
| RawHandler.RawIOHandler.constructor | src/raw-io-handler.cpp:42-46 | a new handler is closed, has invalid default and scaled sizes and quality 75 |
| RawHandler.RawIOHandler.Load | src/raw-io-handler.cpp:86-131 | null or sequential device: false, nothing changes; already open: true, no second open; failed open: false, handler reset, device position restored; success: true, metadata kept, defaultSize is the sensor size swapped for flip 5 and 6 |
| RawHandler.LoadTwice | src/raw-io-handler.cpp:89-122 | a second load after a success opens nothing more; after a failed open a later load on another device opens it afresh |
| RawHandler.RawIOHandler.CanReadDevice | src/raw-io-handler.cpp:156-163 | true exactly when the device is non-null, not sequential and the decoder opens it; after a failed open the device position is restored to its earlier position, after a success it is where the decoder's header reads left it |
| RawHandler.RawIOHandler.CanRead | src/raw-io-handler.cpp:146-153 | answers as the static probe and sets the format to "raw" only on success |
| RawHandler.RawIOHandler.SetOption | src/raw-io-handler.cpp:309-324 | ScaledSize stores the variant's size; Quality stores its integer, -1 becoming 75, with no clamping; every other option changes nothing |
| RawHandler.NormalizedQuality | src/raw-io-handler.cpp:315-319 | -1 maps to 75 and every other value to itself, so -1 is never stored |
| RawHandler.RawIOHandler.Option | src/raw-io-handler.cpp:290-306 | returns the stored value of the option; asking for Size runs load first, with load's full effect; other options change nothing |
| RawHandler.OptionValue | src/raw-io-handler.cpp:290-306 | ImageFormat gives Format_RGB32, Size the default size, ScaledSize the scaled size, Quality the quality |
| RawHandler.SupportsOption | src/raw-io-handler.cpp:327-340 | an option is supported exactly when option() returns a valid variant for it, whatever the state |
| RawHandler.RawIOHandler.SupportsOptionOf | src/raw-io-handler.cpp:327-340 | the method answers as SupportsOption |
| RawHandler.RawIOHandler.Read | src/raw-io-handler.cpp:165-287 | a failed load fails and leaves the caller's image alone; otherwise the result is ReadAfterLoad of the opened metadata, scaled size and quality |
| RawHandler.ReadScaled | tests/qtraw-test.cpp:84-92 | after setting an 800 x 600 scaled size, a successful read yields an 800 x 600 image, given non-empty decoder outputs on both paths |
| RawDecode.DefaultSize | src/raw-io-handler.cpp:124-128 | the default size is valid, and orienting it again gives back the sensor size |
| RawDecode.Oriented | src/raw-io-handler.cpp:126-128 | width and height are swapped exactly for flip codes 5 and 6 |
| RawDecode.PreviewSize | src/raw-io-handler.cpp:176-179 | the preview size is transposed under the same flip codes as the default size |
| RawDecode.FinalSize | src/raw-io-handler.cpp:171-172 | the scaled size when it is valid, else the default size; valid whenever the default size is |
| RawDecode.Hundreds | src/raw-io-handler.cpp:186-187 | C++ division by 100: the remainder lies between 0 and 99 for non-negative values and between -99 and 0 for negative ones |
| RawDecode.UseThumbnail | src/raw-io-handler.cpp:183-193 | a final size within the preview always takes the thumbnail; above quality 75 the thumbnail is taken exactly when the final size is within the preview; for valid sizes, the thumbnail is taken exactly when the final size is within the preview or, at quality up to 75, both dimensions have the same truncated hundreds as the preview's; so it is only taken within the preview or within 100 pixels of it per side |
| RawDecode.ThumbnailBoundaries | src/raw-io-handler.cpp:183-193 | at quality 75, 199x50 against a 100x50 preview takes the thumbnail, while 200x50 against 199x50 and 150x50 against 99x50 do not; at quality 76, 199x50 against 100x50 does not |
| RawDecode.RotationAngle | src/raw-io-handler.cpp:234-244 | flip 3 gives 180, 5 gives -90, 6 gives 90, anything else 0; the angle is a multiple of 90, and rotating a non-null image by it swaps the image's own width and height exactly for flips 5 and 6 (as Oriented does) and keeps them otherwise |
| RawDecode.ScaleMode | src/raw-io-handler.cpp:267-273 | smooth exactly when quality is at least 50 or the thumbnail path was used, fast otherwise |
| RawDecode.Deliver | src/raw-io-handler.cpp:267-282 | a non-null image ends up exactly at a non-empty final size, resampled ignoring aspect ratio with ScaleMode's mode; an image already at the final size passes through, deep-copied when it is a bitmap |
| RawDecode.ReadAfterLoad | src/raw-io-handler.cpp:171-286 | read fails exactly when the chosen path's unpack code is not success or its JPEG does not decode; a success with a non-empty final size and a non-empty decoder output has exactly the final size, otherwise a success may deliver a null image; the bitmap branch delivers the transcoded bytes copied or resampled, or a null image, never rotated; resampling uses ScaleMode's mode; the JPEG branch rotates the decoded preview by RotationAngle |
| Transcode.Filled | src/raw-io-handler.cpp:251-261 | writing pixels keeps the buffer length |
| Transcode.FilledAt | src/raw-io-handler.cpp:251-261 | byte c of pixel j is the source byte of channel c when pixel j has been written and c < 3; every other byte, including byte 3 of each pixel and bytes past the last pixel, keeps its prior value |
| Transcode.TranscodedLayout | src/raw-io-handler.cpp:246-261 | for three colours byte 4i is source byte i*pixelSize + 2*colorSize, 4i+1 is i*pixelSize + colorSize, 4i+2 is i*pixelSize; for other counts all three copy byte i*pixelSize; byte 4i+3 is never written |
| Transcode.CoversFromSize | src/raw-io-handler.cpp:246-251 | a buffer of at least width*height*colors*colorSize bytes holds every byte the loop reads |
| Transcode.FillPixels | src/raw-io-handler.cpp:250-261 | the loop leaves the array equal to Filled over its old contents |
| Transcode.TranscodedBuffer | src/raw-io-handler.cpp:246-249 | the Format_RGB32 buffer has 4 bytes per pixel |
| Transcode.TranscodeBitmap | src/raw-io-handler.cpp:246-261 | allocates a fresh width*height*4 buffer and fills it as TranscodedBuffer says |
| QtTypes.RGB32Image | src/raw-io-handler.cpp:262-264 | the bitmap image has the descriptor's size, or is null when a dimension is 0 |
| RawPlugin.CapabilitiesPlan | src/main.cpp:44-80 | a key-set format or "tif"/"tiff" gives CanRead; any other non-empty format gives nothing; the device is probed exactly when the format is empty and the device is present and readable; no answer holds a flag other than CanRead |
| RawPlugin.Capabilities | src/main.cpp:41-81 | the answer is at most CanRead; with an empty format it is CanRead exactly when the device is non-null, readable and opens; without a probe the device is untouched |
| RawPlugin.Create | src/main.cpp:83-90 | a fresh handler in its initial state whose device and format are the arguments |

## Left out

- LibRaw itself (`open_datastream`, `unpack`, `unpack_thumb`, `dcraw_process`, `dcraw_make_mem_*`, `dcraw_clear_mem`): a foreign library, replaced by the `Device` and `Decoder` inputs.
- The `Datastream` adapter: I/O plumbing whose header is not part of this model. How far the decoder's header reads move the device is the input `posAfterOpen`.
- JPEG decoding, rotation and resampling pixels: Qt library code with floating-point filtering. Only their sizes, the requested quality and size, the angle and the mode are modelled.
- Memory ownership: `dcraw_clear_mem` and `delete pixels` are not modelled. The missing release on the JPEG-decode failure path, the `delete` of a `new[]` array and the unchecked null `output` are not reproduced or corrected.
- Transcode.TranscodeBitmap: the C++ buffer from `new uchar[]` is uninitialised; the model starts it at zero. FillPixels and FilledAt are stated for any prior contents, so the fourth byte of each pixel is shown never to be written.
- Transcode.TranscodeBitmap: `numPixels * 4` and the offsets are C++ `int` arithmetic, which overflows for images of 2^29 pixels or more; the model uses unbounded integers and does not capture that overflow.
- RawDecode.ReadAfterLoad: reads require a well-formed decoder output (at least one colour, at least 8 bits, a buffer as large as LibRaw declares it); the C++ code would read out of bounds otherwise.
- RawPlugin.CapabilitiesPlan: the format is compared as a string; the QByteArray-to-QString conversion (UTF-8 decoding, truncation at an embedded NUL byte) is not modelled.
- QVariant conversions are reduced to integer and size variants; `toInt` and `toSize` of any other variant give 0 and an invalid size.
- Logging (`printError`, `qCDebug`, `qCWarning`, the logging category), plugin metadata and moc glue: diagnostics and build glue.
