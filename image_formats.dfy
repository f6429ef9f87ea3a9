/**
 GetImageData: classify the decoded bitmap's raw format as one of the five image part
 types the deck builder supports, rescale its pixel size and convert that size to EMU.
 Reading the file and decoding the bitmap happen outside the model: an image arrives as
 its path, its bytes, its raw format tag, its pixel size and its resolution.
 */
module ImageFormats {
  import opened Wrappers
  import opened Geometry

  type Byte = x: int | 0 <= x < 256

  /** The raw format tags (GUIDs) the imaging library reports for a decoded bitmap. */
  datatype RawFormat =
    | MemoryBmp | Bmp | Emf | Wmf | Jpeg | Png | Gif | Tiff | Exif | Icon | Heif | Webp | Undefined

  /** The image part types of the package library. */
  datatype ImagePartType = Bmp | Gif | Png | Tiff | Icon | Pcx | Jpeg | Emf | Wmf

  datatype ImageError = UnsupportedFormat(message: string)

  const UnsupportedPrefix: string := "Unsupported image file format: "

  /** The five formats the builder accepts. */
  predicate IsSupported(f: RawFormat) {
    f in {RawFormat.Bmp, RawFormat.Gif, RawFormat.Jpeg, RawFormat.Png, RawFormat.Tiff}
  }

  /** The raw format each supported part type is produced from; none for the others. */
  function SourceFormat(t: ImagePartType): Option<RawFormat> {
    match t
    case Bmp => Some(RawFormat.Bmp)
    case Gif => Some(RawFormat.Gif)
    case Jpeg => Some(RawFormat.Jpeg)
    case Png => Some(RawFormat.Png)
    case Tiff => Some(RawFormat.Tiff)
    case _ => None
  }

  /** The if/else-if chain on the raw format's GUID; anything else throws, naming the file. */
  function Classify(f: RawFormat, path: string): (r: Result<ImagePartType, ImageError>)
    ensures r.Success? <==> IsSupported(f)
    ensures r.Success? ==> SourceFormat(r.value) == Some(f)
    ensures r.Failure? ==> r.error.message == UnsupportedPrefix + path
  {
    if f == RawFormat.Bmp then Success(ImagePartType.Bmp)
    else if f == RawFormat.Gif then Success(ImagePartType.Gif)
    else if f == RawFormat.Jpeg then Success(ImagePartType.Jpeg)
    else if f == RawFormat.Png then Success(ImagePartType.Png)
    else if f == RawFormat.Tiff then Success(ImagePartType.Tiff)
    else Failure(UnsupportedFormat(UnsupportedPrefix + path))
  }

  /** Classification and SourceFormat are inverse on the five supported formats. */
  lemma ClassifySourceFormat(t: ImagePartType, f: RawFormat, path: string)
    ensures Classify(f, path) == Success(t) <==> SourceFormat(t) == Some(f)
  {
  }

  /** The message of an unsupported-format error ends with the path it names. */
  lemma UnsupportedMessageNamesPath(f: RawFormat, path: string)
    requires !IsSupported(f)
    ensures var m := Classify(f, path).error.message;
      |m| == |UnsupportedPrefix| + |path| && m[|UnsupportedPrefix|..] == path
  {
  }

  /** A bitmap's width and height are positive C# `int`s. */
  type Pixels = x: int | 1 <= x <= 0x7FFF_FFFF witness 1

  datatype ImageFile = ImageFile(
    path: string,
    bytes: seq<Byte>,
    rawFormat: RawFormat,
    width: Pixels,
    height: Pixels,
    horizontalResolution: real,
    verticalResolution: real)

  /** Pixels and resolution to EMU: floating-point arithmetic, kept outside the model. */
  type EmuConversion = (int, real) -> int

  datatype ImageData = ImageData(bytes: seq<Byte>, partType: ImagePartType, pixels: Size, widthEmu: int, heightEmu: int)

  function GetImageData(img: ImageFile, toEmu: EmuConversion): (r: Result<ImageData, ImageError>)
    ensures r.Success? <==> IsSupported(img.rawFormat)
    ensures r.Failure? ==> r.error.message == UnsupportedPrefix + img.path
    ensures r.Success? ==>
      && r.value.bytes == img.bytes
      && SourceFormat(r.value.partType) == Some(img.rawFormat)
      && r.value.pixels == Rescale(Size(img.width, img.height))
      && r.value.widthEmu == toEmu(r.value.pixels.width, img.horizontalResolution)
      && r.value.heightEmu == toEmu(r.value.pixels.height, img.verticalResolution)
  {
    match Classify(img.rawFormat, img.path)
    case Failure(e) => Failure(e)
    case Success(t) =>
      var px := Rescale(Size(img.width, img.height));
      Success(ImageData(img.bytes, t, px, toEmu(px.width, img.horizontalResolution),
                        toEmu(px.height, img.verticalResolution)))
  }

  /** The pixel size handed to the EMU conversion is a real size no taller than 720. */
  lemma ImageDataGeometry(img: ImageFile, toEmu: EmuConversion)
    requires IsSupported(img.rawFormat)
    ensures var px := GetImageData(img, toEmu).value.pixels;
      Positive(px) && px.height <= MaxHeight
      && (img.width <= MaxWidth && img.height <= MaxHeight ==> px == Size(img.width, img.height))
  {
    RescaleKeepsPixelCount(Size(img.width, img.height));
  }
}
