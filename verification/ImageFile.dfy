/** Image validation (image.rs): which kind of image a file is, how large, and what
    of it is stored. */
module ImageFile {
  import opened Contracts
  import opened Bytes
  import Png
  import Jpeg

  datatype ImageType = IsPng | IsJpeg | IsGif | IsWebp

  datatype ImageLimits = ImageLimits(maxBytes: nat, maxDimension: nat)

  datatype Validated = Validated(mediaType: ImageType, width: nat, height: nat, bytes: seq<byte>)

  datatype AttachmentError = TooLarge(actual: nat) | UnsupportedImage | MalformedImage | TooManyPixels(width: nat,
      height: nat)

  const GIF87A: seq<byte> := [0x47, 0x49, 0x46, 0x38, 0x37, 0x61]
  const GIF89A: seq<byte> := [0x47, 0x49, 0x46, 0x38, 0x39, 0x61]
  const RIFF: seq<byte> := [0x52, 0x49, 0x46, 0x46]
  const WEBP: seq<byte> := [0x57, 0x45, 0x42, 0x50]
  const VP8: seq<byte> := [0x56, 0x50, 0x38, 0x20]
  const VP8L: seq<byte> := [0x56, 0x50, 0x38, 0x4c]
  const VP8X: seq<byte> := [0x56, 0x50, 0x38, 0x58]
  const START_CODE: seq<byte> := [0x9d, 0x01, 0x2a]

  function Sniff(bytes: seq<byte>): Option<ImageType> {
    if Png.PNG_SIGNATURE <= bytes then Some(IsPng)
    else if |bytes| >= 3 && bytes[0] == 0xff && bytes[1] == 0xd8 && bytes[2] == 0xff then Some(IsJpeg)
    else if GIF87A <= bytes || GIF89A <= bytes then Some(IsGif)
    else if |bytes| >= 12 && bytes[..4] == RIFF && bytes[8..12] == WEBP then Some(IsWebp)
    else None
  }

  function GifDimensions(bytes: seq<byte>): Option<(nat, nat)> {
    var width, height := ReadLe16(bytes, 6), ReadLe16(bytes, 8);
    if width.Some? && height.Some? then Some((width.value, height.value)) else None
  }

  /** The three kinds of WebP header; sizes are 14 bits, 14 bits less one, 24 bits less one. */
  function WebpDimensions(bytes: seq<byte>): Option<(nat, nat)> {
    if |bytes| < 16 then None
    else if bytes[12..16] == VP8 then
      if 30 <= |bytes| && bytes[23..26] == START_CODE then
        Some((ReadLe16(bytes, 26).value % 0x4000, ReadLe16(bytes, 28).value % 0x4000))
      else None
    else if bytes[12..16] == VP8L then
      if 25 <= |bytes| && bytes[20] == 0x2f then
        var bits := ReadLe24(bytes, 21).value + bytes[24] as int * 0x100_0000;
        Some((bits % 0x4000 + 1, bits / 0x4000 % 0x4000 + 1))
      else None
    else if bytes[12..16] == VP8X then
      if 30 <= |bytes| then Some((ReadLe24(bytes, 24).value + 1, ReadLe24(bytes, 27).value + 1)) else None
    else None
  }

  function Measure(mediaType: ImageType, bytes: seq<byte>): Option<(nat, nat)> {
    match mediaType
    case IsPng => Png.PngDimensions(bytes)
    case IsJpeg => Jpeg.Dimensions(bytes)
    case IsGif => GifDimensions(bytes)
    case IsWebp => WebpDimensions(bytes)
  }

  /** What is stored for an image. */
  ghost predicate Stores(mediaType: ImageType, bytes: seq<byte>, out: seq<byte>) {
    match mediaType
    case IsPng => Png.IsStripped(bytes, out)
    case IsJpeg => Jpeg.Stripped(bytes) == Some(out)
    case _ => out == bytes
  }

  /** A stored image is the same kind of image, as large in pixels and no larger in bytes. */
  lemma {:induction false} StoredIsTheSameImage(mediaType: ImageType, bytes: seq<byte>, out: seq<byte>)
    requires Sniff(bytes) == Some(mediaType) && Measure(mediaType, bytes).Some? && Stores(mediaType, bytes, out)
    ensures |out| <= |bytes| && Sniff(out) == Some(mediaType) && Measure(mediaType, out) == Measure(mediaType, bytes)
  {
    hide Jpeg.Stripped, Png.PngDimensions, Jpeg.HeadOf;
    match mediaType {
      case IsPng =>
        Png.StrippedIsClean(bytes, out);
        Png.StripKeepsDimensions(bytes, out);
      case IsJpeg =>
        Jpeg.NeverLonger(bytes);
        Jpeg.StripKeepsDimensions(bytes);
        JpegSniffs(bytes, out);
      case _ =>
    }
  }

  lemma JpegSniffs(bytes: seq<byte>, out: seq<byte>)
    requires Sniff(bytes) == Some(IsJpeg) && Jpeg.Dimensions(out).Some? && |out| >= 2 && out[..2] == bytes[..2]
    ensures Sniff(out) == Some(IsJpeg)
  {
    assert out[0] == out[..2][0] && out[1] == out[..2][1];
    assert out[2..] != [] && out[2..][0] == Jpeg.FF;
  }

  /** `validate`: accepted exactly within the limits, and what is stored is the same image. */
  method Validate(bytes: seq<byte>, limits: ImageLimits) returns (r: Result<Validated, AttachmentError>)
    ensures r.Ok? ==>
              var v := r.value;
              && Sniff(bytes) == Sniff(v.bytes) == Some(v.mediaType)
              && Measure(v.mediaType, bytes) == Measure(v.mediaType, v.bytes) == Some((v.width, v.height))
              && Stores(v.mediaType, bytes, v.bytes)
              && 0 < v.width <= limits.maxDimension && 0 < v.height <= limits.maxDimension
              && |v.bytes| <= |bytes| <= limits.maxBytes
    ensures r.Err? ==>
              || |bytes| > limits.maxBytes || Sniff(bytes).None?
              || Measure(Sniff(bytes).value, bytes).None?
              || (var (width, height) := Measure(Sniff(bytes).value, bytes).value;
                  width == 0 || height == 0 || width > limits.maxDimension || height > limits.maxDimension)
              || forall out :: !Stores(Sniff(bytes).value, bytes, out)
  {
    hide Png.PngDimensions, Jpeg.Dimensions, Jpeg.Stripped, GifDimensions, WebpDimensions, Png.IsPng, Sniff;
    if |bytes| > limits.maxBytes {
      return Err(TooLarge(|bytes|));
    }
    var sniffed := Sniff(bytes);
    if sniffed.None? {
      return Err(UnsupportedImage);
    }
    var size, out := Measure(sniffed.value, bytes), bytes;
    match sniffed.value {
      case IsPng =>
        var stripped := Png.StripPng(bytes);
        if size.None? || stripped.Err? {
          return Err(MalformedImage);
        }
        out := stripped.value;
      case IsJpeg =>
        var measured := Jpeg.JpegDimensions(bytes);
        var stripped := Jpeg.StripJpeg(bytes);
        if measured.Err? || stripped.Err? {
          return Err(MalformedImage);
        }
        size, out := Some(measured.value), stripped.value;
      case _ =>
        if size.None? {
          return Err(MalformedImage);
        }
    }
    var (width, height) := size.value;
    if width == 0 || height == 0 {
      return Err(MalformedImage);
    }
    if width > limits.maxDimension || height > limits.maxDimension {
      return Err(TooManyPixels(width, height));
    }
    StoredIsTheSameImage(sniffed.value, bytes, out);
    // The size is checked once more here, which never fails: `out` is no longer than `bytes`.
    assert |out| <= limits.maxBytes;
    return Ok(Validated(sniffed.value, width, height, out));
  }
}
