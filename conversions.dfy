/**
 * mltemplate/utils/conversions.py: the channel-layout decisions between PIL images and numpy
 * arrays. Pixels are tuples of byte values, one per channel; PIL's own mode conversion
 * (`Image.convert`) is a library routine and is passed in as a function.
 */
module Conversions {
  import opened Wrappers
  import opened Text

  /** PIL image modes; "1" (bilevel) and the rest are OtherMode. */
  datatype Mode = L | LA | RGB | RGBA | OtherMode(name: string)

  /** One pixel's channel values. */
  type Pixel = seq<int>

  /** A PIL image: its mode, its size and its pixels in row-major order. */
  datatype Image = Image(mode: Mode, height: nat, width: nat, pixels: seq<Pixel>)

  /** numpy dtype kinds that `ndarray_to_pil` distinguishes. */
  datatype DType = Floating | Integer | Bool | OtherType(name: string)

  /** A numpy image array: dtype, shape (H, W) or (H, W, C), and pixels in row-major order. */
  datatype NdArray = NdArray(dtype: DType, shape: seq<nat>, pixels: seq<Pixel>)

  /**
   * The assertions `ndarray_to_pil` raises, the TypeError `PIL.Image.fromarray` raises on a layout
   * it has no mode for, and the IndexError it raises when it reads the size of a zero-dimensional array.
   */
  datatype ConversionError = AssertionError(message: string) | TypeError(message: string) | IndexError(message: string)

  /** `image.shape[-1] if image.ndim == 3 else 1`. */
  function Channels(a: NdArray): nat
  {
    if |a.shape| == 3 then a.shape[2] else 1
  }

  function ModeChannels(m: Mode): nat
  {
    match m
    case L => 1
    case LA => 2
    case RGB => 3
    case RGBA => 4
    case OtherMode(_) => 1
  }

  function DTypeName(t: DType): string
  {
    match t
    case Floating => "float32"
    case Integer => "uint8"
    case Bool => "bool"
    case OtherType(name) => name
  }

  /** Exchanges the first and third channel of every pixel that has three or more (RGB<->BGR, RGBA<->BGRA). */
  function SwapRB(a: NdArray): (b: NdArray)
    ensures b.dtype == a.dtype && b.shape == a.shape && |b.pixels| == |a.pixels|
    ensures forall i :: 0 <= i < |a.pixels| && |a.pixels[i]| >= 3 ==>
      |b.pixels[i]| == |a.pixels[i]| && b.pixels[i][0] == a.pixels[i][2] && b.pixels[i][2] == a.pixels[i][0]
      && b.pixels[i][1] == a.pixels[i][1] && b.pixels[i][3..] == a.pixels[i][3..]
    ensures forall i :: 0 <= i < |a.pixels| && |a.pixels[i]| < 3 ==> b.pixels[i] == a.pixels[i]
  {
    NdArray(a.dtype, a.shape, seq(|a.pixels|, i requires 0 <= i < |a.pixels| => SwapPixel(a.pixels[i])))
  }

  function SwapPixel(p: Pixel): Pixel
  {
    if |p| >= 3 then [p[2], p[1], p[0]] + p[3..] else p
  }

  /** Swapping twice restores the array. */
  lemma SwapRBInvolution(a: NdArray)
    ensures SwapRB(SwapRB(a)) == a
  {
    var b := SwapRB(SwapRB(a));
    forall i | 0 <= i < |a.pixels|
      ensures b.pixels[i] == a.pixels[i]
    {
      var p := a.pixels[i];
      if |p| >= 3 {
        assert SwapPixel(SwapPixel(p)) == [p[0], p[1], p[2]] + p[3..] == p;
      }
    }
  }

  /**
   * `np.array(image)`: an (H, W) array for single-band modes ("1" as bool, "F" as float, the others
   * as integers), (H, W, C) for the multi-band ones ("LA", "RGB", "RGBA", "CMYK" and the
   * three-band "YCbCr", "LAB", "HSV").
   */
  function ToArray(img: Image): (a: NdArray)
    ensures a.pixels == img.pixels
    ensures img.mode == L ==> a.dtype == Integer && |a.shape| == 2 && Channels(a) == 1
    ensures img.mode == RGB ==> a.dtype == Integer && |a.shape| == 3 && Channels(a) == 3
    ensures img.mode == RGBA ==> a.dtype == Integer && |a.shape| == 3 && Channels(a) == 4
    ensures img.mode == OtherMode("1") ==> a.dtype == Bool && |a.shape| == 2
  {
    match img.mode
    case OtherMode(name) =>
      if name == "CMYK" then NdArray(Integer, [img.height, img.width, 4], img.pixels)
      else if name in {"YCbCr", "LAB", "HSV"} then NdArray(Integer, [img.height, img.width, 3], img.pixels)
      else NdArray(if name == "1" then Bool else if name == "F" then Floating else Integer, [img.height, img.width], img.pixels)
    case L => NdArray(Integer, [img.height, img.width], img.pixels)
    case _ => NdArray(Integer, [img.height, img.width, ModeChannels(img.mode)], img.pixels)
  }

  /**
   * The layouts `PIL.Image.fromarray` builds an image from: a one- or two-dimensional bool, integer
   * or float array, or an integer array with 3 or 4 channels. Its mode table has no entry for a
   * trailing channel axis of length 1, for bool or float arrays with channels, or for arrays of four
   * or more dimensions; a zero-dimensional array has a mode but no size.
   */
  predicate FromArrayHandles(a: NdArray)
  {
    (|a.shape| in {1, 2} && !a.dtype.OtherType?) || (|a.shape| == 3 && a.dtype == Integer && a.shape[2] in {3, 4})
  }

  const FromArrayMessage := "Cannot handle this data type"

  /** numpy's `typestr` of the array: "|b1", "|u1", "<f4", or the dtype's own name. */
  function TypeStr(t: DType): string
  {
    match t
    case Floating => "<f4"
    case Integer => "|u1"
    case Bool => "|b1"
    case OtherType(name) => name
  }

  /** ", d" for every given dimension, in order. */
  function DimsText(dims: seq<nat>): string
  {
    if dims == [] then "" else ", " + NatToString(dims[0]) + DimsText(dims[1..])
  }

  /** `fromarray`'s lookup key `(1, 1) + shape[2:], typestr`, as its TypeError prints it. */
  function TypeKeyText(a: NdArray): string
  {
    "(1, 1" + (if |a.shape| > 2 then DimsText(a.shape[2..]) else "") + "), " + TypeStr(a.dtype)
  }

  /** What `fromarray` raises on an array it does not handle. */
  function FromArrayError(a: NdArray): ConversionError
  {
    if |a.shape| == 0 && !a.dtype.OtherType? then IndexError("tuple index out of range")
    else TypeError(FromArrayMessage + ": " + TypeKeyText(a))
  }

  /**
   * `PIL.Image.fromarray`: the mode follows dtype and channel count, a one-dimensional array is a
   * single column, and other layouts raise.
   */
  function FromArray(a: NdArray): (r: Result<Image, ConversionError>)
    ensures r.Success? <==> FromArrayHandles(a)
    ensures r.Failure? ==> r.error == FromArrayError(a)
    ensures r.Success? ==> r.value.pixels == a.pixels && r.value.height == a.shape[0]
    ensures r.Success? ==> r.value.width == if |a.shape| == 1 then 1 else a.shape[1]
    ensures r.Success? && |a.shape| <= 2 ==>
      r.value.mode == (if a.dtype == Bool then OtherMode("1") else if a.dtype == Floating then OtherMode("F") else L)
    ensures r.Success? && |a.shape| == 3 ==> r.value.mode == (if a.shape[2] == 3 then RGB else RGBA)
  {
    if !FromArrayHandles(a) then Failure(FromArrayError(a))
    else
      var mode := if |a.shape| == 3 then (if a.shape[2] == 3 then RGB else RGBA)
                  else if a.dtype == Bool then OtherMode("1")
                  else if a.dtype == Floating then OtherMode("F") else L;
      Success(Image(mode, a.shape[0], if |a.shape| == 1 then 1 else a.shape[1], a.pixels))
  }

  /** `(image * 255).astype(np.uint8)` on a float array; the scaling of the values is not modelled. */
  function ToBytes(a: NdArray): (b: NdArray)
    ensures b.dtype == Integer && b.shape == a.shape && b.pixels == a.pixels
  {
    NdArray(Integer, a.shape, a.pixels)
  }

  /** The array `ndarray_to_pil` hands on: a float array becomes bytes, any other stays as it is. */
  function ByteArray(image: NdArray): (a: NdArray)
    ensures a.shape == image.shape && a.pixels == image.pixels
    ensures a.dtype == if image.dtype == Floating then Integer else image.dtype
  {
    if image.dtype == Floating then ToBytes(image) else image
  }

  /**
   * `ndarray_to_pil`: floats are scaled to bytes; any dtype other than floating, integer or bool is
   * rejected; so is any channel count other than 1, 3 or 4. Single-channel, "RGB" and bool arrays
   * go to `fromarray` as they are, "BGR" arrays with red and blue exchanged, and any other format
   * is rejected. `fromarray` itself raises on a layout it has no mode for.
   */
  function NdarrayToPil(image: NdArray, format: string): (r: Result<Image, ConversionError>)
    ensures image.dtype.OtherType? ==> r.Failure? && r.error.AssertionError?
    ensures !image.dtype.OtherType? && Channels(image) !in {1, 3, 4} ==> r.Failure? && r.error.AssertionError?
    ensures !image.dtype.OtherType? && Channels(image) in {1, 3, 4} ==>
      (r.Success? <==> (Channels(image) == 1 || format == "RGB" || format == "BGR" || image.dtype == Bool)
                       && FromArrayHandles(ByteArray(image)))
    ensures (!image.dtype.OtherType? && Channels(image) in {1, 3, 4}
             && (Channels(image) == 1 || format == "RGB" || format == "BGR" || image.dtype == Bool)
             && !FromArrayHandles(ByteArray(image))) ==> r == Failure(FromArrayError(ByteArray(image)))
    ensures r.Success? ==> |r.value.pixels| == |image.pixels|
  {
    if image.dtype.OtherType? then
      Failure(AssertionError("Unknown image dtype " + DTypeName(image.dtype)
                             + ". Expected one of bool, np.floating or np.integer."))
    else
      var a := ByteArray(image);
      var n := Channels(a);
      if n !in {1, 3, 4} then
        Failure(AssertionError("Unknown image format with " + NatToString(n)
                               + " number of channels. Expected an image with 1, 3 or 4."))
      else if n == 1 || format == "RGB" || a.dtype == Bool then FromArray(a)
      else if format == "BGR" then FromArray(SwapRB(a))
      else Failure(AssertionError("Unknown image format \"" + format + "\". Expected one of \"RGB\" or \"BGR\"."))
  }

  /**
   * `pil_to_ndarray`: "L" converts to grey (dropping any alpha); otherwise images with alpha are
   * converted to RGBA and those without to RGB, returned as is for "RGB" and with red and blue
   * exchanged for "BGR". Any other format falls off the end and yields None.
   */
  function PilToNdarray(image: Image, format: string, convert: (Image, Mode) -> Image): (r: Option<NdArray>)
    ensures r.Some? <==> format in {"L", "RGB", "BGR"}
  {
    if format == "L" then Some(ToArray(convert(image, L)))
    else
      var c := convert(image, if image.mode in {LA, RGBA} then RGBA else RGB);
      if format == "RGB" then Some(ToArray(c))
      else if format == "BGR" then Some(SwapRB(ToArray(c)))
      else None
  }

  /** `pil_to_cv2`: the image converted to RGB or RGBA, laid out as a BGR or BGRA array. */
  function PilToCv2(image: Image, convert: (Image, Mode) -> Image): (r: NdArray)
    ensures r == SwapRB(ToArray(convert(image, if image.mode in {LA, RGBA} then RGBA else RGB)))
  {
    PilToNdarray(image, "BGR", convert).value
  }

  /**
   * `cv2_to_pil`: a BGR(A) array becomes an image with red and blue exchanged; a single-channel
   * one keeps its pixels.
   */
  function Cv2ToPil(image: NdArray): (r: Result<Image, ConversionError>)
    ensures r.Success? <==> !image.dtype.OtherType? && Channels(image) in {1, 3, 4} && FromArrayHandles(ByteArray(image))
    ensures r.Success? && Channels(image) == 1 ==> r.value.pixels == image.pixels
    ensures r.Success? && Channels(image) in {3, 4} ==> r.value.pixels == SwapRB(image).pixels
  {
    NdarrayToPil(image, "BGR")
  }

  /**
   * With a mode conversion that yields the requested mode, "L" gives one channel, an alpha-bearing
   * image gives four in "RGB" or "BGR" format and any other image three.
   */
  lemma PilToNdarrayChannels(image: Image, format: string, convert: (Image, Mode) -> Image)
    requires format in {"L", "RGB", "BGR"}
    requires convert(image, L).mode == L && convert(image, RGB).mode == RGB && convert(image, RGBA).mode == RGBA
    ensures format == "L" ==> Channels(PilToNdarray(image, format, convert).value) == 1
    ensures format != "L" && image.mode in {LA, RGBA} ==> Channels(PilToNdarray(image, format, convert).value) == 4
    ensures format != "L" && image.mode !in {LA, RGBA} ==> Channels(PilToNdarray(image, format, convert).value) == 3
  {
  }

  /** Every layout pil_to_ndarray produces is accepted back by ndarray_to_pil in the same format. */
  lemma ConvertedIsAccepted(image: Image, format: string, convert: (Image, Mode) -> Image)
    requires format in {"RGB", "BGR"}
    requires convert(image, RGB).mode == RGB && convert(image, RGBA).mode == RGBA
    ensures NdarrayToPil(PilToNdarray(image, format, convert).value, format).Success?
  {
  }

  /** An RGB or RGBA image survives `ndarray_to_pil(pil_to_ndarray(image))` pixel for pixel. */
  lemma NdarrayRoundTrip(image: Image, convert: (Image, Mode) -> Image)
    requires image.mode in {RGB, RGBA}
    requires convert(image, image.mode) == image
    ensures NdarrayToPil(PilToNdarray(image, "RGB", convert).value, "RGB") == Success(image)
  {
  }

  /** An RGB or RGBA image survives `cv2_to_pil(pil_to_cv2(image))` pixel for pixel. */
  lemma Cv2RoundTrip(image: Image, convert: (Image, Mode) -> Image)
    requires image.mode in {RGB, RGBA}
    requires convert(image, image.mode) == image
    ensures Cv2ToPil(PilToCv2(image, convert)) == Success(image)
  {
    SwapRBInvolution(ToArray(image));
  }

  /** Single-channel, "RGB" and bool arrays of a layout `fromarray` handles reach PIL with their pixels untouched. */
  lemma PassThrough(image: NdArray, format: string)
    requires !image.dtype.OtherType? && Channels(image) in {1, 3, 4}
    requires Channels(image) == 1 || format == "RGB" || image.dtype == Bool
    requires |image.shape| in {1, 2} || (image.dtype != Bool && Channels(image) in {3, 4})
    ensures NdarrayToPil(image, format).Success? && NdarrayToPil(image, format).value.pixels == image.pixels
  {
  }

  /** An (H, W, 1) array passes the channel check but `fromarray` has no mode for it. */
  lemma TrailingSingleChannelRejected(dtype: DType, h: nat, w: nat, pixels: seq<Pixel>, format: string)
    requires !dtype.OtherType?
    ensures NdarrayToPil(NdArray(dtype, [h, w, 1], pixels), format)
         == Failure(TypeError("Cannot handle this data type: (1, 1, 1), " + if dtype == Bool then "|b1" else "|u1"))
  {
    var a := ByteArray(NdArray(dtype, [h, w, 1], pixels));
    assert a.shape[2..] == [1];
    assert DimsText([1]) == ", 1" + DimsText([]);
    assert TypeKeyText(a) == "(1, 1, 1), " + TypeStr(a.dtype);
    assert FromArrayMessage + ": " + TypeKeyText(a) == "Cannot handle this data type: (1, 1, 1), " + TypeStr(a.dtype);
  }

  /** A one-dimensional array has one channel and becomes a single-column image with its pixels, in any format. */
  lemma OneDimensionalColumn(dtype: DType, n: nat, pixels: seq<Pixel>, format: string)
    requires !dtype.OtherType?
    ensures var r := NdarrayToPil(NdArray(dtype, [n], pixels), format);
      r.Success? && r.value.height == n && r.value.width == 1 && r.value.pixels == pixels
      && r.value.mode == if dtype == Bool then OtherMode("1") else L
  {
  }

  /** A zero-dimensional array passes every check of `ndarray_to_pil`, and `fromarray` fails reading its size. */
  lemma ZeroDimensionalRejected(dtype: DType, pixels: seq<Pixel>, format: string)
    requires !dtype.OtherType?
    ensures NdarrayToPil(NdArray(dtype, [], pixels), format) == Failure(IndexError("tuple index out of range"))
  {
  }

  /** A bool array with colour channels is let through by the bool test but rejected by `fromarray`. */
  lemma BoolColourRejected(h: nat, w: nat, c: nat, pixels: seq<Pixel>, format: string)
    requires c in {3, 4}
    ensures NdarrayToPil(NdArray(Bool, [h, w, c], pixels), format)
         == Failure(TypeError("Cannot handle this data type: (1, 1, " + (if c == 3 then "3" else "4") + "), |b1"))
  {
    var a := NdArray(Bool, [h, w, c], pixels);
    assert a.shape[2..] == [c];
    assert DimsText([c]) == ", " + NatToString(c) + DimsText([]);
    assert TypeKeyText(a) == "(1, 1, " + (if c == 3 then "3" else "4") + "), |b1";
    assert FromArrayMessage + ": " + TypeKeyText(a) == "Cannot handle this data type: (1, 1, " + (if c == 3 then "3" else "4") + "), |b1";
  }

  /**
   * A "BGR" array with three channels becomes an RGB image with blue and red exchanged; one with
   * four becomes an RGBA image with blue and red exchanged and alpha kept last.
   */
  lemma BgrReordered(image: NdArray)
    requires image.dtype in {Floating, Integer} && Channels(image) in {3, 4}
    requires forall i :: 0 <= i < |image.pixels| ==> |image.pixels[i]| == Channels(image)
    ensures var r := NdarrayToPil(image, "BGR");
      r.Success? && r.value.mode == (if Channels(image) == 3 then RGB else RGBA)
      && |r.value.pixels| == |image.pixels|
      && forall i :: 0 <= i < |image.pixels| ==>
           |r.value.pixels[i]| == Channels(image)
           && r.value.pixels[i][0] == image.pixels[i][2] && r.value.pixels[i][1] == image.pixels[i][1]
           && r.value.pixels[i][2] == image.pixels[i][0] && r.value.pixels[i][3..] == image.pixels[i][3..]
  {
  }

  /** A two-channel array is rejected whatever its format. */
  lemma TwoChannelsRejected(h: nat, w: nat, pixels: seq<Pixel>, format: string)
    ensures NdarrayToPil(NdArray(Floating, [h, w, 2], pixels), format).Failure?
  {
  }

  /** A three-channel float array in an unknown format such as "HSV" is rejected. */
  lemma UnknownFormatRejected(h: nat, w: nat, pixels: seq<Pixel>)
    ensures NdarrayToPil(NdArray(Floating, [h, w, 3], pixels), "HSV").Failure?
  {
  }
}
