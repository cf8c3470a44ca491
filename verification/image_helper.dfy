/**
 * The tensor encoder of `utils/imageHelper.ts`: an RGBA pixel buffer read back
 * from a canvas is split into its red, green and blue channels (alpha is
 * dropped), the channels are laid out one after another (planar order), and
 * every byte is divided by 255 into a zero-initialised buffer whose length
 * the requested tensor shape fixes.
 *
 * The canvas itself (creation, `drawImage` resampling, `getImageData`) is not
 * modelled: it is the producer of the `Canvas` value the encoder receives.
 */
module ImageHelper {
  import opened Wrappers

  /** One entry of the canvas' clamped byte buffer. */
  type Byte = x: int | 0 <= x < 256

  /**
   * The default shape `[1, 3, 224, 224]`: batch, channels, then the canvas
   * width and height; the runtime reads the last two as height and width,
   * which agree only for a square shape.
   */
  const DefaultDims: seq<nat> := [1, 3, 224, 224]

  /** Message of the error thrown when the canvas yields no 2D context. */
  const NoContextMessage: string := "Failed to get 2D context"

  /** What `imageDataToTensor` can throw. */
  datatype TensorError =
    | ContextError(message: string)  // thrown by the function itself when there is no 2D context
    | IndexSizeError                 // thrown by `getImageData` on a canvas of zero width or height
    | SizeMismatchError              // thrown by the runtime's `Tensor` when the data length is not the product of the dims

  /** What the canvas step produced: no 2D context, or the RGBA bytes of the resized image. */
  datatype Canvas = NoContext | ImageData(data: seq<Byte>)

  /** The tensor handed to the inference runtime: element type, flat data and shape. */
  datatype Tensor = Tensor(kind: string, data: seq<real>, dims: seq<nat>)

  /** Number of pixels the canvas holds: its width `dims[2]` times its height `dims[3]`. */
  function PixelCount(dims: seq<nat>): nat
    requires |dims| == 4
  {
    dims[2] * dims[3]
  }

  /** Length of the zero-initialised output buffer: `dims[1] * dims[2] * dims[3]`. */
  function BufferLength(dims: seq<nat>): nat
    requires |dims| == 4
  {
    dims[1] * PixelCount(dims)
  }

  /** The element count the runtime's `Tensor` expects: the product of all four dims. */
  function TensorSize(dims: seq<nat>): nat
    requires |dims| == 4
  {
    dims[0] * BufferLength(dims)
  }

  /**
   * On a canvas of positive area the runtime accepts the buffer exactly when
   * the batch is 1 or no channel is requested (the buffer is then empty).
   */
  lemma SizeCheck(dims: seq<nat>)
    requires |dims| == 4 && dims[2] > 0 && dims[3] > 0
    ensures TensorSize(dims) == BufferLength(dims) <==> dims[0] == 1 || dims[1] == 0
  {
  }

  /** The buffer `getImageData` returns for a canvas of shape `dims`: four bytes per pixel. */
  predicate FitsCanvas(data: seq<Byte>, dims: seq<nat>)
    requires |dims| == 4
  {
    |data| == 4 * PixelCount(dims)
  }

  /**
   * Reference definition of the planar layout, stated pixel by pixel: position
   * `i` of the planar sequence holds red of pixel `i`, then green of pixel
   * `i - n`, then blue of pixel `i - 2n`, for `n` pixels.
   */
  function PlanarAt(data: seq<Byte>, i: nat): Byte
    requires |data| % 4 == 0
    requires i < 3 * (|data| / 4)
  {
    var n := |data| / 4;
    if i < n then data[4 * i]
    else if i < 2 * n then data[4 * (i - n) + 1]
    else data[4 * (i - 2 * n) + 2]
  }

  /**
   * Reference definition of the encoder for a buffer of `len` entries:
   * position `i` holds the planar byte at `i` divided by 255 while there is
   * one, and the buffer's initial zero beyond it; planar bytes past the
   * buffer's end are lost.
   */
  function Layout(data: seq<Byte>, len: nat): (r: seq<real>)
    requires |data| % 4 == 0
  {
    seq(len, i requires 0 <= i < len =>
      if i < 3 * (|data| / 4) then PlanarAt(data, i) as real / 255.0 else 0.0)
  }

  /** The reference encoding of the canvas bytes `data` into a buffer shaped by `dims`. */
  function Encode(data: seq<Byte>, dims: seq<nat>): (r: seq<real>)
    requires |dims| == 4 && FitsCanvas(data, dims)
    ensures |r| == BufferLength(dims)
  {
    Layout(data, BufferLength(dims))
  }

  /**
   * `out` holds the three planes of the RGBA buffer `data`: the red bytes of
   * the `n` pixels, then the green, then the blue, each divided by 255.
   */
  predicate Planar(data: seq<Byte>, out: seq<real>)
    requires |data| % 4 == 0 && |out| == 3 * (|data| / 4)
  {
    var n := |data| / 4;
    && (forall k :: 0 <= k < n ==> out[k] == data[4 * k] as real / 255.0)
    && (forall k :: 0 <= k < n ==> out[n + k] == data[4 * k + 1] as real / 255.0)
    && (forall k :: 0 <= k < n ==> out[2 * n + k] == data[4 * k + 2] as real / 255.0)
  }

  /**
   * The channel-splitting loop: one entry per four-byte pixel is appended to
   * each of the red, green and blue arrays; the fourth byte (alpha) is skipped.
   */
  method SplitChannels(data: seq<Byte>) returns (red: seq<Byte>, green: seq<Byte>, blue: seq<Byte>)
    requires |data| % 4 == 0
    ensures |red| == |green| == |blue| == |data| / 4
    ensures forall k :: 0 <= k < |data| / 4 ==> red[k] == data[4 * k]
    ensures forall k :: 0 <= k < |data| / 4 ==> green[k] == data[4 * k + 1]
    ensures forall k :: 0 <= k < |data| / 4 ==> blue[k] == data[4 * k + 2]
  {
    red, green, blue := [], [], [];
    var i := 0;
    while i < |data|
      invariant 0 <= i <= |data| && i % 4 == 0
      invariant |red| == |green| == |blue| == i / 4
      invariant forall k :: 0 <= k < i / 4 ==> red[k] == data[4 * k]
      invariant forall k :: 0 <= k < i / 4 ==> green[k] == data[4 * k + 1]
      invariant forall k :: 0 <= k < i / 4 ==> blue[k] == data[4 * k + 2]
    {
      red := red + [data[i]];
      green := green + [data[i + 1]];
      blue := blue + [data[i + 2]];
      i := i + 4;
    }
  }

  /**
   * The normalising loop: a buffer of `len` zeros receives `values[i] / 255`
   * at every index `i` of `values`; an index at or past `len` is a write past
   * the end of a typed array, which changes nothing.
   */
  method Normalise(values: seq<Byte>, len: nat) returns (out: seq<real>)
    ensures |out| == len
    ensures forall i :: 0 <= i < len && i < |values| ==> out[i] == values[i] as real / 255.0
    ensures forall i :: |values| <= i < len ==> out[i] == 0.0
  {
    out := seq(len, _ => 0.0);
    var i := 0;
    while i < |values|
      invariant 0 <= i <= |values|
      invariant |out| == len
      invariant forall j :: 0 <= j < len && j < i ==> out[j] == values[j] as real / 255.0
      invariant forall j :: i <= j < len ==> out[j] == 0.0
    {
      if i < len {
        out := out[i := values[i] as real / 255.0];
      }
      i := i + 1;
    }
  }

  /**
   * The channel arrays concatenated red, then green, then blue: the planar
   * sequence of the reference definition.
   */
  method Transpose(data: seq<Byte>) returns (transposed: seq<Byte>)
    requires |data| % 4 == 0
    ensures |transposed| == 3 * (|data| / 4)
    ensures forall i :: 0 <= i < |transposed| ==> transposed[i] == PlanarAt(data, i)
  {
    var red, green, blue := SplitChannels(data);
    transposed := red + green + blue;
    var n := |data| / 4;
    forall i | 0 <= i < |transposed|
      ensures transposed[i] == PlanarAt(data, i)
    {
      if i < n {
        assert transposed[i] == red[i];
      } else if i < 2 * n {
        assert transposed[i] == green[i - n];
      } else {
        assert transposed[i] == blue[i - 2 * n];
      }
    }
  }

  /**
   * `imageDataToTensor` once the canvas has been drawn. It fails when there is
   * no 2D context, when `getImageData` is asked for an empty area, and when the
   * runtime's `Tensor` rejects a buffer whose length is not the product of
   * all four dims. Otherwise it returns a float32 tensor of shape `dims`
   * whose data is the planar, normalised image.
   */
  method ImageDataToTensor(canvas: Canvas, dims: seq<nat>) returns (r: Result<Tensor, TensorError>)
    requires |dims| == 4
    requires canvas.ImageData? ==> FitsCanvas(canvas.data, dims)
    ensures canvas.NoContext? <==> r == Failure(ContextError(NoContextMessage))
    ensures canvas.ImageData? && (dims[2] == 0 || dims[3] == 0) <==> r == Failure(IndexSizeError)
    ensures canvas.ImageData? && dims[2] > 0 && dims[3] > 0 && dims[0] != 1 && dims[1] > 0
      <==> r == Failure(SizeMismatchError)
    ensures canvas.ImageData? && dims[2] > 0 && dims[3] > 0 && (dims[0] == 1 || dims[1] == 0)
      <==> r.Success?
    ensures r.Success? ==> r.value.kind == "float32" && r.value.dims == dims
    ensures r.Success? ==> |r.value.data| == BufferLength(dims)
    ensures r.Success? ==> r.value.data == Encode(canvas.data, dims)
    ensures r.Success? && dims[1] == 3 ==>
      canvas.ImageData? && |r.value.data| == 3 * (|canvas.data| / 4) && Planar(canvas.data, r.value.data)
  {
    if canvas.NoContext? {
      return Failure(ContextError(NoContextMessage));
    }
    if dims[2] == 0 || dims[3] == 0 {
      return Failure(IndexSizeError);
    }
    var data := canvas.data;
    var transposed := Transpose(data);
    var n := PixelCount(dims);
    assert |data| / 4 == n;
    var out := Normalise(transposed, BufferLength(dims));
    forall i | 0 <= i < |out|
      ensures out[i] == Encode(data, dims)[i]
    {
      if i < 3 * n {
        assert out[i] == transposed[i] as real / 255.0;
      }
    }
    SizeCheck(dims);
    if TensorSize(dims) != |out| {
      return Failure(SizeMismatchError);
    }
    r := Success(Tensor("float32", out, dims));
    if dims[1] == 3 {
      PlanesOfEncode(data, dims);
    }
  }

  /** With three channels requested, the buffer holds exactly the three planes. */
  lemma PlanesOfEncode(data: seq<Byte>, dims: seq<nat>)
    requires |dims| == 4 && FitsCanvas(data, dims) && dims[1] == 3
    ensures |Encode(data, dims)| == 3 * (|data| / 4)
    ensures Planar(data, Encode(data, dims))
  {
  }

  /** Every value of the tensor lies in [0, 1]. */
  lemma EncodeInUnitRange(data: seq<Byte>, dims: seq<nat>)
    requires |dims| == 4 && FitsCanvas(data, dims)
    ensures forall i :: 0 <= i < |Encode(data, dims)| ==> 0.0 <= Encode(data, dims)[i] <= 1.0
  {
  }

  /** Alpha is discarded: buffers that agree on every red, green and blue byte encode alike. */
  lemma AlphaIgnored(data: seq<Byte>, data': seq<Byte>, dims: seq<nat>)
    requires |dims| == 4 && FitsCanvas(data, dims) && |data'| == |data|
    requires forall j :: 0 <= j < |data| && j % 4 != 3 ==> data[j] == data'[j]
    ensures Encode(data, dims) == Encode(data', dims)
  {
  }

  /** The red, green and blue bytes of each pixel, in row-major pixel order. */
  function Pixels(data: seq<Byte>): (r: seq<(int, int, int)>)
    requires |data| % 4 == 0
  {
    seq(|data| / 4, k requires 0 <= k < |data| / 4 => (data[4 * k] as int, data[4 * k + 1] as int, data[4 * k + 2] as int))
  }

  /** Recovers a byte from its normalised value. */
  function Denormalise(v: real): int
  {
    (v * 255.0).Floor
  }

  /** Reads `n` pixels back out of a planar tensor buffer, undoing the normalisation. */
  function DecodePlanes(out: seq<real>, n: nat): (r: seq<(int, int, int)>)
    requires |out| >= 3 * n
  {
    seq(n, k requires 0 <= k < n =>
      (Denormalise(out[k]), Denormalise(out[n + k]), Denormalise(out[2 * n + k])))
  }

  /** Reading the planes back out of a buffer of at least `3n` entries recovers every pixel. */
  lemma DecodeLayout(data: seq<Byte>, len: nat)
    requires |data| % 4 == 0 && len >= 3 * (|data| / 4)
    ensures DecodePlanes(Layout(data, len), |data| / 4) == Pixels(data)
  {
  }

  /**
   * The encoding loses nothing but alpha: reading the planes back out of a
   * tensor with at least three channels yields every pixel's red, green and blue bytes.
   */
  lemma DecodeEncode(data: seq<Byte>, dims: seq<nat>)
    requires |dims| == 4 && FitsCanvas(data, dims) && dims[1] >= 3
    ensures BufferLength(dims) >= 3 * PixelCount(dims)
    ensures DecodePlanes(Encode(data, dims), PixelCount(dims)) == Pixels(data)
  {
    var n := PixelCount(dims);
    assert BufferLength(dims) >= 3 * n by {
      assert BufferLength(dims) == dims[1] * n;
    }
    DecodeLayout(data, BufferLength(dims));
  }

  /**
   * The 2x2 raster of red, green, blue and white pixels encodes to the planes
   * `[1,0,0,1]`, `[0,1,0,1]` and `[0,0,1,1]`.
   */
  lemma TwoByTwoExample()
    ensures Encode([255, 0, 0, 255, 0, 255, 0, 255, 0, 0, 255, 255, 255, 255, 255, 255], [1, 3, 2, 2])
         == [1.0, 0.0, 0.0, 1.0, 0.0, 1.0, 0.0, 1.0, 0.0, 0.0, 1.0, 1.0]
  {
  }
}
