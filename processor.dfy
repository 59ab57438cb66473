/** Alpha compositing in src-tauri/src/processor.rs: the background
    remover copies the colour of every input pixel and takes its alpha from
    the predicted mask. Images are two-dimensional arrays indexed
    [row, column], that is [y, x]; the ONNX inference that predicts the
    mask is a function supplied by the caller. */
module Processor {

  /** An 8-bit channel value (Rust's u8). */
  type byte = x: int | 0 <= x < 256

  /** One RGBA8 pixel. */
  datatype Rgba = Rgba(r: byte, g: byte, b: byte, a: byte)

  /** The pixel of a freshly created ImageBuffer: all channels zero. */
  const Blank: Rgba := Rgba(0, 0, 0, 0)

  /** The pixel apply_mask writes: the input's red, green and blue, with
      the mask value as alpha; the input's own alpha is dropped. */
  function Masked(p: Rgba, alpha: byte): (q: Rgba)
    ensures q.r == p.r && q.g == p.g && q.b == p.b
    ensures q.a == alpha
  {
    p.(a := alpha)
  }

  /** apply_mask: a new image of the input's size in which the pixel at
      (x, y) is the input pixel at (x, y) under the mask value at (x, y).
      The mask is read at the image's coordinates, so it must be at least
      as large as the image. */
  method ApplyMask(image: array2<Rgba>, mask: array2<byte>) returns (result: array2<Rgba>)
    requires mask.Length0 >= image.Length0 && mask.Length1 >= image.Length1
    ensures fresh(result)
    ensures result.Length0 == image.Length0 && result.Length1 == image.Length1
    ensures forall y, x :: 0 <= y < result.Length0 && 0 <= x < result.Length1 ==>
              result[y, x] == Masked(image[y, x], mask[y, x])
  {
    var height := image.Length0;
    var width := image.Length1;
    result := new Rgba[height, width]((y, x) => Blank);
    for y := 0 to height
      invariant forall j, i :: 0 <= j < y && 0 <= i < width ==> result[j, i] == Masked(image[j, i], mask[j, i])
    {
      for x := 0 to width
        invariant forall j, i :: 0 <= j < y && 0 <= i < width ==> result[j, i] == Masked(image[j, i], mask[j, i])
        invariant forall i :: 0 <= i < x ==> result[y, i] == Masked(image[y, i], mask[y, i])
      {
        var pixel := image[y, x];
        var maskValue := mask[y, x];
        result[y, x] := Rgba(pixel.r, pixel.g, pixel.b, maskValue);
      }
    }
  }

  /** remove_background after inference: the predicted mask is resized to
      the original dimensions (here: produced at them, one value per
      (x, y)) and applied, so the output keeps the input's size, its
      colours, and the predicted alpha. */
  method RemoveBackground(image: array2<Rgba>, predict: (nat, nat) -> byte) returns (result: array2<Rgba>)
    ensures fresh(result)
    ensures result.Length0 == image.Length0 && result.Length1 == image.Length1
    ensures forall y, x :: 0 <= y < result.Length0 && 0 <= x < result.Length1 ==>
              result[y, x] == Masked(image[y, x], predict(x, y))
  {
    var mask := new byte[image.Length0, image.Length1]((y: nat, x: nat) => predict(x, y));
    result := ApplyMask(image, mask);
  }
}
