/**
 * One frame buffer (lighthouseimage.py): a grid of RGB triples with
 * `dimY` rows and `dimX` columns, written pixel by pixel.
 */
module Image {
  import opened Common
  import opened Builtins

  /** The IndexError of an index outside the grid. */
  datatype ImageError = IndexOutOfRange

  class LighthouseImage {
    /** `__image[y][x]`, the pixel in row `y` and column `x`. */
    var pixels: array2<RGB>
    const dimY: nat
    const dimX: nat

    ghost predicate Valid()
      reads this
    {
      pixels.Length0 == dimY && pixels.Length1 == dimX
    }

    /** Every pixel is black. */
    ghost predicate IsClear()
      reads this, pixels
    {
      Valid() && forall y, x :: 0 <= y < dimY && 0 <= x < dimX ==> pixels[y, x] == Black
    }

    /** A grid of the given size, cleared to black. */
    constructor (dimY: nat, dimX: nat)
      ensures this.dimY == dimY && this.dimX == dimX
      ensures Valid() && IsClear() && fresh(pixels)
    {
      this.dimY := dimY;
      this.dimX := dimX;
      pixels := new RGB[dimY, dimX]((_, _) => Black);
    }

    /** Writes `rgb` into the pixel `(y, x)`; negative indices count from the
        end, as Python's do. Nothing else changes, and an index outside the
        grid raises IndexError and writes nothing. */
    method SetColor(y: int, x: int, rgb: RGB) returns (err: Option<ImageError>)
      requires Valid()
      modifies pixels
      ensures err.None? <==> PyIndex(y, dimY).Some? && PyIndex(x, dimX).Some?
      ensures err.None? ==> GetColor(y, x) == Some(rgb)
      ensures err.None? ==> forall i, j :: 0 <= i < dimY && 0 <= j < dimX && (i, j) != (PyIndex(y, dimY).value, PyIndex(x, dimX).value) ==>
        pixels[i, j] == old(pixels[i, j])
      ensures err.Some? ==> unchanged(pixels)
    {
      var i, j := PyIndex(y, dimY), PyIndex(x, dimX);
      if i.None? || j.None? {
        return Some(IndexOutOfRange);
      }
      pixels[i.value, j.value] := rgb;
      err := None;
    }

    /** The pixel `(y, x)`, `None` for the IndexError outside the grid. */
    function GetColor(y: int, x: int): (c: Option<RGB>)
      requires Valid()
      reads this, pixels
      ensures c.Some? <==> PyIndex(y, dimY).Some? && PyIndex(x, dimX).Some?
    {
      var i, j := PyIndex(y, dimY), PyIndex(x, dimX);
      if i.None? || j.None? then None else Some(pixels[i.value, j.value])
    }

    /** Replaces the grid by a new one of the same size, all black; a grid
        handed out by `Get` before keeps its pixels. */
    method Clear()
      requires Valid()
      modifies this`pixels
      ensures Valid() && IsClear() && fresh(pixels)
    {
      pixels := new RGB[dimY, dimX]((_, _) => Black);
    }

    /** The grid itself, not a copy: later writes are seen through it. */
    function Get(): (g: array2<RGB>)
      reads this
      ensures g == pixels
    {
      pixels
    }
  }
}
