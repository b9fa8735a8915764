/**
 * The double-buffered screen (lighthousescreen.py): two frames of the
 * same size, one in front that is read and one in the back that is
 * written, and a flag saying which is which.
 */
module Screen {
  import opened Common
  import opened Builtins
  import opened Geometry
  import opened Image
  import opened Camera

  /** The ValueError of an unsupported screen size. */
  datatype ScreenError = UnsupportedDimensions

  /** `get_supported_dimensions`: the (rows, columns) pairs a screen may have. */
  function SupportedDimensions(): (ds: seq<(int, int)>)
    ensures forall d :: d in ds <==> d == (14, 28)
  {
    [(14, 28)]
  }

  /** `__validate_dimensions`: only the lighthouse's own 14 x 28 is accepted. */
  function ValidateDimensions(dimY: int, dimX: int): (r: Option<ScreenError>)
    ensures r.None? <==> dimY == 14 && dimX == 28
  {
    if (dimY, dimX) in SupportedDimensions() then None else Some(UnsupportedDimensions)
  }

  class LighthouseScreen {
    const frameA: LighthouseImage
    const frameB: LighthouseImage
    const cam: LighthouseCamera
    const dimX: nat
    const resX: real
    const dimY: nat
    const resY: real
    var frameAIsFront: bool

    /** Two distinct frames of the screen's size, each with its own grid. */
    ghost predicate Valid()
      reads this, frameA, frameB
    {
      frameA != frameB && frameA.pixels != frameB.pixels &&
      frameA.Valid() && frameB.Valid() &&
      frameA.dimY == dimY && frameA.dimX == dimX &&
      frameB.dimY == dimY && frameB.dimX == dimX &&
      ValidateDimensions(dimY, dimX).None?
    }

    /** `get_current_front_frame`. */
    function Front(): (f: LighthouseImage)
      reads this
      ensures f == frameA || f == frameB
      ensures frameA != frameB ==> (f == frameA <==> frameAIsFront)
    {
      if frameAIsFront then frameA else frameB
    }

    /** `get_current_back_frame`: always the frame that is not in front. */
    function Back(): (b: LighthouseImage)
      reads this
      ensures b == frameA || b == frameB
      ensures frameA != frameB ==> b != Front()
    {
      if !frameAIsFront then frameA else frameB
    }

    /** A screen of a supported size, both frames black and frame A in
        front; the camera sits centred in front of the pixel grid, ten units
        back. Callers check the size first, or use `Create`. */
    constructor (dimY: int, resY: real, dimX: int, resX: real)
      requires ValidateDimensions(dimY, dimX).None?
      ensures this.dimY == dimY && this.resY == resY && this.dimX == dimX && this.resX == resX
      ensures Valid() && frameAIsFront && Front() == frameA && Back() == frameB
      ensures fresh(frameA) && fresh(frameB) && fresh(frameA.pixels) && fresh(frameB.pixels)
      ensures frameA.IsClear() && frameB.IsClear()
      ensures fresh(cam) && fresh(cam.rotation)
      ensures cam.center == Point3d(-0.5 * (dimX - 1) as real * resX, -0.5 * (dimY - 1) as real * resY, -10.0)
    {
      this.dimX := dimX;
      this.resX := resX;
      this.dimY := dimY;
      this.resY := resY;
      cam := new LighthouseCamera(Point3d(-0.5 * (dimX - 1) as real * resX, -0.5 * (dimY - 1) as real * resY, -10.0));
      frameA := new LighthouseImage(dimY, dimX);
      frameB := new LighthouseImage(dimY, dimX);
      frameAIsFront := true;
    }

    /** The constructor as the source calls it: an unsupported size raises
        ValueError and no screen is made. */
    static method Create(dimY: int, resY: real, dimX: int, resX: real) returns (s: LighthouseScreen?, err: Option<ScreenError>)
      ensures err == ValidateDimensions(dimY, dimX)
      ensures err.Some? <==> s == null
      ensures s != null ==> fresh(s) && s.Valid() && s.frameAIsFront && s.dimY == 14 && s.dimX == 28
      ensures s != null ==> s.resY == resY && s.resX == resX
      ensures s != null ==> fresh(s.frameA) && fresh(s.frameB) && s.frameA.IsClear() && s.frameB.IsClear()
      ensures s != null ==> fresh(s.cam) && s.cam.center == Point3d(-0.5 * (dimX - 1) as real * resX, -0.5 * (dimY - 1) as real * resY, -10.0)
    {
      err := ValidateDimensions(dimY, dimX);
      if err.Some? {
        return null, err;
      }
      s := new LighthouseScreen(dimY, resY, dimX, resX);
    }

    /** `swap_frame_buffer`: front and back trade places; no pixel changes,
        so swapping twice restores the screen. */
    method SwapFrameBuffer()
      modifies this`frameAIsFront
      ensures frameAIsFront == !old(frameAIsFront)
      ensures Front() == old(Back()) && Back() == old(Front())
    {
      frameAIsFront := !frameAIsFront;
    }

    /** `set_color`: writes the one pixel of the back frame, as the frame's
        `set_color` does; every other back pixel and the whole front frame,
        which may be on display, are untouched. */
    method SetColor(y: int, x: int, rgb: RGB) returns (err: Option<ImageError>)
      requires Valid()
      modifies Back().pixels
      ensures err.None? <==> PyIndex(y, dimY).Some? && PyIndex(x, dimX).Some?
      ensures err.None? ==> Back().GetColor(y, x) == Some(rgb)
      ensures err.None? ==> forall i, j :: 0 <= i < dimY && 0 <= j < dimX && (i, j) != (PyIndex(y, dimY).value, PyIndex(x, dimX).value) ==>
        Back().pixels[i, j] == old(Back().pixels[i, j])
      ensures err.Some? ==> unchanged(Back().pixels)
      ensures unchanged(Front().pixels)
    {
      var frame := Back();
      err := frame.SetColor(y, x, rgb);
    }
  }
}
