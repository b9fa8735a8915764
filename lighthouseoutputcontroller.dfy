/**
 * The frame producer (lighthouseoutputcontroller.py): on every frame it
 * advances the globe's rotation, points the camera along the state's
 * angles, colours every pixel of the back frame from the map and swaps the
 * frames, so the frame handed out is the one just rendered.
 */
module OutputController {
  import opened Common
  import opened Builtins
  import opened Geometry
  import opened TextureMap
  import opened Image
  import opened Camera
  import opened Screen
  import opened State

  /** `lon_rot`: the longitude turned east by the rotation rounded to whole
      degrees, and brought back into [-180, 180) — always a longitude the
      map accepts. */
  function RotatedLongitude(lon: real, rotation: real): (l: real)
    ensures -180.0 <= l < 180.0
    ensures IsIntegral((lon + RoundHalfEven(rotation) as real - l) / 360.0)
  {
    Mod360(lon + 180.0 + RoundHalfEven(rotation) as real) - 180.0
  }

  /** Before any rotation the map is shown as it is. */
  lemma NoRotationKeepsLongitude(lon: real, rotation: real)
    requires -180.0 <= lon < 180.0 && -0.5 <= rotation <= 0.5
    ensures RotatedLongitude(lon, rotation) == lon
  {
    assert RoundHalfEven(rotation) == 0;
    Mod360InPeriod(lon + 180.0, 0);
  }

  /** The globe looks the same after every further full turn. */
  lemma RotationPeriodic(lon: real, rotation: real)
    ensures RotatedLongitude(lon, rotation + 360.0) == RotatedLongitude(lon, rotation)
  {
    RoundHalfEvenShift(rotation, 360);
    var a := lon + 180.0 + RoundHalfEven(rotation) as real;
    var r := Mod360(a);
    var k := ((a - r) / 360.0).Floor;
    assert a + 360.0 == r + (k + 1) as real * 360.0;
    Mod360InPeriod(a + 360.0, k + 1);
  }

  /** Every pixel of `frame` from `(y, x)` on in row-major order holds what it
      held before. */
  twostate predicate KeptFrom(frame: array2<RGB>, y: int, x: int)
    reads frame
  {
    forall i, j :: 0 <= i < frame.Length0 && 0 <= j < frame.Length1 && (i > y || (i == y && j >= x)) ==>
      frame[i, j] == old(frame[i, j])
  }

  class LighthouseOutputController {
    const state: LighthouseState
    /** The renderer's screen. */
    const screen: LighthouseScreen
    const worldMap: LighthouseMap
    /** The renderer's `cast_parallel_ray_onto_sphere`: the latitude and
        longitude where the ray of pixel `(y, x)` meets the globe, seen
        through the camera's angles, or `None` where it misses. */
    const castRay: (Angles, int, int) -> Option<LatLon>
    var rotation: real

    ghost predicate Valid()
      reads this, screen, screen.frameA, screen.frameB, worldMap, state
    {
      screen.Valid() && worldMap.Valid() && state.Valid()
    }

    /** The colour pixel `(y, x)` gets: black where the ray misses the
        globe, else the map's colour at the hit point turned by the rotation. */
    function PixelColor(y: int, x: int): Result<RGB, MapError>
      requires worldMap.Valid()
      reads this, screen.cam, screen.cam.rotation, worldMap, worldMap.data
    {
      match castRay(screen.cam.rotation.Value(), y, x)
      case None => Success(Black)
      case Some(p) => worldMap.Sample(p.lat, RotatedLongitude(p.lon, rotation))
    }

    /** Every pixel before `(y, x)` in row-major order holds its colour. */
    ghost predicate RenderedBefore(frame: array2<RGB>, y: int, x: int)
      requires worldMap.Valid()
      reads this, screen.cam, screen.cam.rotation, worldMap, worldMap.data, frame
    {
      forall i, j :: 0 <= i < frame.Length0 && 0 <= j < frame.Length1 && (i < y || (i == y && j < x)) ==>
        PixelColor(i, j) == Success(frame[i, j])
    }

    ghost predicate Rendered(frame: array2<RGB>)
      requires worldMap.Valid()
      reads this, screen.cam, screen.cam.rotation, worldMap, worldMap.data, frame
    {
      RenderedBefore(frame, frame.Length0, 0)
    }

    ghost predicate EveryPixelColoured()
      requires worldMap.Valid()
      reads this, screen.cam, screen.cam.rotation, worldMap, worldMap.data
    {
      forall y, x :: 0 <= y < screen.dimY && 0 <= x < screen.dimX ==> PixelColor(y, x).Success?
    }

    /** Unrotated, with the map's interpolation range set. The map is the
        one `load_image` filled. */
    constructor (state: LighthouseState, worldMap: LighthouseMap, maxInterpolationRange: int, castRay: (Angles, int, int) -> Option<LatLon>)
      requires state.Valid() && worldMap.Valid()
      modifies worldMap`maxInterpRange
      ensures this.state == state && this.worldMap == worldMap && this.castRay == castRay
      ensures worldMap.maxInterpRange == maxInterpolationRange
      ensures rotation == 0.0 && Valid() && fresh(screen) && screen.frameAIsFront
      ensures screen.dimY == 14 && screen.dimX == 28 && screen.resY == 1.0 && screen.resX == 0.5
    {
      rotation := 0.0;
      this.state := state;
      this.castRay := castRay;
      screen := new LighthouseScreen(14, 1.0, 28, 0.5);
      this.worldMap := worldMap;
      worldMap.SetMaximumInterpolationRange(maxInterpolationRange);
    }

    /** The constructor as the source runs it, loading the map from the lines
        of its file: a file whose header or body raises makes no controller,
        and any other file makes one over the loaded map. */
    static method Create(state: LighthouseState, lines: seq<string>, maxInterpolationRange: int, castRay: (Angles, int, int) -> Option<LatLon>)
      returns (c: LighthouseOutputController?, err: Option<MapError>)
      requires state.Valid()
      ensures err == LoadError(lines)
      ensures err.Some? <==> c == null
      ensures c != null ==> fresh(c) && fresh(c.worldMap) && c.Valid() && c.state == state && c.rotation == 0.0
      ensures c != null ==> c.worldMap.maxInterpRange == maxInterpolationRange && c.worldMap.Loaded(lines)
    {
      var worldMap := new LighthouseMap();
      err := worldMap.LoadImage(lines);
      if err.Some? {
        return null, err;
      }
      c := new LighthouseOutputController(state, worldMap, maxInterpolationRange, castRay);
    }

    /** `__cast_rays`: colours the back frame pixel by pixel in row-major
        order. A pixel whose map sample fails raises there, leaving the
        pixels before it coloured and the pixels from it on as they were;
        the front frame is never touched. */
    method CastRays() returns (err: Option<MapError>)
      requires Valid()
      modifies screen.Back().pixels
      ensures err.None? <==> EveryPixelColoured()
      ensures err.None? ==> Rendered(screen.Back().pixels)
      ensures err.Some? ==>
        exists y, x :: 0 <= y < screen.dimY && 0 <= x < screen.dimX &&
          PixelColor(y, x) == Failure(err.value) && RenderedBefore(screen.Back().pixels, y, x)
          && KeptFrom(screen.Back().pixels, y, x)
    {
      var back := screen.Back();
      var y := 0;
      while y < screen.dimY
        invariant 0 <= y <= screen.dimY
        invariant RenderedBefore(back.pixels, y, 0)
        invariant KeptFrom(back.pixels, y, 0)
      {
        var x := 0;
        while x < screen.dimX
          invariant 0 <= x <= screen.dimX
          invariant RenderedBefore(back.pixels, y, x)
          invariant KeptFrom(back.pixels, y, x)
        {
          err := CastRay(back, y, x);
          if err.Some? {
            return;
          }
          x := x + 1;
        }
        y := y + 1;
      }
      return None;
    }

    /** One pixel of `__cast_rays`: its colour goes into the back frame, or
        its sample's exception is returned and nothing is written. */
    method CastRay(back: LighthouseImage, y: int, x: int) returns (err: Option<MapError>)
      requires Valid() && back == screen.Back()
      requires 0 <= y < screen.dimY && 0 <= x < screen.dimX && RenderedBefore(back.pixels, y, x)
      modifies back.pixels
      ensures err.None? ==> RenderedBefore(back.pixels, y, x + 1)
      ensures err.None? ==> forall i, j :: 0 <= i < back.pixels.Length0 && 0 <= j < back.pixels.Length1 && (i, j) != (y, x) ==>
        back.pixels[i, j] == old(back.pixels[i, j])
      ensures err.Some? ==> PixelColor(y, x) == Failure(err.value) && unchanged(back.pixels)
    {
      var c := ColorOf(y, x);
      if c.Failure? {
        return Some(c.error);
      }
      var rgb := c.value;
      label before:
      var _ := back.SetColor(y, x, rgb);
      assert back.pixels[y, x] == rgb;
      forall i, j | 0 <= i < back.pixels.Length0 && 0 <= j < back.pixels.Length1 && (i < y || (i == y && j < x))
        ensures PixelColor(i, j) == Success(back.pixels[i, j])
      {
        assert back.pixels[i, j] == old@before(back.pixels[i, j]);
      }
      return None;
    }

    /** The body of `__cast_rays` up to the write: the ray, and the map's
        colour at the rotated hit point. */
    method ColorOf(y: int, x: int) returns (c: Result<RGB, MapError>)
      requires worldMap.Valid()
      ensures c == PixelColor(y, x)
    {
      var hit := castRay(screen.cam.rotation.Value(), y, x);
      if hit.None? {
        return Success(Black);
      }
      c := worldMap.GetColorFromCoordinate(hit.value.lat, RotatedLongitude(hit.value.lon, rotation));
    }

    /** `__update_next_frame`: turns the globe by one frame's worth unless
        paused, lets the camera share the state's angles object, renders the
        back frame and, when that succeeds, brings it to the front. */
    method UpdateNextFrame() returns (err: Option<MapError>)
      requires Valid()
      modifies this`rotation, screen.cam`rotation, screen`frameAIsFront, screen.Back().pixels
      ensures Valid()
      ensures rotation == if state.paused then old(rotation) else old(rotation) + state.RatePerFrame()
      ensures screen.cam.rotation == state.angles
      ensures err.None? <==> EveryPixelColoured()
      ensures err.None? ==> screen.Front() == old(screen.Back()) && Rendered(screen.Front().pixels)
      ensures err.Some? ==> screen.frameAIsFront == old(screen.frameAIsFront)
      ensures err.Some? ==>
        exists y, x :: 0 <= y < screen.dimY && 0 <= x < screen.dimX &&
          PixelColor(y, x) == Failure(err.value) && RenderedBefore(screen.Back().pixels, y, x)
          && KeptFrom(screen.Back().pixels, y, x)
      ensures unchanged(old(screen.Front()).pixels)
    {
      if !state.paused {
        rotation := rotation + state.RatePerFrame();
      }
      screen.cam.SetRotationTaitBryanXyz(state.angles);
      err := CastRays();
      if err.Some? {
        return;
      }
      screen.SwapFrameBuffer();
    }

    /** `draw_next_frame`: the grid of the frame now in front, which is the
        one just rendered; `null` when rendering raised. */
    method DrawNextFrame() returns (frame: array2?<RGB>, err: Option<MapError>)
      requires Valid()
      modifies this`rotation, screen.cam`rotation, screen`frameAIsFront, screen.Back().pixels
      ensures Valid()
      ensures rotation == if state.paused then old(rotation) else old(rotation) + state.RatePerFrame()
      ensures screen.cam.rotation == state.angles
      ensures err.None? <==> frame != null
      ensures err.None? <==> EveryPixelColoured()
      ensures frame != null ==> frame == screen.Front().pixels && frame == old(screen.Back().pixels) && Rendered(frame)
      ensures unchanged(old(screen.Front()).pixels)
    {
      err := UpdateNextFrame();
      if err.Some? {
        return null, err;
      }
      frame := screen.Front().Get();
    }
  }
}
