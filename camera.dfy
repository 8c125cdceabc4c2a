/**
  `Camera2D`: a viewport size, a position and a zoom, and the matrix the
  batcher receives, `projection * view`. Under the row-vector convention
  of System.Numerics that product applies the pixel-to-clip projection
  FIRST and the pan and zoom afterwards, so the pan and the zoom act on
  clip coordinates.
*/
module Cameras {
  import opened Geometry

  /** Everything `GetMatrix` depends on. */
  datatype CameraState = CameraState(position: Vec2, zoom: Vec2, width: int, height: int)

  /** A viewport with no zero side; the projection divides by both sides. */
  predicate HasArea(s: CameraState)
  {
    s.width != 0 && s.height != 0
  }

  /** `Resize(w, h)`: the viewport changes, position and zoom stay. */
  function Resized(s: CameraState, w: int, h: int): (r: CameraState)
    ensures r.width == w && r.height == h
    ensures r.position == s.position && r.zoom == s.zoom
  {
    CameraState(s.position, s.zoom, w, h)
  }

  /** Pixels `[0, w] x [0, h]` to clip space, with Y pointing down. */
  function Projection(s: CameraState): Mat4
    requires HasArea(s)
  {
    OrthographicOffCenter(0.0, s.width as real, s.height as real, 0.0, -1.0, 1.0)
  }

  /** `Translate(-position) * Scale(zoom)`. */
  function View(s: CameraState): Mat4
  {
    MatMul(Translation(-s.position.x, -s.position.y, 0.0), Scaling(s.zoom.x, s.zoom.y, 1.0))
  }

  /** `projection * view`. */
  function ViewProjection(s: CameraState): Mat4
    requires HasArea(s)
  {
    MatMul(Projection(s), View(s))
  }

  /** The clip coordinates the projection alone gives a pixel. */
  function ScreenToClip(s: CameraState, p: Vec2): Vec2
    requires HasArea(s)
  {
    Vec2(2.0 * p.x / s.width as real - 1.0, 1.0 - 2.0 * p.y / s.height as real)
  }

  lemma ProjectionClosedForm(s: CameraState, p: Vec2)
    requires HasArea(s)
    ensures PlanarAffine(Projection(s))
    ensures TransformPoint(p, Projection(s)) == ScreenToClip(s, p)
  {
    var w := s.width as real;
    var h := s.height as real;
    var m := Projection(s);
    assert m.m11 == 2.0 / w && m.m21 == 0.0 && m.m41 == -1.0;
    assert m.m12 == 0.0 && m.m22 == -2.0 / h && m.m42 == 1.0;
    assert p.x * (2.0 / w) == 2.0 * p.x / w;
    assert p.y * (-2.0 / h) == -(2.0 * p.y / h);
  }

  lemma ViewClosedForm(s: CameraState, q: Vec2)
    ensures PlanarAffine(View(s))
    ensures TransformPoint(q, View(s)) == Mul(Sub(q, s.position), s.zoom)
  {
    var t := Translation(-s.position.x, -s.position.y, 0.0);
    var z := Scaling(s.zoom.x, s.zoom.y, 1.0);
    TranslationScalingRotationArePlanar(-s.position.x, -s.position.y, 0.0, NoRotation);
    TranslationScalingRotationArePlanar(s.zoom.x, s.zoom.y, 1.0, NoRotation);
    TransformPointMatMul(q, t, z);
  }

  /**
    The camera matrix takes a pixel to clip space first, then subtracts the
    position and multiplies by the zoom there.
  */
  lemma ViewProjectionClosedForm(s: CameraState, p: Vec2)
    requires HasArea(s)
    ensures TransformPoint(p, ViewProjection(s)) == Mul(Sub(ScreenToClip(s, p), s.position), s.zoom)
  {
    ProjectionClosedForm(s, p);
    ViewClosedForm(s, ScreenToClip(s, p));
    TransformPointMatMul(p, Projection(s), View(s));
  }

  /**
    The default camera maps the top-left pixel corner to clip (-1, 1) and
    the bottom-right one to (1, -1): Y points down.
  */
  lemma DefaultCameraCorners(w: int, h: int)
    requires w != 0 && h != 0
    ensures var s := CameraState(Zero2, One2, w, h);
            TransformPoint(Zero2, ViewProjection(s)) == Vec2(-1.0, 1.0) &&
            TransformPoint(Vec2(w as real, h as real), ViewProjection(s)) == Vec2(1.0, -1.0)
  {
    var s := CameraState(Zero2, One2, w, h);
    ViewProjectionClosedForm(s, Zero2);
    ViewProjectionClosedForm(s, Vec2(w as real, h as real));
    ScreenCorners(s);
  }

  lemma ScreenCorners(s: CameraState)
    requires HasArea(s)
    ensures ScreenToClip(s, Zero2) == Vec2(-1.0, 1.0)
    ensures ScreenToClip(s, Vec2(s.width as real, s.height as real)) == Vec2(1.0, -1.0)
  {
    var w := s.width as real;
    var h := s.height as real;
    assert 2.0 * w / w == 2.0;
    assert 2.0 * h / h == 2.0;
  }

  /**
    With zoom (1, 1), moving the camera by `position` moves every clip
    coordinate by `position` itself: the pan is measured in clip units (a
    whole viewport is 2 units), not in pixels.
  */
  lemma PanIsInClipUnits(s: CameraState, p: Vec2)
    requires HasArea(s) && s.zoom == One2
    ensures TransformPoint(p, ViewProjection(s))
         == Sub(TransformPoint(p, ViewProjection(s.(position := Zero2))), s.position)
  {
    var s0 := s.(position := Zero2);
    var c := ScreenToClip(s, p);
    assert ScreenToClip(s0, p) == c;
    ViewProjectionClosedForm(s, p);
    ViewProjectionClosedForm(s0, p);
    assert TransformPoint(p, ViewProjection(s)) == Mul(Sub(c, s.position), One2);
    assert TransformPoint(p, ViewProjection(s0)) == Mul(Sub(c, Zero2), One2);
    UnitZoomPan(c, s.position);
  }

  lemma UnitZoomPan(c: Vec2, position: Vec2)
    ensures Mul(Sub(c, position), One2) == Sub(Mul(Sub(c, Zero2), One2), position)
  {
  }

  /** Resizing twice to the same size is resizing once, so the matrix is the same too. */
  lemma ResizeIdempotent(s: CameraState, w: int, h: int)
    ensures Resized(Resized(s, w, h), w, h) == Resized(s, w, h)
    ensures w != 0 && h != 0 ==>
              ViewProjection(Resized(Resized(s, w, h), w, h)) == ViewProjection(Resized(s, w, h))
  {
  }

  class Camera2D {
    var position: Vec2
    var zoom: Vec2
    var viewportWidth: int
    var viewportHeight: int

    function State(): CameraState
      reads this
    {
      CameraState(position, zoom, viewportWidth, viewportHeight)
    }

    constructor (width: int, height: int)
      ensures State() == CameraState(Zero2, One2, width, height)
    {
      position := Zero2;
      zoom := One2;
      viewportWidth := width;
      viewportHeight := height;
    }

    method Resize(width: int, height: int)
      modifies this
      ensures State() == Resized(old(State()), width, height)
    {
      viewportWidth := width;
      viewportHeight := height;
    }

    /** A pure function of position, zoom and viewport. */
    function GetMatrix(): (m: Mat4)
      reads this
      requires HasArea(State())
      ensures forall p: Vec2 {:trigger TransformPoint(p, m)} ::
                TransformPoint(p, m) == Mul(Sub(ScreenToClip(State(), p), position), zoom)
    {
      var m := ViewProjection(State());
      forall p: Vec2 ensures TransformPoint(p, m) == Mul(Sub(ScreenToClip(State(), p), position), zoom) {
        ViewProjectionClosedForm(State(), p);
      }
      m
    }
  }
}
