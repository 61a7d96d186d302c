/**
 * Cover-fit placement of the profile picture inside its circular clip:
 * the picture is scaled uniformly so that its smaller side spans the
 * circle's diameter (times the configured scale) and is centred on the
 * circle's centre. Arithmetic is over the reals; rounding of the
 * browser's floating point is not modelled.
 */
module Geometry {
  import opened Layout

  /** A decoded image dimension in pixels. */
  type Dim = n: int | n > 0 witness 1

  /** The rectangle an image is drawn into: top-left corner and size. */
  datatype Rect = Rect(x: real, y: real, w: real, h: real)

  function Max(a: real, b: real): (m: real)
    ensures m >= a && m >= b && (m == a || m == b)
  {
    if a >= b then a else b
  }

  /** The uniform factor applied to a `width` by `height` picture. */
  function CoverScale(frame: PictureFrame, width: Dim, height: Dim): (sc: real)
    ensures frame.radius >= 0.0 && frame.scale >= 0.0 ==> sc >= 0.0
  {
    frame.scale * Max(frame.radius * 2.0 / width as real, frame.radius * 2.0 / height as real)
  }

  /** For a non-negative radius, the factor maps the picture's shorter side
      exactly onto the frame's diameter times its scale. */
  lemma CoverScaleFitsShorterSide(frame: PictureFrame, width: Dim, height: Dim)
    requires frame.radius >= 0.0
    ensures CoverScale(frame, width, height) * (if width <= height then width else height) as real
      == frame.scale * frame.radius * 2.0
  {
  }

  /** Where the scaled picture is drawn: centred on the frame's centre, with
      both sides scaled by the same factor, so the aspect ratio is kept. */
  function CoverRect(frame: PictureFrame, width: Dim, height: Dim): (r: Rect)
    ensures r.x + r.w / 2.0 == frame.x && r.y + r.h / 2.0 == frame.y
    ensures r.w * height as real == r.h * width as real
  {
    var scale := CoverScale(frame, width, height);
    var scaledWidth := width as real * scale;
    var scaledHeight := height as real * scale;
    Rect(frame.x - scaledWidth / 2.0, frame.y - scaledHeight / 2.0, scaledWidth, scaledHeight)
  }

  /** For a non-negative radius and scale, both sides of the drawn picture are
      at least the scaled diameter, and the smaller side equals it exactly. */
  lemma CoverFitSpansDiameter(frame: PictureFrame, width: Dim, height: Dim)
    requires frame.radius >= 0.0 && frame.scale >= 0.0
    ensures var r := CoverRect(frame, width, height);
      && r.w >= 2.0 * frame.radius * frame.scale
      && r.h >= 2.0 * frame.radius * frame.scale
      && (r.w == 2.0 * frame.radius * frame.scale || r.h == 2.0 * frame.radius * frame.scale)
  {
  }

  lemma ScaleMonotone(a: real, b: real, s: real)
    requires a >= b && s >= 0.0
    ensures a * s >= b * s
  {
  }

  lemma PositiveProduct(x: real, y: real)
    requires x > 0.0 && y > 0.0
    ensures x * y > 0.0
  {
  }

  lemma SquareGrows(a: real, b: real)
    requires 0.0 <= a < b
    ensures a * a < b * b
  {
    assert b * b - a * a == (b - a) * (b + a);
    PositiveProduct(b - a, b + a);
  }

  /** A point no farther than `r` from a centre lies within `r` of it along each axis. */
  lemma {:induction false} WithinRadiusOnAxis(dx: real, dy: real, r: real)
    requires r >= 0.0 && dx * dx + dy * dy <= r * r
    ensures -r <= dx <= r
  {
    assert dx * dx <= r * r;
    if dx > r {
      SquareGrows(r, dx);
      assert false;
    } else if dx < -r {
      SquareGrows(r, -dx);
      assert false;
    }
  }

  /** With a scale of at least 1, every point of the clip circle is inside the
      drawn picture, so the circle shows no uncovered gap. */
  lemma CoverFitCoversCircle(frame: PictureFrame, width: Dim, height: Dim, px: real, py: real)
    requires frame.radius >= 0.0 && frame.scale >= 1.0
    requires (px - frame.x) * (px - frame.x) + (py - frame.y) * (py - frame.y) <= frame.radius * frame.radius
    ensures var r := CoverRect(frame, width, height);
      r.x <= px <= r.x + r.w && r.y <= py <= r.y + r.h
  {
    CoverFitSpansDiameter(frame, width, height);
    ScaleMonotone(frame.scale, 1.0, 2.0 * frame.radius);
    WithinRadiusOnAxis(px - frame.x, py - frame.y, frame.radius);
    WithinRadiusOnAxis(py - frame.y, px - frame.x, frame.radius);
  }
}
