/**
 * Regions of interest: circles drawn on the edited image, kept in pixel space, and their
 * conversion to relative coordinates for the AI service (normalizeCircles of the result section).
 * JavaScript numbers are abstracted as exact reals.
 */
module Regions {

  datatype Circle = Circle(x: real, y: real, radius: real)

  /** The intrinsic size of the edited image (the store's `canvasSize`). */
  datatype Size = Size(width: real, height: real)

  function Min(a: real, b: real): real {
    if a <= b then a else b
  }

  /** One circle in relative space: x over the width, y flipped (1 at the top edge), radius over the
      smaller side. */
  function Normalize(c: Circle, width: real, height: real): Circle
    requires width != 0.0 && height != 0.0
  {
    Circle(c.x / width, 1.0 - c.y / height, c.radius / Min(width, height))
  }

  /** normalizeCircles(width, height): fails closed with [] when a side is 0. */
  function NormalizeCircles(circles: seq<Circle>, width: real, height: real): (r: seq<Circle>)
    ensures width == 0.0 || height == 0.0 ==> r == []
    ensures width != 0.0 && height != 0.0 ==> |r| == |circles|
  {
    if width == 0.0 || height == 0.0 then []
    else seq(|circles|, i requires 0 <= i < |circles| => Normalize(circles[i], width, height))
  }

  /** The inverse scale-up: back from relative space to pixel space. */
  function Denormalize(c: Circle, width: real, height: real): Circle {
    Circle(c.x * width, (1.0 - c.y) * height, c.radius * Min(width, height))
  }

  lemma DenormalizeNormalize(c: Circle, width: real, height: real)
    requires width != 0.0 && height != 0.0
    ensures Denormalize(Normalize(c, width, height), width, height) == c
  {
    var m := Min(width, height);
    assert (c.x / width) * width == c.x;
    assert (1.0 - (1.0 - c.y / height)) * height == c.y;
    assert (c.radius / m) * m == c.radius;
  }

  /** Normalising keeps the number and order of circles, and scaling back up gives every one back. */
  lemma NormalizeRoundTrip(circles: seq<Circle>, width: real, height: real)
    requires width != 0.0 && height != 0.0
    ensures var r := NormalizeCircles(circles, width, height);
      |r| == |circles| &&
      forall i :: 0 <= i < |r| ==> Denormalize(r[i], width, height) == circles[i]
  {
    var r := NormalizeCircles(circles, width, height);
    forall i | 0 <= i < |r| ensures Denormalize(r[i], width, height) == circles[i] {
      DenormalizeNormalize(circles[i], width, height);
    }
  }

  /** A circle inside a positive frame lands in [0, 1] on every coordinate. */
  lemma NormalizeInUnitRange(c: Circle, width: real, height: real)
    requires width > 0.0 && height > 0.0
    requires 0.0 <= c.x <= width && 0.0 <= c.y <= height && 0.0 <= c.radius <= Min(width, height)
    ensures var n := Normalize(c, width, height);
      0.0 <= n.x <= 1.0 && 0.0 <= n.y <= 1.0 && 0.0 <= n.radius <= 1.0
  {
    var m := Min(width, height);
    DivideWithin(c.x, width);
    DivideWithin(c.y, height);
    DivideWithin(c.radius, m);
  }

  lemma DivideWithin(a: real, b: real)
    requires b > 0.0 && 0.0 <= a <= b
    ensures 0.0 <= a / b <= 1.0
  {
    assert a / b * b == a;
  }

  /** The flip sends the top edge to 1 and the bottom edge to 0. */
  lemma FlipAtEdges(x: real, r: real, width: real, height: real)
    requires width != 0.0 && height != 0.0
    ensures Normalize(Circle(x, 0.0, r), width, height).y == 1.0
    ensures Normalize(Circle(x, height, r), width, height).y == 0.0
  {
  }

  /** A circle centred at (200, 260) with radius 60 on a 400 x 300 image. */
  lemma NormalizeExample()
    ensures NormalizeCircles([Circle(200.0, 260.0, 60.0)], 400.0, 300.0) == [Circle(0.5, 2.0 / 15.0, 0.2)]
  {
    var r := NormalizeCircles([Circle(200.0, 260.0, 60.0)], 400.0, 300.0);
    assert r[0] == Circle(0.5, 2.0 / 15.0, 0.2);
  }
}
