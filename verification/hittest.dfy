/** The fire-time hit resolver of src/pages/ShootingGame.tsx: the crosshair
    and the cube are two bounding boxes measured at the moment of the
    click; the shot hits when their centres are closer than a forgiving
    radius, and a miss is told apart as "too far" or "imprecise".

    The source compares the Euclidean distance of the centres; the model
    compares its square, so that no square root is needed, and
    `HitByDistance` and `MissReasonByDistance` show the two comparisons
    agree. */
module HitTest {
  import opened Geometry

  /** Only 90% of the cube's half-width counts toward the hit radius. */
  const OverlapFactor: real := 0.9
  /** A miss farther out than 1.5 hit radii is "too far". */
  const TooFarFactor: real := 1.5

  /** A bounding box as the viewport reports it, in pixels. */
  datatype Box = Box(left: real, top: real, width: real, height: real)

  datatype MissReason = TooFar | Imprecise

  datatype Verdict = Hit | Miss(reason: MissReason)

  function BoxCentre(b: Box): Vec
  {
    Vec(b.left + b.width / 2.0, b.top + b.height / 2.0)
  }

  /** Half the crosshair's width plus 90% of half the cube's width. Heights
      play no part. */
  function HitRadius(crosshair: Box, cube: Box): real
  {
    crosshair.width / 2.0 + cube.width / 2.0 * OverlapFactor
  }

  function CentreDistanceSquared(crosshair: Box, cube: Box): (d2: real)
    ensures d2 >= 0.0
  {
    SquaredDistance(BoxCentre(crosshair), BoxCentre(cube))
  }

  /** The verdict for one shot. */
  function Resolve(crosshair: Box, cube: Box): (v: Verdict)
    ensures v == Hit ==> HitRadius(crosshair, cube) > 0.0
  {
    var h := HitRadius(crosshair, cube);
    var d2 := CentreDistanceSquared(crosshair, cube);
    if h > 0.0 && d2 < h * h then Hit
    else if h < 0.0 || d2 > (TooFarFactor * h) * (TooFarFactor * h) then Miss(TooFar)
    else Miss(Imprecise)
  }

  /** For the Euclidean distance `dist` of the two centres (any non-negative
      number whose square is the squared distance), the shot hits exactly
      when `dist` is below the hit radius. */
  lemma HitByDistance(crosshair: Box, cube: Box, dist: real)
    requires dist >= 0.0 && dist * dist == CentreDistanceSquared(crosshair, cube)
    ensures Resolve(crosshair, cube) == Hit <==> dist < HitRadius(crosshair, cube)
  {
    CompareBySquares(dist, HitRadius(crosshair, cube));
  }

  /** For the same `dist`, a miss is "too far" exactly when `dist` exceeds
      1.5 hit radii, and "imprecise" exactly when it lies between one and
      1.5 hit radii. */
  lemma MissReasonByDistance(crosshair: Box, cube: Box, dist: real)
    requires dist >= 0.0 && dist * dist == CentreDistanceSquared(crosshair, cube)
    ensures Resolve(crosshair, cube) == Miss(TooFar) <==>
      dist >= HitRadius(crosshair, cube) && dist > TooFarFactor * HitRadius(crosshair, cube)
    ensures Resolve(crosshair, cube) == Miss(Imprecise) <==>
      HitRadius(crosshair, cube) <= dist <= TooFarFactor * HitRadius(crosshair, cube)
  {
    var h := HitRadius(crosshair, cube);
    CompareBySquares(dist, h);
    CompareBySquares(dist, TooFarFactor * h);
  }

  /** The verdict depends on the boxes only through their centres and
      widths: resizing a box vertically about the same centre changes nothing. */
  lemma ResolveIgnoresHeights(crosshair: Box, cube: Box, crosshair': Box, cube': Box)
    requires BoxCentre(crosshair) == BoxCentre(crosshair') && crosshair.width == crosshair'.width
    requires BoxCentre(cube) == BoxCentre(cube') && cube.width == cube'.width
    ensures Resolve(crosshair, cube) == Resolve(crosshair', cube')
  {
  }

  /** A worked hit: a 100-pixel crosshair and a 44-pixel cube whose centre
      is 12 pixels off on each axis. */
  lemma SampleHit()
    ensures Resolve(Box(0.0, 0.0, 100.0, 100.0), Box(40.0, 40.0, 44.0, 44.0)) == Hit
  {
    var crosshair, cube := Box(0.0, 0.0, 100.0, 100.0), Box(40.0, 40.0, 44.0, 44.0);
    assert BoxCentre(crosshair) == Vec(50.0, 50.0) && BoxCentre(cube) == Vec(62.0, 62.0);
    assert CentreDistanceSquared(crosshair, cube) == 288.0;
    assert HitRadius(crosshair, cube) == 69.8;
  }

  /** A worked miss: the same sizes with the centres at (0, 0) and
      (500, 500) are too far apart. */
  lemma SampleMiss()
    ensures Resolve(Box(-50.0, -50.0, 100.0, 100.0), Box(478.0, 478.0, 44.0, 44.0)) == Miss(TooFar)
  {
    var crosshair, cube := Box(-50.0, -50.0, 100.0, 100.0), Box(478.0, 478.0, 44.0, 44.0);
    assert BoxCentre(crosshair) == Vec(0.0, 0.0) && BoxCentre(cube) == Vec(500.0, 500.0);
    assert CentreDistanceSquared(crosshair, cube) == 500000.0;
    assert HitRadius(crosshair, cube) == 69.8;
  }
}
