/**
 * Board geometry and the radial zone lookup of a dartboard.
 *
 * A dart lands at some distance (in millimetres) from the centre of the
 * board. Seven concentric radii split the plane into eight zones, and the
 * lookup is an ordered chain of strict "less than" tests, innermost radius
 * first. A distance that falls exactly on a radius therefore belongs to the
 * zone outside that radius.
 */
module Zones {

  /** The eight counted zones, listed from the centre outwards. */
  datatype Zone =
    | Bullseye      // inside the double bull
    | SingleBull    // inside the single bull ring
    | InnerSingle   // between the single bull and the triple ring
    | Triple        // the triple ring
    | OuterSingle   // between the triple ring and the double ring
    | Double        // the double ring
    | MissedScores  // on the board, outside every scoring ring
    | MissedBoard   // off the board

  /** Position of a zone counted from the centre outwards. */
  function Rank(z: Zone): (k: nat)
    ensures k < 8
  {
    match z
    case Bullseye => 0
    case SingleBull => 1
    case InnerSingle => 2
    case Triple => 3
    case OuterSingle => 4
    case Double => 5
    case MissedScores => 6
    case MissedBoard => 7
  }

  /**
   * The fixed measurements of a board: seven radii in millimetres and the
   * magnification applied to them on the drawing surface.
   */
  datatype Geometry = Geometry(
    distBoardEdge: real,
    distOuterDouble: real,
    distInnerDouble: real,
    distOuterTriple: real,
    distInnerTriple: real,
    distSingleBull: real,
    distDoubleBull: real,
    increaseFactor: real)

  /** The measurements every board is built with. */
  const DefaultGeometry := Geometry(224.0, 169.0, 160.0, 107.0, 96.0, 17.0, 7.0, 2.0)

  /** Radii strictly increasing outwards and a positive magnification. */
  predicate Ordered(g: Geometry) {
    && 0.0 < g.distDoubleBull
    && g.distDoubleBull < g.distSingleBull
    && g.distSingleBull < g.distInnerTriple
    && g.distInnerTriple < g.distOuterTriple
    && g.distOuterTriple < g.distInnerDouble
    && g.distInnerDouble < g.distOuterDouble
    && g.distOuterDouble < g.distBoardEdge
    && 0.0 < g.increaseFactor
  }

  lemma DefaultGeometryOrdered()
    ensures Ordered(DefaultGeometry)
  {
  }

  /**
   * The zone a distance (in millimetres from the centre) falls into: the
   * first radius, innermost first, that the distance is strictly below.
   */
  function Classify(g: Geometry, distance: real): (z: Zone)
    ensures Ordered(g) ==> InZone(g, z, distance)
  {
    if distance < g.distDoubleBull then Bullseye
    else if distance < g.distSingleBull then SingleBull
    else if distance < g.distInnerTriple then InnerSingle
    else if distance < g.distOuterTriple then Triple
    else if distance < g.distInnerDouble then OuterSingle
    else if distance < g.distOuterDouble then Double
    else if distance < g.distBoardEdge then MissedScores
    else MissedBoard
  }

  /** The radius that bounds a zone on the outside. */
  function OuterRadius(g: Geometry, z: Zone): real
    requires z != MissedBoard
  {
    match z
    case Bullseye => g.distDoubleBull
    case SingleBull => g.distSingleBull
    case InnerSingle => g.distInnerTriple
    case Triple => g.distOuterTriple
    case OuterSingle => g.distInnerDouble
    case Double => g.distOuterDouble
    case MissedScores => g.distBoardEdge
  }

  /** The radius that bounds a zone on the inside. */
  function InnerRadius(g: Geometry, z: Zone): real
    requires z != Bullseye
  {
    match z
    case SingleBull => g.distDoubleBull
    case InnerSingle => g.distSingleBull
    case Triple => g.distInnerTriple
    case OuterSingle => g.distOuterTriple
    case Double => g.distInnerDouble
    case MissedScores => g.distOuterDouble
    case MissedBoard => g.distBoardEdge
  }

  /**
   * Reference definition of the zones as half-open intervals
   * [inner radius, outer radius); the innermost zone has no lower bound and
   * the outermost no upper bound.
   */
  predicate InZone(g: Geometry, z: Zone, distance: real) {
    && (z == Bullseye || InnerRadius(g, z) <= distance)
    && (z == MissedBoard || distance < OuterRadius(g, z))
  }

  /**
   * On an ordered board the chain of tests picks exactly the zone whose
   * half-open interval holds the distance.
   */
  lemma ClassifyIsInterval(g: Geometry, distance: real, z: Zone)
    requires Ordered(g)
    ensures Classify(g, distance) == z <==> InZone(g, z, distance)
  {
  }

  /** The zone never moves inwards as the distance grows (for any radii). */
  lemma ClassifyMonotone(g: Geometry, d1: real, d2: real)
    requires d1 <= d2
    ensures Rank(Classify(g, d1)) <= Rank(Classify(g, d2))
  {
  }

  /**
   * A distance exactly on a zone's outer radius lands in the next zone out:
   * one step outwards, never the zone itself and never further.
   */
  lemma BoundaryGoesOutward(g: Geometry, z: Zone)
    requires Ordered(g) && z != MissedBoard
    ensures Rank(Classify(g, OuterRadius(g, z))) == Rank(z) + 1
  {
  }

  lemma DefaultClassification()
    ensures Classify(DefaultGeometry, 5.0) == Bullseye
    ensures Classify(DefaultGeometry, 7.0) == SingleBull
    ensures Classify(DefaultGeometry, 50.0) == InnerSingle
    ensures Classify(DefaultGeometry, 96.0) == Triple
    ensures Classify(DefaultGeometry, 100.0) == Triple
    ensures Classify(DefaultGeometry, 150.0) == OuterSingle
    ensures Classify(DefaultGeometry, 165.0) == Double
    ensures Classify(DefaultGeometry, 200.0) == MissedScores
    ensures Classify(DefaultGeometry, 224.0) == MissedBoard
    ensures Classify(DefaultGeometry, 230.0) == MissedBoard
  {
  }

  /**
   * A rounded pixel distance on the magnified surface, turned back into
   * millimetres.
   */
  function BoardDistance(g: Geometry, pixels: nat): (d: real)
    requires 0.0 < g.increaseFactor
    ensures 0.0 <= d && d * g.increaseFactor == pixels as real
  {
    pixels as real / g.increaseFactor
  }

  /** The millimetre distances of a sequence of rounded pixel distances. */
  function BoardDistances(g: Geometry, pixels: seq<nat>): (ds: seq<real>)
    requires 0.0 < g.increaseFactor
    ensures |ds| == |pixels|
    ensures forall k :: 0 <= k < |ds| ==> ds[k] == BoardDistance(g, pixels[k])
  {
    if pixels == [] then []
    else [BoardDistance(g, pixels[0])] + BoardDistances(g, pixels[1..])
  }

  /**
   * Comparing the millimetre distance with a radius is the same as
   * comparing the pixel distance with the magnified radius.
   */
  lemma BoardDistanceBelow(g: Geometry, pixels: nat, radius: real)
    requires 0.0 < g.increaseFactor
    ensures BoardDistance(g, pixels) < radius <==> pixels as real < g.increaseFactor * radius
  {
  }

  /** Nearest integer, halves rounded upwards (JavaScript's Math.round). */
  function RoundHalfUp(x: real): (n: int)
    ensures n as real <= x + 0.5 < n as real + 1.0
  {
    (x + 0.5).Floor
  }

  /** Side of the square drawing surface: the magnified board diameter. */
  function SurfaceSide(g: Geometry): (side: real)
    requires Ordered(g)
    ensures side > 0.0
  {
    2.0 * (g.increaseFactor * g.distBoardEdge)
  }

  /** The surface's centre is the midpoint of its side, rounded. */
  function CenterCoordinate(g: Geometry): (c: int)
    requires Ordered(g)
    ensures c as real <= SurfaceSide(g) / 2.0 + 0.5 < c as real + 1.0
  {
    RoundHalfUp(SurfaceSide(g) / 2.0)
  }

  lemma DefaultSurface()
    ensures Ordered(DefaultGeometry)
    ensures SurfaceSide(DefaultGeometry) == 896.0
    ensures CenterCoordinate(DefaultGeometry) == 448
  {
  }
}
