/** The gate address: a six-slot integer tuple [galaxy, reference azimuth,
    reference magnitude, azimuth, altitude, magnitude] holding a quantised
    spherical position. This module holds the arithmetic of GateNetwork's
    CalculateAddress and ExtractFromAddress; the classes that own gates call it. */
module AddressCodec {
  import opened Mathf
  import opened UnityEngine
  import opened Utils
  import opened Arith

  datatype Option<T> = None | Some(value: T)

  /** The digit base and digit count of an address slot. */
  const BaseN: int := 32
  const NumDigits: nat := 2

  /** The search radius around a grid point, in degrees. */
  const BaseRadius: real := 0.2

  /** The precision to which ExtractFromAddress snaps the decoded position. */
  const Precision: real := 1.0 / 10000.0

  /** The value that marks an unused slot. */
  const Unused: int := -1

  function Power(b: int, n: nat): int {
    if n == 0 then 1 else b * Power(b, n - 1)
  }

  /** The resolution of the address: maxVal values per slot, nPerDegree degrees
      per azimuth step (altitude steps are twice that) and nPerDist units of
      length per magnitude step. */
  datatype Grid = Grid(maxVal: int, nPerDegree: real, nPerDist: real)

  /** What the quantisation lemmas need of a grid: maxVal * nPerDegree is a full
      turn, maxVal is a positive multiple of 8, and both steps are positive. */
  predicate WellFormed(g: Grid) {
    && 0 < g.maxVal && g.maxVal % 8 == 0
    && 0.0 < g.nPerDegree && g.nPerDegree * g.maxVal as real == 360.0
    && 0.0 < g.nPerDist
  }

  /** The constants GateNetwork.Start computes for a galaxy of the given radius:
      maxVal = baseN^numDigits, nPerDegree = 360 / maxVal and
      nPerDist = radius * 6 / maxVal. */
  function Setup(radius: real): (g: Grid)
    ensures g.maxVal == 1024
    ensures 0.0 < radius ==> WellFormed(g)
  {
    var maxVal := Round(Power(BaseN, NumDigits) as real);
    RoundOfInteger(Power(BaseN, NumDigits));
    Grid(maxVal, 360.0 / maxVal as real, (radius * 6.0) / maxVal as real)
  }

  // ---------------------------------------------------------------------------
  // Quantisation (CalculateAddress) and its inverse (ExtractFromAddress)

  /** azimuthN = RoundToInt(azimuth / nPerDegree + maxVal / 2), with maxVal / 2
      an integer division. */
  function AzimuthN(g: Grid, azimuth: real): int
    requires g.nPerDegree != 0.0
  {
    Round(azimuth / g.nPerDegree + (g.maxVal / 2) as real)
  }

  /** altitudeN = RoundToInt(altitude / (nPerDegree * 2) + maxVal / 2). */
  function AltitudeN(g: Grid, altitude: real): int
    requires g.nPerDegree != 0.0
  {
    Round(altitude / (g.nPerDegree * 2.0) + (g.maxVal / 2) as real)
  }

  /** magnitudeN = RoundToInt(gridMagnitude / nPerDist). */
  function MagnitudeN(g: Grid, magnitude: real): int
    requires g.nPerDist != 0.0
  {
    Round(magnitude / g.nPerDist)
  }

  /** azimuth = azimuthN * nPerDegree - 360 / 2. */
  function AzimuthOf(g: Grid, n: int): real {
    n as real * g.nPerDegree - 180.0
  }

  /** altitude = altitudeN * (nPerDegree * 2) - 360. */
  function AltitudeOf(g: Grid, n: int): real {
    n as real * (g.nPerDegree * 2.0) - 360.0
  }

  /** magnitude = magnitudeN * nPerDist. */
  function MagnitudeOf(g: Grid, n: int): real {
    n as real * g.nPerDist
  }

  /** Half of maxVal steps of nPerDegree make half a turn. */
  lemma HalfTurn(g: Grid)
    requires WellFormed(g)
    ensures (g.maxVal / 2) as real * g.nPerDegree == 180.0
    ensures 180.0 / g.nPerDegree == (g.maxVal / 2) as real
  {
    var h := g.maxVal / 2;
    EvenHalves(g.maxVal);
    HalfProduct(g.maxVal as real, h as real, g.nPerDegree);
    DivExact(180.0, g.nPerDegree, h as real);
  }

  /** Decoding an azimuth slot and quantising again gives the slot back. */
  lemma AzimuthSlotRoundTrip(g: Grid, n: int)
    requires WellFormed(g)
    ensures AzimuthN(g, AzimuthOf(g, n)) == n
  {
    HalfTurn(g);
    var h := (g.maxVal / 2) as real;
    DivExact(AzimuthOf(g, n), g.nPerDegree, n as real - h);
    RoundOfInteger(n);
  }

  /** Decoding an altitude slot and quantising again gives the slot back. */
  lemma AltitudeSlotRoundTrip(g: Grid, n: int)
    requires WellFormed(g)
    ensures AltitudeN(g, AltitudeOf(g, n)) == n
  {
    HalfTurn(g);
    var h := (g.maxVal / 2) as real;
    DivExact(AltitudeOf(g, n), g.nPerDegree * 2.0, n as real - h);
    RoundOfInteger(n);
  }

  /** Decoding a magnitude slot and quantising again gives the slot back. */
  lemma MagnitudeSlotRoundTrip(g: Grid, n: int)
    requires WellFormed(g)
    ensures MagnitudeN(g, MagnitudeOf(g, n)) == n
  {
    DivExact(MagnitudeOf(g, n), g.nPerDist, n as real);
    RoundOfInteger(n);
  }

  /** Quantising an azimuth and decoding it again moves it by at most half an
      azimuth step. */
  lemma AzimuthRoundTrip(g: Grid, azimuth: real)
    requires WellFormed(g)
    ensures Abs(AzimuthOf(g, AzimuthN(g, azimuth)) - azimuth) <= g.nPerDegree / 2.0
  {
    HalfTurn(g);
    var p := g.nPerDegree;
    var h := (g.maxVal / 2) as real;
    var q := azimuth / p + h;
    var n := AzimuthN(g, azimuth);
    DivMul(azimuth, p);
    assert AzimuthOf(g, n) - azimuth == n as real * p - q * p;
    RoundingError(q, n as real, p);
  }

  /** Quantising an altitude and decoding it again moves it by at most one
      azimuth step (half an altitude step). */
  lemma AltitudeRoundTrip(g: Grid, altitude: real)
    requires WellFormed(g)
    ensures Abs(AltitudeOf(g, AltitudeN(g, altitude)) - altitude) <= g.nPerDegree
  {
    HalfTurn(g);
    var step := g.nPerDegree * 2.0;
    var h := (g.maxVal / 2) as real;
    var q := altitude / step + h;
    var n := AltitudeN(g, altitude);
    DivMul(altitude, step);
    assert AltitudeOf(g, n) - altitude == n as real * step - q * step;
    RoundingError(q, n as real, step);
  }

  /** Quantising a magnitude and decoding it again moves it by at most half a
      distance step. */
  lemma MagnitudeRoundTrip(g: Grid, magnitude: real)
    requires WellFormed(g)
    ensures Abs(MagnitudeOf(g, MagnitudeN(g, magnitude)) - magnitude) <= g.nPerDist / 2.0
  {
    var q := magnitude / g.nPerDist;
    var n := MagnitudeN(g, magnitude);
    DivMul(magnitude, g.nPerDist);
    RoundingError(q, n as real, g.nPerDist);
  }

  /** A magnitude already snapped to the distance grid survives the round trip
      exactly. */
  lemma SnappedMagnitudeRoundTrip(g: Grid, magnitude: real)
    requires WellFormed(g)
    ensures MagnitudeOf(g, MagnitudeN(g, SnapToGrid(magnitude, g.nPerDist))) == SnapToGrid(magnitude, g.nPerDist)
  {
    var k := Round(magnitude / g.nPerDist);
    assert SnapToGrid(magnitude, g.nPerDist) == MagnitudeOf(g, k);
    MagnitudeSlotRoundTrip(g, k);
  }

  /** An azimuth in [-180, 180] gives a slot in [0, maxVal]. */
  lemma AzimuthRange(g: Grid, azimuth: real)
    requires WellFormed(g)
    requires -180.0 <= azimuth <= 180.0
    ensures 0 <= AzimuthN(g, azimuth) <= g.maxVal
  {
    HalfTurn(g);
    var h := (g.maxVal / 2) as real;
    QuotientBetween(azimuth, g.nPerDegree, -h, h);
    RoundBetween(azimuth / g.nPerDegree + h, 0, g.maxVal);
  }

  /** The upper end is reached: an azimuth of 180 degrees takes slot value
      maxVal itself, one more than numDigits base-baseN digits can hold. */
  lemma AzimuthReachesMaxVal(g: Grid)
    requires WellFormed(g)
    ensures AzimuthN(g, 180.0) == g.maxVal
  {
    HalfTurn(g);
    assert 180.0 / g.nPerDegree + (g.maxVal / 2) as real == g.maxVal as real;
    RoundOfInteger(g.maxVal);
  }

  /** An altitude in [-90, 90] gives a slot in [3 maxVal / 8, 5 maxVal / 8]. */
  lemma AltitudeRange(g: Grid, altitude: real)
    requires WellFormed(g)
    requires -90.0 <= altitude <= 90.0
    ensures 3 * g.maxVal / 8 <= AltitudeN(g, altitude) <= 5 * g.maxVal / 8
  {
    HalfTurn(g);
    var e := g.maxVal / 8;
    var step := g.nPerDegree * 2.0;
    assert g.maxVal / 2 == 4 * e && 3 * g.maxVal / 8 == 3 * e && 5 * g.maxVal / 8 == 5 * e;
    MulEq((g.maxVal / 2) as real, 4.0 * e as real, g.nPerDegree);
    QuotientBetween(altitude, step, -(e as real), e as real);
    RoundBetween(altitude / step + (4 * e) as real, 3 * e, 5 * e);
  }

  /** A non-negative magnitude gives a non-negative slot. */
  lemma MagnitudeRange(g: Grid, magnitude: real)
    requires WellFormed(g)
    requires 0.0 <= magnitude
    ensures 0 <= MagnitudeN(g, magnitude)
  {
    var t := magnitude / g.nPerDist;
    QuotientBetween(magnitude, g.nPerDist, 0.0, t);
    RoundBetween(t, 0, t.Floor + 1);
  }

  // ---------------------------------------------------------------------------
  // Encoding a position (CalculateAddress)

  /** The gate's distance from the centre snapped to the distance grid. */
  function GridMagnitude(e: Engine, g: Grid, position: Vec3): real
    requires g.nPerDist != 0.0
  {
    SnapToGrid(Magnitude(e, position), g.nPerDist)
  }

  /** The grid point standing in for a position: the Euler angles of the
      rotation from up to the position, each snapped to nPerDegree, applied to
      up and stretched to the snapped magnitude. */
  function GridPosition(e: Engine, g: Grid, position: Vec3): Vec3
    requires g.nPerDegree != 0.0 && g.nPerDist != 0.0
  {
    var angles := e.eulerFromUp(position);
    var snapped := Vec3(
      SnapToGrid(angles.x, g.nPerDegree),
      SnapToGrid(angles.y, g.nPerDegree),
      SnapToGrid(angles.z, g.nPerDegree));
    Scale(e.rotateUp(snapped), GridMagnitude(e, g, position))
  }

  /** How far the grid point may lie from the gate: sin(baseRadius / 2 degrees)
      times the snapped magnitude. */
  function Allowance(e: Engine, g: Grid, position: Vec3): real
    requires g.nPerDist != 0.0
  {
    e.sinDeg(BaseRadius / 2.0) * GridMagnitude(e, g, position)
  }

  /** The grid point is close enough to the gate; the bound is inclusive. */
  predicate InRange(e: Engine, g: Grid, position: Vec3)
    requires g.nPerDegree != 0.0 && g.nPerDist != 0.0
  {
    Distance(e, GridPosition(e, g, position), position) <= Allowance(e, g, position)
  }

  /** What CalculateAddress produces for a gate without a static address: the
      address, the grid position it stores on the gate and the in-range flag. */
  datatype Encoding = Encoding(address: seq<int>, gridPosition: Vec3, inRange: bool)

  /** The azimuth and altitude, in degrees, of a grid position. */
  function AzimuthOfPoint(e: Engine, p: Vec3): real {
    e.atan2Deg(p.z, p.x)
  }

  function AltitudeOfPoint(e: Engine, p: Vec3): real {
    e.elevationDeg(p)
  }

  /** The address of a position. Slot 0 is the galaxy (always 0); the reference
      slots 1 and 2 stay unused; slots 3 to 5 hold the quantised azimuth,
      altitude and magnitude of the grid point when it is in range and stay
      unused otherwise. */
  function Encode(e: Engine, g: Grid, position: Vec3): (r: Encoding)
    requires g.nPerDegree != 0.0 && g.nPerDist != 0.0
    ensures |r.address| == 6
    ensures r.address[0] == 0 && r.address[1] == Unused && r.address[2] == Unused
    ensures r.gridPosition == GridPosition(e, g, position)
    ensures r.inRange <==> Distance(e, r.gridPosition, position) <= Allowance(e, g, position)
    ensures !r.inRange ==> r.address[3] == Unused && r.address[4] == Unused && r.address[5] == Unused
  {
    var gridPos := GridPosition(e, g, position);
    if InRange(e, g, position) then
      var azimuthN := AzimuthN(g, AzimuthOfPoint(e, gridPos));
      var altitudeN := AltitudeN(g, AltitudeOfPoint(e, gridPos));
      var magnitudeN := MagnitudeN(g, GridMagnitude(e, g, position));
      Encoding([0, Unused, Unused, azimuthN, altitudeN, magnitudeN], gridPos, true)
    else
      Encoding([0, Unused, Unused, Unused, Unused, Unused], gridPos, false)
  }

  /** On a lawful engine the slots of an in-range address are bounded: the
      azimuth slot in [0, maxVal], the altitude slot in [3 maxVal / 8,
      5 maxVal / 8] (for a grid point off the centre) and the magnitude slot
      non-negative. */
  lemma EncodedSlotsInRange(e: Engine, g: Grid, position: Vec3)
    requires Lawful(e) && WellFormed(g)
    requires Encode(e, g, position).inRange
    ensures var a := Encode(e, g, position).address;
      && 0 <= a[3] <= g.maxVal
      && 0 <= a[5]
      && (GridPosition(e, g, position) != Zero ==> 3 * g.maxVal / 8 <= a[4] <= 5 * g.maxVal / 8)
  {
    var gridPos := GridPosition(e, g, position);
    AzimuthRange(g, AzimuthOfPoint(e, gridPos));
    MagnitudeNonNegative(e, position);
    MagnitudeRange(g, Magnitude(e, position));
    MulMonotone(0.0, MagnitudeN(g, Magnitude(e, position)) as real, g.nPerDist);
    MagnitudeRange(g, GridMagnitude(e, g, position));
    if gridPos != Zero {
      AltitudeRange(g, AltitudeOfPoint(e, gridPos));
    }
  }

  /** Decoding the slots of an in-range address recovers the grid point's
      azimuth within half an azimuth step, its altitude within one azimuth step
      and its snapped magnitude exactly. */
  lemma EncodeThenDequantize(e: Engine, g: Grid, position: Vec3)
    requires WellFormed(g)
    requires Encode(e, g, position).inRange
    ensures var r := Encode(e, g, position);
      && Abs(AzimuthOf(g, r.address[3]) - AzimuthOfPoint(e, r.gridPosition)) <= g.nPerDegree / 2.0
      && Abs(AltitudeOf(g, r.address[4]) - AltitudeOfPoint(e, r.gridPosition)) <= g.nPerDegree
      && MagnitudeOf(g, r.address[5]) == GridMagnitude(e, g, position)
  {
    var gridPos := GridPosition(e, g, position);
    AzimuthRoundTrip(g, AzimuthOfPoint(e, gridPos));
    AltitudeRoundTrip(g, AltitudeOfPoint(e, gridPos));
    SnappedMagnitudeRoundTrip(g, Magnitude(e, position));
  }

  // ---------------------------------------------------------------------------
  // Decoding an address (ExtractFromAddress)

  /** The position the direct slots 3 to 5 stand for, in Cartesian form:
      y = m sin(alt), hy = m cos(alt), z = hy sin(az), x = z / tan(az). When
      tan(az) is 0 the float x is not a finite number, and the result is None. */
  function Reconstruct(e: Engine, g: Grid, address: seq<int>): Option<Vec3>
    requires |address| >= 6
  {
    var azimuth := AzimuthOf(g, address[3]);
    var altitude := AltitudeOf(g, address[4]);
    var magnitude := MagnitudeOf(g, address[5]);
    var y := magnitude * e.sinDeg(altitude);
    var hy := magnitude * e.cosDeg(altitude);
    var z := hy * e.sinDeg(azimuth);
    var t := e.tanDeg(azimuth);
    if t == 0.0 then None else Some(Vec3(z / t, y, z))
  }

  /** The reconstructed position with each coordinate snapped to Precision: the
      point the gates are compared against. */
  function Candidate(e: Engine, g: Grid, address: seq<int>): Option<Vec3>
    requires |address| >= 6
  {
    match Reconstruct(e, g, address)
    case None => None
    case Some(p) => Some(Vec3(
      SnapToGrid(p.x, Precision), SnapToGrid(p.y, Precision), SnapToGrid(p.z, Precision)))
  }

  /** The distance within which a gate matches: sin(nPerDegree degrees) times
      the decoded magnitude. */
  function SearchAllowance(e: Engine, g: Grid, address: seq<int>): real
    requires |address| >= 6
  {
    e.sinDeg(g.nPerDegree) * MagnitudeOf(g, address[5])
  }

  /** The candidate exists exactly when the reconstruction does; it lies on the
      Precision grid and within half of Precision of the reconstruction in each
      coordinate. */
  lemma CandidateNearReconstruction(e: Engine, g: Grid, address: seq<int>)
    requires |address| >= 6
    ensures Candidate(e, g, address).Some? <==> Reconstruct(e, g, address).Some?
    ensures Candidate(e, g, address).Some? ==>
      var c, p := Candidate(e, g, address).value, Reconstruct(e, g, address).value;
      && IsMultiple(c.x, Precision) && IsMultiple(c.y, Precision) && IsMultiple(c.z, Precision)
      && Abs(c.x - p.x) <= Precision / 2.0
      && Abs(c.y - p.y) <= Precision / 2.0
      && Abs(c.z - p.z) <= Precision / 2.0
  {
    if Reconstruct(e, g, address).Some? {
      var p := Reconstruct(e, g, address).value;
      SnapIsMultiple(p.x, Precision);
      SnapIsMultiple(p.y, Precision);
      SnapIsMultiple(p.z, Precision);
      SnapError(p.x, Precision);
      SnapError(p.y, Precision);
      SnapError(p.z, Precision);
    }
  }

  /** The azimuth slot maxVal / 2 decodes to an azimuth of 0 degrees, where the
      reconstruction divides by tan(0): on an engine whose tangent of 0 is 0 such
      an address has no candidate at all. */
  lemma ZeroAzimuthHasNoCandidate(e: Engine, g: Grid, address: seq<int>)
    requires WellFormed(g) && |address| >= 6
    requires e.tanDeg(0.0) == 0.0
    requires address[3] == g.maxVal / 2
    ensures Candidate(e, g, address) == None
  {
    HalfTurn(g);
    assert AzimuthOf(g, address[3]) == 0.0;
  }
}
