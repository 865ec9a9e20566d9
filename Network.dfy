/** The gate network: galaxies, the gates they hold, and the GateNetwork
    component that generates the gates and converts between gates and
    addresses. */
module Network {
  import opened Mathf
  import opened UnityEngine
  import opened Utils
  import opened AddressCodec
  import opened Collections

  /** A galaxy: its size and its gates. */
  class Galaxy {
    const radius: real
    const height: real
    var gates: seq<Gate>

    constructor (radius: real, height: real)
      ensures this.radius == radius && this.height == height && gates == []
    {
      this.radius := radius;
      this.height := height;
      gates := [];
    }
  }

  /** A gate: a point of the galaxy that an address can reach. */
  class Gate {
    const galaxy: Galaxy
    var position: Vec3
    var gridPosition: Vec3
    var staticAddress: array?<int>
    var inRange: bool
    var visited: int

    /** new Gate() { Galaxy = galaxy }, the other properties at their defaults. */
    constructor (galaxy: Galaxy)
      ensures this.galaxy == galaxy
      ensures position == Zero && gridPosition == Zero && staticAddress == null
      ensures !inRange && visited == 0
    {
      this.galaxy := galaxy;
      position := Zero;
      gridPosition := Zero;
      staticAddress := null;
      inRange := false;
      visited := 0;
    }
  }

  /** The exceptions ExtractFromAddress can throw. */
  datatype Exception =
    | IndexOutOfRange   // an address shorter than six slots
    | DuplicateKey      // SortedList.Add of a distance already present

  /** What ExtractFromAddress does: return a gate or null, or throw. */
  datatype Outcome = Returned(gate: Gate?) | Threw(exception: Exception)

  /** The position of the gate GenerateNetwork appends last. */
  const Sentinel: Vec3 := Vec3(60.3, -20.0, 60.7)

  /** One scattered point: three normal samples of mean 0 and the given
      deviations, the first and last shifted by a centre in the plane. */
  function ScatterPoint(e: Engine, cx: real, cz: real, sdX: real, sdY: real, sdZ: real,
                        draws: seq<Uniform>): (r: Draw<Vec3>)
    ensures r.Drawn? ==> |r.rest| + 6 <= |draws|
  {
    match Gaussian(e, 0.0, sdX, draws)
    case Exhausted => Exhausted
    case Drawn(x, rest1) =>
      match Gaussian(e, 0.0, sdY, rest1)
      case Exhausted => Exhausted
      case Drawn(y, rest2) =>
        match Gaussian(e, 0.0, sdZ, rest2)
        case Exhausted => Exhausted
        case Drawn(z, rest3) => Drawn(Vec3(x + cx, y, z + cz), rest3)
  }

  /** The bulge's rejection sampling: scattered points closer to the centre
      than radius / 6 are drawn again. */
  function BulgePoint(e: Engine, radius: real, height: real, draws: seq<Uniform>): (r: Draw<Vec3>)
    ensures r.Drawn? ==> Distance(e, r.value, Zero) >= radius / 6.0
    ensures r.Drawn? ==> |r.rest| + 6 <= |draws|
    decreases |draws|
  {
    match ScatterPoint(e, 0.0, 0.0, radius / 4.0, height / 3.0, radius / 4.0, draws)
    case Exhausted => Exhausted
    case Drawn(p, rest) =>
      if Distance(e, p, Zero) < radius / 6.0 then BulgePoint(e, radius, height, rest) else Drawn(p, rest)
  }

  /** One round of the bulge's rejection sampling, given the scattered point. */
  lemma BulgePointStep(e: Engine, radius: real, height: real, draws: seq<Uniform>, p: Draw<Vec3>)
    requires p == ScatterPoint(e, 0.0, 0.0, radius / 4.0, height / 3.0, radius / 4.0, draws)
    ensures p.Exhausted? ==> BulgePoint(e, radius, height, draws) == Exhausted
    ensures p.Drawn? && Distance(e, p.value, Zero) < radius / 6.0 ==>
      BulgePoint(e, radius, height, draws) == BulgePoint(e, radius, height, p.rest)
    ensures p.Drawn? && !(Distance(e, p.value, Zero) < radius / 6.0) ==>
      BulgePoint(e, radius, height, draws) == p
  {
  }

  /** The position the twirl pass gives a point: a turn about the vertical axis
      by pow(d, 0.52) * 4 pi * curve(d / radius) degrees, d being the point's
      distance from that axis. */
  function Twirled(e: Engine, curve: real -> real, radius: real, pos: Vec3): Vec3
    requires radius != 0.0
  {
    var distance := e.sqrt(pos.x * pos.x + pos.z * pos.z);
    var moveBy := (Pi * 4.0) * curve(distance / radius);
    e.rotateAboutUp(e.pow(distance, 0.52) * moveBy, pos)
  }

  /** The thinning pass: Count / 3 times, remove the entry at a random index. */
  method Thin<T>(xs: seq<T>, draws: seq<Uniform>) returns (r: Draw<seq<T>>)
    ensures r.Drawn? ==> |r.value| == |xs| - |xs| / 3
    ensures r.Drawn? ==> IsSubsequence(r.value, xs)
    ensures r.Drawn? ==> |r.rest| + |xs| / 3 == |draws|
    ensures r.Exhausted? <==> |draws| < |xs| / 3
  {
    var list := xs;
    var rest := draws;
    var c := |xs| / 3;
    SubsequenceReflexive(xs);
    for i := 0 to c
      invariant |list| == |xs| - i
      invariant |rest| == |draws| - i
      invariant IsSubsequence(list, xs)
    {
      if rest == [] {
        return Exhausted;
      }
      var index := RandomRange(rest[0], 0, |list|);
      RemoveAtIsSubsequence(list, index);
      SubsequenceTransitive(RemoveAt(list, index), list, xs);
      list := RemoveAt(list, index);
      rest := rest[1..];
    }
    r := Drawn(list, rest);
  }

  /** Gates of one galaxy, none listed twice and none with a static address. */
  ghost predicate GatesOf(gates: seq<Gate>, galaxy: Galaxy)
    reads gates
  {
    && Distinct(gates)
    && forall g :: g in gates ==> g.galaxy == galaxy && g.staticAddress == null
  }

  /** gateNetwork.Add(g) for a gate not yet listed. */
  function Append(gates: seq<Gate>, g: Gate, galaxy: Galaxy): (r: seq<Gate>)
    requires GatesOf(gates, galaxy)
    requires g !in gates && g.galaxy == galaxy && g.staticAddress == null
    reads gates, g
    ensures GatesOf(r, galaxy)
    ensures |r| == |gates| + 1 && r[..|gates|] == gates && r[|gates|] == g
  {
    gates + [g]
  }

  /** What is kept of a gate list is still a gate list of the galaxy. */
  lemma SubsequenceGates(r: seq<Gate>, s: seq<Gate>, galaxy: Galaxy)
    requires IsSubsequence(r, s) && GatesOf(s, galaxy)
    ensures GatesOf(r, galaxy)
    ensures forall g :: g in r ==> g in s
  {
    DistinctSubsequence(r, s);
    SubsequenceMultiset(r, s);
    assert forall g :: g in r ==> g in multiset(s);
  }

  // ---------------------------------------------------------------------------
  // What ExtractFromAddress answers

  /** A gate matches a candidate point when it lies within the allowance of
      it; nothing matches a missing candidate. */
  ghost predicate Matches(e: Engine, g: Gate, check: Option<Vec3>, allowance: real)
    reads g
  {
    check.Some? && Distance(e, g.position, check.value) <= allowance
  }

  /** Two of the first n gates match at the same distance from the candidate:
      the second SortedList.Add of that distance throws. */
  ghost predicate TieAmong(e: Engine, gates: seq<Gate>, check: Option<Vec3>, allowance: real, n: int)
    requires n <= |gates|
    reads gates
  {
    exists i, j :: 0 <= i < j < n
      && Matches(e, gates[i], check, allowance) && Matches(e, gates[j], check, allowance)
      && Distance(e, gates[i].position, check.value) == Distance(e, gates[j].position, check.value)
  }

  /** A tie among the first n + 1 gates is one among the first n, or gate n
      matches at the distance of an earlier matching gate. */
  lemma TieStep(e: Engine, gates: seq<Gate>, check: Option<Vec3>, allowance: real, n: int)
    requires 0 <= n < |gates|
    ensures TieAmong(e, gates, check, allowance, n + 1) <==>
      || TieAmong(e, gates, check, allowance, n)
      || (&& Matches(e, gates[n], check, allowance)
          && exists k :: 0 <= k < n && Matches(e, gates[k], check, allowance)
               && Distance(e, gates[k].position, check.value) == Distance(e, gates[n].position, check.value))
  {
  }

  /** The answer to an address: an address shorter than six slots is out of
      range; otherwise a tie among the matching gates throws, no match gives
      null, and else the answer is a matching gate nearest to the candidate. */
  ghost predicate Resolves(e: Engine, grid: Grid, gates: seq<Gate>, address: seq<int>, r: Outcome)
    reads gates
  {
    if |address| < 6 then r == Threw(IndexOutOfRange)
    else
      var check := Candidate(e, grid, address);
      var allowance := SearchAllowance(e, grid, address);
      if TieAmong(e, gates, check, allowance, |gates|) then r == Threw(DuplicateKey)
      else if forall g :: g in gates ==> !Matches(e, g, check, allowance) then r == Returned(null)
      else
        && r.Returned? && r.gate != null && r.gate in gates
        && Matches(e, r.gate, check, allowance)
        && forall g :: g in gates && Matches(e, g, check, allowance) ==>
             Distance(e, r.gate.position, check.value) <= Distance(e, g.position, check.value)
  }

  /** An address has exactly one answer: without a tie the nearest matching
      gate is unique. */
  lemma {:induction false} ResolvesDeterministic(e: Engine, grid: Grid, gates: seq<Gate>, address: seq<int>,
                                                 r1: Outcome, r2: Outcome)
    requires Resolves(e, grid, gates, address, r1) && Resolves(e, grid, gates, address, r2)
    ensures r1 == r2
  {
    if |address| >= 6 && r1.Returned? && r1.gate != null && r2.Returned? && r2.gate != null {
      var check := Candidate(e, grid, address);
      var allowance := SearchAllowance(e, grid, address);
      var i :| 0 <= i < |gates| && gates[i] == r1.gate;
      var j :| 0 <= j < |gates| && gates[j] == r2.gate;
      assert forall a, b ::
        (0 <= a < |gates| && 0 <= b < |gates| && a != b
         && Matches(e, gates[a], check, allowance) && Matches(e, gates[b], check, allowance))
        ==> Distance(e, gates[a].position, check.value) != Distance(e, gates[b].position, check.value);
      assert Distance(e, gates[i].position, check.value) == Distance(e, gates[j].position, check.value);
    }
  }

  /** A well-formed address answers null exactly when no gate lies within the
      allowance of the candidate. */
  lemma ResolvesToNullIffNoMatch(e: Engine, grid: Grid, gates: seq<Gate>, address: seq<int>, r: Outcome)
    requires |address| >= 6 && Resolves(e, grid, gates, address, r)
    ensures r == Returned(null) <==>
      forall g :: g in gates ==> !Matches(e, g, Candidate(e, grid, address), SearchAllowance(e, grid, address))
  {
  }

  /** An address whose azimuth slot is maxVal / 2 finds no gate: the
      reconstruction divides by tan(0). */
  lemma ZeroAzimuthResolvesToNull(e: Engine, grid: Grid, gates: seq<Gate>, address: seq<int>, r: Outcome)
    requires WellFormed(grid) && |address| >= 6 && e.tanDeg(0.0) == 0.0
    requires address[3] == grid.maxVal / 2
    requires Resolves(e, grid, gates, address, r)
    ensures r == Returned(null)
  {
    ZeroAzimuthHasNoCandidate(e, grid, address);
  }

  /** CalculateAddress has run on a gate without a static address: its
      in-range flag and grid position are those of its position's encoding. */
  ghost predicate Addressed(e: Engine, grid: Grid, g: Gate)
    requires grid.nPerDegree != 0.0 && grid.nPerDist != 0.0
    reads g
  {
    var encoding := Encode(e, grid, g.position);
    g.inRange == encoding.inRange && g.gridPosition == encoding.gridPosition
  }

  /** The address Start looks up once the gates have their addresses. */
  const ProbeAddress: seq<int> := [0, Unused, Unused, 640, 493, 50]

  /** The GateNetwork component. */
  class GateNetwork {
    var galaxies: seq<Galaxy>
    /** The twirl profile, an AnimationCurve set in the editor. */
    const rotationCurve: real -> real
    /** The engine routines the component calls. */
    const engine: Engine
    var maxVal: int
    var nPerDegree: real
    var nPerDist: real

    /** The component as Unity creates it, before Start. */
    constructor (engine: Engine, rotationCurve: real -> real)
      ensures this.engine == engine && this.rotationCurve == rotationCurve
      ensures galaxies == [] && maxVal == 0 && nPerDegree == 0.0 && nPerDist == 0.0
    {
      this.engine := engine;
      this.rotationCurve := rotationCurve;
      galaxies := [];
      maxVal := 0;
      nPerDegree := 0.0;
      nPerDist := 0.0;
    }

    /** The address resolution held in the fields. */
    function CurrentGrid(): Grid
      reads this
    {
      Grid(maxVal, nPerDegree, nPerDist)
    }

    /** Start has run: there is a galaxy and the resolution is the one Start
        computes for it. */
    ghost predicate Started()
      reads this
    {
      && |galaxies| > 0
      && 0.0 < galaxies[0].radius
      && CurrentGrid() == Setup(galaxies[0].radius)
    }

    // -------------------------------------------------------------------------
    // Generation

    /** new Gate() { Galaxy = galaxy } with its Position then set. */
    static method Place(galaxy: Galaxy, position: Vec3) returns (g: Gate)
      ensures fresh(g) && g.galaxy == galaxy && g.position == position && g.staticAddress == null
      ensures g.gridPosition == Zero && !g.inRange && g.visited == 0
    {
      g := new Gate(galaxy);
      g.position := position;
    }

    /** One bulge position: scatter points until one lies at least radius / 6
        from the centre. */
    method SampleBulge(radius: real, height: real, draws: seq<Uniform>) returns (r: Draw<Vec3>)
      ensures r == BulgePoint(engine, radius, height, draws)
    {
      var e := engine;
      var rest := draws;
      while true
        invariant BulgePoint(e, radius, height, rest) == BulgePoint(e, radius, height, draws)
        decreases |rest|
      {
        var p := ScatterPoint(e, 0.0, 0.0, radius / 4.0, height / 3.0, radius / 4.0, rest);
        BulgePointStep(e, radius, height, rest, p);
        if p.Exhausted? {
          return Exhausted;
        }
        if !(Distance(e, p.value, Zero) < radius / 6.0) {
          return p;
        }
        rest := p.rest;
      }
    }

    /** The central cluster: 2000 gates, each placed by whole-point rejection
        sampling until it lies at least radius / 6 from the centre. */
    method AddBulge(galaxy: Galaxy, gates: seq<Gate>, draws: seq<Uniform>) returns (r: Draw<seq<Gate>>)
      requires GatesOf(gates, galaxy)
      ensures r.Drawn? ==>
        && |r.value| == |gates| + 2000 && r.value[..|gates|] == gates
        && GatesOf(r.value, galaxy)
        && (forall k :: |gates| <= k < |r.value| ==> fresh(r.value[k]))
        && (forall k :: |gates| <= k < |r.value| ==>
              Distance(engine, r.value[k].position, Zero) >= galaxy.radius / 6.0)
    {
      var list := gates;
      var rest := draws;
      for i := 0 to 2000
        invariant |list| == |gates| + i && list[..|gates|] == gates
        invariant GatesOf(list, galaxy)
        invariant forall k :: |gates| <= k < |list| ==>
          fresh(list[k]) && Distance(engine, list[k].position, Zero) >= galaxy.radius / 6.0
      {
        var p := SampleBulge(galaxy.radius, galaxy.height, rest);
        if p.Exhausted? {
          return Exhausted;
        }
        var g := Place(galaxy, p.value);
        list := Append(list, g, galaxy);
        assert list[|list| - 1] == g;
        rest := p.rest;
      }
      r := Drawn(list, rest);
    }

    /** The arms: four arms a quarter turn apart, seven nodes along each at
        radius / 4 * (node + 1), each node turned by a random wiggle, and 100
        gates scattered around each node. */
    method AddArms(galaxy: Galaxy, gates: seq<Gate>, draws: seq<Uniform>) returns (r: Draw<seq<Gate>>)
      requires GatesOf(gates, galaxy)
      ensures r.Drawn? ==>
        && |r.value| == |gates| + 4 * 7 * 100 && r.value[..|gates|] == gates
        && GatesOf(r.value, galaxy)
        && (forall k :: |gates| <= k < |r.value| ==> fresh(r.value[k]))
    {
      var list := gates;
      var rest := draws;
      var deg := 360.0 / 4.0;
      for arm := 0 to 4
        invariant |list| == |gates| + 700 * arm && list[..|gates|] == gates
        invariant GatesOf(list, galaxy)
        invariant forall k :: |gates| <= k < |list| ==> fresh(list[k])
      {
        var armPos := deg * arm as real;
        for node := 0 to 7
          invariant |list| == |gates| + 700 * arm + 100 * node && list[..|gates|] == gates
          invariant GatesOf(list, galaxy)
          invariant forall k :: |gates| <= k < |list| ==> fresh(list[k])
        {
          if rest == [] {
            return Exhausted;
          }
          var wiggle := (2.0 + (rest[0] as real) - 1.0) * (galaxy.height / 6.0);
          rest := rest[1..];
          var nodePos := Scale(engine.rotateAboutUp(armPos + wiggle, One),
                               galaxy.radius / 4.0 + galaxy.radius / 4.0 * node as real);
          var cluster := AddCluster(galaxy, list, nodePos, rest);
          if cluster.Exhausted? {
            return Exhausted;
          }
          list, rest := cluster.value, cluster.rest;
        }
      }
      r := Drawn(list, rest);
    }

    /** The 100 gates scattered around one node of an arm. */
    method AddCluster(galaxy: Galaxy, gates: seq<Gate>, nodePos: Vec3, draws: seq<Uniform>) returns (r: Draw<seq<Gate>>)
      requires GatesOf(gates, galaxy)
      ensures r.Drawn? ==>
        && |r.value| == |gates| + 100 && r.value[..|gates|] == gates
        && GatesOf(r.value, galaxy)
        && (forall k :: |gates| <= k < |r.value| ==> fresh(r.value[k]))
    {
      var list := gates;
      var rest := draws;
      for i := 0 to 100
        invariant |list| == |gates| + i && list[..|gates|] == gates
        invariant GatesOf(list, galaxy)
        invariant forall k :: |gates| <= k < |list| ==> fresh(list[k])
      {
        var p := ScatterPoint(engine, nodePos.x, nodePos.z, galaxy.radius / 3.0, galaxy.height / 4.0, galaxy.radius / 3.0, rest);
        if p.Exhausted? {
          return Exhausted;
        }
        var g := Place(galaxy, p.value);
        list := Append(list, g, galaxy);
        rest := p.rest;
      }
      r := Drawn(list, rest);
    }

    /** The broad pass: 1200 gates with a wide spread. */
    method AddBroad(galaxy: Galaxy, gates: seq<Gate>, draws: seq<Uniform>) returns (r: Draw<seq<Gate>>)
      requires GatesOf(gates, galaxy)
      ensures r.Drawn? ==>
        && |r.value| == |gates| + 1200 && r.value[..|gates|] == gates
        && GatesOf(r.value, galaxy)
        && (forall k :: |gates| <= k < |r.value| ==> fresh(r.value[k]))
    {
      var list := gates;
      var rest := draws;
      for i := 0 to 1200
        invariant |list| == |gates| + i && list[..|gates|] == gates
        invariant GatesOf(list, galaxy)
        invariant forall k :: |gates| <= k < |list| ==> fresh(list[k])
      {
        var p := ScatterPoint(engine, 0.0, 0.0, galaxy.radius * 0.9, galaxy.height * 0.3, galaxy.radius * 0.9, rest);
        if p.Exhausted? {
          return Exhausted;
        }
        var g := Place(galaxy, p.value);
        list := Append(list, g, galaxy);
        rest := p.rest;
      }
      r := Drawn(list, rest);
    }

    /** The twirl pass: every gate is turned about the vertical axis in place;
        the list itself is untouched. Returns the largest magnitude reached (0
        for no gates), the source's local true_radius. */
    method Twirl(gates: seq<Gate>) returns (trueRadius: real)
      requires Distinct(gates)
      requires forall g :: g in gates ==> g.galaxy.radius != 0.0
      modifies set g | g in gates
      ensures forall k :: 0 <= k < |gates| ==>
        gates[k].position == Twirled(engine, rotationCurve, gates[k].galaxy.radius, old(gates[k].position))
      ensures forall k :: 0 <= k < |gates| ==>
          && gates[k].gridPosition == old(gates[k].gridPosition) && gates[k].staticAddress == old(gates[k].staticAddress)
          && gates[k].inRange == old(gates[k].inRange) && gates[k].visited == old(gates[k].visited)
      ensures 0.0 <= trueRadius
      ensures forall k :: 0 <= k < |gates| ==> Magnitude(engine, gates[k].position) <= trueRadius
      ensures trueRadius == 0.0 || exists k :: 0 <= k < |gates| && Magnitude(engine, gates[k].position) == trueRadius
    {
      trueRadius := 0.0;
      for i := 0 to |gates|
        invariant forall k :: 0 <= k < i ==>
          gates[k].position == Twirled(engine, rotationCurve, gates[k].galaxy.radius, old(gates[k].position))
        invariant forall k :: i <= k < |gates| ==> gates[k].position == old(gates[k].position)
        invariant forall k :: 0 <= k < |gates| ==>
          && gates[k].gridPosition == old(gates[k].gridPosition) && gates[k].staticAddress == old(gates[k].staticAddress)
          && gates[k].inRange == old(gates[k].inRange) && gates[k].visited == old(gates[k].visited)
        invariant 0.0 <= trueRadius
        invariant forall k :: 0 <= k < i ==> Magnitude(engine, gates[k].position) <= trueRadius
        invariant trueRadius == 0.0 || exists k :: 0 <= k < i && Magnitude(engine, gates[k].position) == trueRadius
      {
        var g := gates[i];
        var adjusted := Twirled(engine, rotationCurve, g.galaxy.radius, g.position);
        g.position := adjusted;
        assert forall k :: 0 <= k < |gates| && k != i ==> gates[k] != g;
        if Magnitude(engine, adjusted) > trueRadius {
          trueRadius := Magnitude(engine, adjusted);
        }
      }
    }

    /** GenerateNetwork: bulge, arms, broad pass, twirl, thinning by a third,
        and the sentinel gate appended last; the result becomes the first
        galaxy's gate list. When the draws run out the galaxy is left as it was. */
    method GenerateNetwork(draws: seq<Uniform>) returns (r: Draw<seq<Gate>>)
      requires |galaxies| > 0 && galaxies[0].radius != 0.0
      modifies galaxies[0]
      ensures r.Exhausted? ==> galaxies[0].gates == old(galaxies[0].gates)
      ensures r.Drawn? ==>
        && galaxies[0].gates == r.value
        // 6000 generated, a third of them removed, one sentinel appended
        && |r.value| == 4001
        && r.value[4000].position == Sentinel
        && GatesOf(r.value, galaxies[0])
        && (forall g :: g in r.value ==> fresh(g))
    {
      var galaxy := galaxies[0];
      var step := AddBulge(galaxy, [], draws);
      if step.Exhausted? {
        return Exhausted;
      }
      step := AddArms(galaxy, step.value, step.rest);
      if step.Exhausted? {
        return Exhausted;
      }
      step := AddBroad(galaxy, step.value, step.rest);
      if step.Exhausted? {
        return Exhausted;
      }
      var gateNetwork := step.value;
      assert forall g :: g in gateNetwork ==> fresh(g);
      var trueRadius := Twirl(gateNetwork);
      var thinned := Thin(gateNetwork, step.rest);
      if thinned.Exhausted? {
        return Exhausted;
      }
      SubsequenceGates(thinned.value, gateNetwork, galaxy);
      var last := Place(galaxy, Sentinel);
      gateNetwork := Append(thinned.value, last, galaxy);
      galaxy.gates := gateNetwork;
      r := Drawn(gateNetwork, thinned.rest);
    }

    // -------------------------------------------------------------------------
    // Addresses

    /** CalculateAddress: a gate's static address when it has one; otherwise a
        new address encoding its position, with the gate's in-range flag and
        grid position set on the way. */
    method CalculateAddress(gate: Gate) returns (address: array<int>)
      requires WellFormed(CurrentGrid())
      modifies gate`inRange, gate`gridPosition
      ensures gate.staticAddress != null ==>
        address == gate.staticAddress && gate.inRange == old(gate.inRange) && gate.gridPosition == old(gate.gridPosition)
      ensures gate.staticAddress == null ==>
        var encoding := Encode(engine, CurrentGrid(), gate.position);
        && fresh(address)
        && address[..] == encoding.address
        && gate.inRange == encoding.inRange
        && gate.gridPosition == encoding.gridPosition
    {
      if gate.staticAddress != null {
        return gate.staticAddress;
      }
      address := new int[] [Unused, Unused, Unused, Unused, Unused, Unused];
      var allowance := BaseRadius / maxVal as real;

      var grid := CurrentGrid();
      var gatePos := gate.position;
      ghost var encoding := Encode(engine, grid, gatePos);
      var gridPos := GridPosition(engine, grid, gatePos);
      var gridMagnitude := GridMagnitude(engine, grid, gatePos);
      allowance := Allowance(engine, grid, gatePos);

      if Distance(engine, gridPos, gatePos) <= allowance {
        gate.inRange := true;
        var azimuth := AzimuthOfPoint(engine, gridPos);
        var altitude := AltitudeOfPoint(engine, gridPos);
        address[3] := AzimuthN(grid, azimuth);
        address[4] := AltitudeN(grid, altitude);
        address[5] := MagnitudeN(grid, gridMagnitude);
        address[0] := 0;
        assert encoding.address == [0, Unused, Unused, address[3], address[4], address[5]];
      } else {
        gate.inRange := false;
        address[0] := 0;
      }
      gate.gridPosition := gridPos;
    }

    /** The loop of ExtractFromAddress that adds every gate within the
        allowance of the candidate to a SortedList keyed by its distance; a
        second gate at a distance already present makes Add throw (tie). */
    method CollectNearby(gates: seq<Gate>, check: Option<Vec3>, allowance: real)
      returns (validGates: map<real, Gate>, tie: bool)
      ensures tie <==> TieAmong(engine, gates, check, allowance, |gates|)
      ensures !tie ==>
        && (forall d :: d in validGates ==>
              && validGates[d] in gates
              && Matches(engine, validGates[d], check, allowance)
              && Distance(engine, validGates[d].position, check.value) == d)
        && (forall g :: g in gates && Matches(engine, g, check, allowance) ==>
              Distance(engine, g.position, check.value) in validGates)
    {
      validGates := map[];
      for i := 0 to |gates|
        invariant forall d :: d in validGates ==>
          && validGates[d] in gates[..i]
          && Matches(engine, validGates[d], check, allowance)
          && Distance(engine, validGates[d].position, check.value) == d
        invariant forall k :: 0 <= k < i && Matches(engine, gates[k], check, allowance) ==>
          Distance(engine, gates[k].position, check.value) in validGates
        invariant !TieAmong(engine, gates, check, allowance, i)
      {
        TieStep(engine, gates, check, allowance, i);
        if check.Some? {
          var dist := Distance(engine, gates[i].position, check.value);
          if dist <= allowance {
            if dist in validGates {
              var k :| 0 <= k < i && gates[k] == validGates[dist];
              assert TieAmong(engine, gates, check, allowance, |gates|) by {
                assert Matches(engine, gates[k], check, allowance) && Matches(engine, gates[i], check, allowance);
              }
              return validGates, true;
            }
            validGates := validGates[dist := gates[i]];
          }
        }
      }
      tie := false;
    }

    /** ExtractFromAddress: decode the address into a candidate point, collect
        the gates within the search allowance of it in a SortedList keyed by
        distance, and return the first, nearest, entry or null. */
    method ExtractFromAddress(address: array<int>) returns (r: Outcome)
      requires |galaxies| > 0
      ensures Resolves(engine, CurrentGrid(), galaxies[0].gates, address[..], r)
    {
      if address.Length < 6 {
        return Threw(IndexOutOfRange);
      }
      var grid := CurrentGrid();
      var check := Candidate(engine, grid, address[..]);
      var allowance := SearchAllowance(engine, grid, address[..]);
      var gates := galaxies[0].gates;
      var validGates, tie := CollectNearby(gates, check, allowance);
      if tie {
        return Threw(DuplicateKey);
      }
      if validGates.Keys == {} {
        return Returned(null);
      }
      var first := SmallestKey(validGates.Keys);
      r := Returned(validGates[first]);
    }

    /** The loop in Start that calls CalculateAddress on every gate of the
        first galaxy: each gate's in-range flag and grid position become those
        of its encoding, and its position and static address stay as they were. */
    method AssignAddresses()
      requires |galaxies| > 0 && WellFormed(CurrentGrid())
      requires GatesOf(galaxies[0].gates, galaxies[0])
      modifies set g | g in galaxies[0].gates
      ensures unchanged(this, galaxies[0])
      ensures GatesOf(galaxies[0].gates, galaxies[0])
      ensures forall k :: 0 <= k < |galaxies[0].gates| ==>
        && galaxies[0].gates[k].position == old(galaxies[0].gates[k].position)
        && galaxies[0].gates[k].visited == old(galaxies[0].gates[k].visited)
      ensures forall g :: g in galaxies[0].gates ==> Addressed(engine, CurrentGrid(), g)
    {
      var gates := galaxies[0].gates;
      for i := 0 to |gates|
        invariant GatesOf(gates, galaxies[0])
        invariant forall k :: 0 <= k < |gates| ==>
          gates[k].position == old(gates[k].position) && gates[k].visited == old(gates[k].visited)
        invariant forall k :: 0 <= k < i ==> Addressed(engine, CurrentGrid(), gates[k])
      {
        assert forall k :: 0 <= k < |gates| && k != i ==> gates[k] != gates[i];
        var address := CalculateAddress(gates[i]);
      }
    }

    // -------------------------------------------------------------------------
    // Start

    /** The part of Start after the constants: generate the network, then
        give every gate its address. */
    method Populate(draws: seq<Uniform>) returns (r: Draw<seq<Gate>>)
      requires |galaxies| > 0 && galaxies[0].radius != 0.0 && WellFormed(CurrentGrid())
      modifies galaxies[0]
      ensures r.Exhausted? ==> galaxies[0].gates == old(galaxies[0].gates)
      ensures r.Drawn? ==>
        && galaxies[0].gates == r.value
        && |r.value| == 4001 && r.value[4000].position == Sentinel
        && GatesOf(r.value, galaxies[0])
        && (forall g :: g in r.value ==> Addressed(engine, CurrentGrid(), g))
    {
      r := GenerateNetwork(draws);
      if r.Drawn? {
        AssignAddresses();
      }
    }

    /** The last line of Start: ExtractFromAddress of the probe address. */
    method Probe() returns (r: Outcome)
      requires |galaxies| > 0
      ensures Resolves(engine, CurrentGrid(), galaxies[0].gates, ProbeAddress, r)
    {
      var address := new int[] [0, Unused, Unused, 640, 493, 50];
      assert address[..] == ProbeAddress;
      r := ExtractFromAddress(address);
    }

    /** Start: create the galaxy (radius 300, height 100), set the address
        resolution from it, generate the gates, give every gate its address
        and look up the probe address. */
    method Start(draws: seq<Uniform>) returns (r: Draw<seq<Gate>>, probe: Option<Outcome>)
      requires galaxies == []
      modifies this
      ensures |galaxies| == 1 && fresh(galaxies[0]) && Started()
      ensures galaxies[0].radius == 300.0 && galaxies[0].height == 100.0
      ensures CurrentGrid() == Setup(300.0)
      ensures r.Exhausted? ==> galaxies[0].gates == [] && probe == None
      ensures r.Drawn? ==>
        && galaxies[0].gates == r.value
        && |r.value| == 4001 && r.value[4000].position == Sentinel
        && GatesOf(r.value, galaxies[0])
        && (forall g :: g in r.value ==> Addressed(engine, CurrentGrid(), g))
        && probe.Some? && Resolves(engine, CurrentGrid(), r.value, ProbeAddress, probe.value)
    {
      var galaxy := new Galaxy(300.0, 100.0);
      galaxies := galaxies + [galaxy];
      maxVal := Round(Power(BaseN, NumDigits) as real);
      RoundOfInteger(Power(BaseN, NumDigits));
      nPerDegree := 360.0 / maxVal as real;
      nPerDist := (galaxies[0].radius * 6.0) / maxVal as real;
      assert CurrentGrid() == Setup(300.0);

      r := Populate(draws);
      if r.Exhausted? {
        return r, None;
      }
      var outcome := Probe();
      probe := Some(outcome);
    }
  }
}
