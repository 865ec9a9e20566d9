# Gate network addressing — a Dafny model

The gate network is a Unity component that scatters about four thousand
"gates" through a spiral galaxy and gives every gate a six-slot integer
address. An address holds a quantised spherical position:

- slot 0 is the galaxy;
- slots 1 and 2 are reference slots, left at -1;
- slots 3 to 5 hold the azimuth, altitude and magnitude steps.

Dialling an address reverses the quantisation and rebuilds a candidate point.
The answer is the gate nearest to that point within an allowance, or null.

This project models the following.

- **`Utils`** — the component's helpers:
  - `SnapToGrid`;
  - the three `NextGaussian` overloads, a polar Box-Muller rejection loop over a
    supplied sequence of `Random.value` draws.
- **`AddressCodec`** — the arithmetic of an address:
  - the grid constants computed in `Start` (`maxVal = 32^2`,
    `nPerDegree = 360 / maxVal`, `nPerDist = radius * 6 / maxVal`);
  - quantising a position (`CalculateAddress`) and dequantising it
    (`ExtractFromAddress`), with their round-trip and range lemmas.
- **`Network`** — the `Galaxy`, `Gate` and `GateNetwork` classes:
  - generation: bulge, arms, broad pass, in-place twirl, thinning by a
    third, and the sentinel gate;
  - `CalculateAddress`, which writes the address array and the gate's
    `inRange` and `GridPosition`;
  - `ExtractFromAddress`, with its SortedList scan, including the
    duplicate-key exception;
  - `Start`.
- **Supporting modules:**
  - `Mathf` — Unity's round-half-to-even;
  - `UnityEngine` — vectors, the random source, and the engine routines as
    values of a datatype;
  - `Collections` — `List.RemoveAt`, subsequences, and the first key of a
    `SortedList`;
  - `Arith` — small real-arithmetic facts.

Floats are reals. The trigonometric and quaternion routines (`Sin`, `Cos`,
`Tan`, `Atan2`, `Asin`, `Sqrt`, `Log`, `FromToRotation`, `Euler`,
`AngleAxis`) and the twirl's `Pow(distance, 0.52)` are fields of an `Engine`
value. `Pow(baseN, numDigits)` in `Start` is taken as the exact integer
power 32^2 = 1024. `Lawful` states only the engine routines'
documented ranges, and only the lemmas that need those ranges require it.
The rotation curve is a supplied `real -> real`.

`Random.value` is a finite sequence of draws in [0, 1]. Every consumer returns
the draws it left over, or `Exhausted` when the sequence ran out.
`Random.Range(lo, hi)` maps one draw to `lo + floor(u * (hi - lo))`, with the
draw 1.0 capped to `hi - 1`.

The azimuth slot can reach `maxVal`: `RoundToInt(180 / nPerDegree + maxVal / 2)`
is `maxVal`, one more than two base-32 digits hold (`AzimuthReachesMaxVal`).
The model keeps the code's range [0, maxVal]. A short address throws
`IndexOutOfRange` when the slots are read, as the code does.

## Model

| member | source | states |
|---|---|---|
| Mathf.Round | Assets/Scripts/Utils.cs:38 | Mathf.Round/RoundToInt: the result is within a half of x, and even when x lies half-way between two integers |
| Mathf.RoundUnique | Assets/Scripts/Utils.cs:38 | any integer within a half of x that is even on a tie is Round(x): the contract determines the rounding |
| Mathf.RoundOfInteger | Assets/Scripts/GateNetwork.cs:297 | rounding an integer value gives it back (RoundToInt(Pow(32, 2)) is 1024) |
| Mathf.RoundBetween | Assets/Scripts/GateNetwork.cs:182-184 | rounding a value between two integers stays between them |
| UnityEngine.MagnitudeNonNegative | Assets/Scripts/GateNetwork.cs:160 | on a lawful engine Vector3.magnitude is never negative |
| UnityEngine.RandomRange | Assets/Scripts/GateNetwork.cs:127 | Random.Range(lo, hi) on integers yields an index in [lo, hi) |
| Utils.SnapIsMultiple | Assets/Scripts/Utils.cs:36-39 | SnapToGrid(v, s) is a whole number of steps s |
| Utils.SnapError | Assets/Scripts/Utils.cs:36-39 | SnapToGrid moves a value by at most half a step: abs(SnapToGrid(v, s) - v) <= abs(s) / 2 |
| Utils.SnapOfMultiple | Assets/Scripts/Utils.cs:36-39 | a value already on the grid is left unchanged |
| Utils.SnapIdempotent | Assets/Scripts/Utils.cs:36-39 | snapping twice equals snapping once |
| Utils.Coordinate | Assets/Scripts/Utils.cs:12-13 | v1 = 2 * Random.value - 1 and v2 lie in [-1, 1] |
| Utils.AcceptedPairInsideDisc | Assets/Scripts/Utils.cs:15-17 | a pair that leaves the do-while has 0 < s < 1, so Log(s) is taken of a positive number, the division by s is defined and, on a lawful engine, the square root is of a positive number |
| Utils.StandardGaussian | Assets/Scripts/Utils.cs:7-20 | a standard sample consumes at least one pair of draws |
| Utils.StandardGaussianAccepts | Assets/Scripts/Utils.cs:7-20 | a sample is the polar transform of the first accepted pair k; every earlier pair was rejected, and the draws after pair k are exactly the ones left over |
| Utils.StandardGaussianExhausted | Assets/Scripts/Utils.cs:10-15 | when the draws run out, every whole pair among them was rejected |
| Utils.NextGaussian | Assets/Scripts/Utils.cs:7-20 | the parameterless NextGaussian loop returns exactly StandardGaussian of its draws |
| Utils.Gaussian | Assets/Scripts/Utils.cs:22-25 | NextGaussian(mean, sd) consumes at least one pair of draws |
| Utils.GaussianStandardises | Assets/Scripts/Utils.cs:22-25 | NextGaussian(mean, sd) succeeds exactly when the standard sample does; its value minus mean is the standard sample times sd, and it leaves the same draws |
| Utils.GaussianWithoutSpread | Assets/Scripts/Utils.cs:22-25 | NextGaussian(mean, 0) is mean |
| Utils.NextGaussianWith | Assets/Scripts/Utils.cs:22-25 | the method computes Gaussian of its draws |
| Utils.BoundedGaussian | Assets/Scripts/Utils.cs:27-34 | the bounded NextGaussian only returns values with min <= x <= max |
| Utils.NextGaussianBetween | Assets/Scripts/Utils.cs:27-34 | the retry loop returns BoundedGaussian of its draws, hence a value in [min, max] |
| AddressCodec.Setup | Assets/Scripts/GateNetwork.cs:296-299 | Start's constants give maxVal = 1024 and, for a positive radius, a well-formed grid (maxVal * nPerDegree = 360, positive steps, maxVal a multiple of 8) |
| AddressCodec.HalfTurn | Assets/Scripts/GateNetwork.cs:182 | maxVal / 2 azimuth steps make 180 degrees |
| AddressCodec.AzimuthSlotRoundTrip | Assets/Scripts/GateNetwork.cs:240 | quantising the azimuth decoded from a slot gives the slot back |
| AddressCodec.AltitudeSlotRoundTrip | Assets/Scripts/GateNetwork.cs:241 | quantising the altitude decoded from a slot gives the slot back |
| AddressCodec.MagnitudeSlotRoundTrip | Assets/Scripts/GateNetwork.cs:242 | quantising the magnitude decoded from a slot gives the slot back |
| AddressCodec.AzimuthRoundTrip | Assets/Scripts/GateNetwork.cs:182 | azimuthN * nPerDegree - 180 is within nPerDegree / 2 of the azimuth |
| AddressCodec.AltitudeRoundTrip | Assets/Scripts/GateNetwork.cs:183 | altitudeN * 2 * nPerDegree - 360 is within nPerDegree of the altitude |
| AddressCodec.MagnitudeRoundTrip | Assets/Scripts/GateNetwork.cs:184 | magnitudeN * nPerDist is within nPerDist / 2 of the magnitude |
| AddressCodec.SnappedMagnitudeRoundTrip | Assets/Scripts/GateNetwork.cs:161-184 | a magnitude already snapped to nPerDist is decoded exactly |
| AddressCodec.AzimuthRange | Assets/Scripts/GateNetwork.cs:182 | an azimuth in [-180, 180] gives azimuthN in [0, maxVal] |
| AddressCodec.AzimuthReachesMaxVal | Assets/Scripts/GateNetwork.cs:182 | the azimuth 180 gives azimuthN = maxVal, one above the largest two-digit base-32 value |
| AddressCodec.AltitudeRange | Assets/Scripts/GateNetwork.cs:183 | an altitude in [-90, 90] gives altitudeN in [3 maxVal / 8, 5 maxVal / 8] |
| AddressCodec.MagnitudeRange | Assets/Scripts/GateNetwork.cs:184 | a non-negative magnitude gives magnitudeN >= 0 |
| AddressCodec.Encode | Assets/Scripts/GateNetwork.cs:147-216 | the encoding of a position is six slots, with slot 0 = 0 and slots 1-2 = -1; the grid position is the snapped one; inRange holds iff the distance is <= the allowance (inclusive); out of range, slots 3-5 stay -1 |
| AddressCodec.EncodedSlotsInRange | Assets/Scripts/GateNetwork.cs:179-188 | on a lawful engine an in-range address has azimuthN in [0, maxVal], magnitudeN >= 0 and, off the centre, altitudeN in [3 maxVal / 8, 5 maxVal / 8] |
| AddressCodec.EncodeThenDequantize | Assets/Scripts/GateNetwork.cs:179-188 | decoding an in-range address's slots (as lines 240-242 do) recovers the grid point's azimuth within nPerDegree / 2, its altitude within nPerDegree and its snapped magnitude exactly |
| AddressCodec.CandidateNearReconstruction | Assets/Scripts/GateNetwork.cs:249-252 | the check point exists exactly when the reconstruction does; each coordinate is a multiple of 1/10000 and within half of that of the reconstruction |
| AddressCodec.ZeroAzimuthHasNoCandidate | Assets/Scripts/GateNetwork.cs:240-247 | the azimuth slot maxVal / 2 decodes to 0 degrees, where x = z / tan(0) is not a number, so no check point exists |
| Collections.RemoveAtIsSubsequence | Assets/Scripts/GateNetwork.cs:127 | List.RemoveAt keeps the other entries in their order |
| Collections.SubsequenceTransitive | Assets/Scripts/GateNetwork.cs:125-127 | repeated removals still leave an order-preserving sub-list |
| Collections.DistinctSubsequence | Assets/Scripts/GateNetwork.cs:125-127 | removing entries from a list without repeats leaves a list without repeats |
| Collections.SmallestKey | Assets/Scripts/GateNetwork.cs:269 | SortedList.Values.First() is the entry of the least key |
| Network.Galaxy.constructor | Assets/Scripts/GateNetwork.cs:296 | a new galaxy has the given radius and height and no gates |
| Network.Gate.constructor | Assets/Scripts/GateNetwork.cs:14-27 | new Gate() { Galaxy = galaxy }: zero vectors, no static address, not in range, visited 0 |
| Network.ScatterPoint | Assets/Scripts/GateNetwork.cs:58-62 | one scattered point (three NextGaussian calls) consumes at least six draws |
| Network.BulgePoint | Assets/Scripts/GateNetwork.cs:56-63 | every accepted bulge position lies at least radius / 6 from the origin |
| Network.Thin | Assets/Scripts/GateNetwork.cs:125-127 | Count / 3 removals at Random.Range(0, Count) leave Count - Count / 3 entries, an order-preserving sub-list, after one draw per removal |
| Network.Append | Assets/Scripts/GateNetwork.cs:131 | gateNetwork.Add(g) of a new gate of the galaxy keeps the old entries, puts g last, and keeps the list free of repeats |
| Network.SubsequenceGates | Assets/Scripts/GateNetwork.cs:125-127 | the thinned list is still a list of distinct gates of the galaxy, all taken from the generated list |
| Network.TieStep | Assets/Scripts/GateNetwork.cs:259-264 | a duplicate distance among the first n + 1 gates is one among the first n, or gate n matching at an earlier matching gate's distance |
| Network.ResolvesDeterministic | Assets/Scripts/GateNetwork.cs:256-274 | the specification of the lookup allows exactly one outcome per address |
| Network.ResolvesToNullIffNoMatch | Assets/Scripts/GateNetwork.cs:259-274 | a six-slot address answers null iff no gate lies within the allowance of the check point |
| Network.ZeroAzimuthResolvesToNull | Assets/Scripts/GateNetwork.cs:240-274 | an address whose azimuth slot is maxVal / 2 finds no gate |
| Network.GateNetwork.constructor | Assets/Scripts/GateNetwork.cs:29-44 | the component before Start: no galaxies, and maxVal, nPerDegree and nPerDist at 0 |
| Network.GateNetwork.Place | Assets/Scripts/GateNetwork.cs:129-130 | a new gate of the galaxy at the given position, without a static address, with grid position zero, not in range and not visited |
| Network.GateNetwork.SampleBulge | Assets/Scripts/GateNetwork.cs:56-63 | the do-while returns BulgePoint of its draws |
| Network.GateNetwork.AddBulge | Assets/Scripts/GateNetwork.cs:50-67 | 2000 new, distinct gates of the galaxy are appended after the old ones, each at least radius / 6 from the origin |
| Network.GateNetwork.AddArms | Assets/Scripts/GateNetwork.cs:69-90 | 4 arms of 7 nodes of 100 gates append 2800 new, distinct gates of the galaxy after the old ones |
| Network.GateNetwork.AddCluster | Assets/Scripts/GateNetwork.cs:77-87 | one node appends 100 new, distinct gates of the galaxy after the old ones |
| Network.GateNetwork.AddBroad | Assets/Scripts/GateNetwork.cs:92-103 | the broad pass appends 1200 new, distinct gates of the galaxy after the old ones |
| Network.GateNetwork.Twirl | Assets/Scripts/GateNetwork.cs:105-120 | each gate's position becomes its twirled position and nothing else of any gate changes; true_radius ends as the largest adjusted magnitude (or 0) |
| Network.GateNetwork.GenerateNetwork | Assets/Scripts/GateNetwork.cs:46-134 | the first galaxy's gates become 6000 - 2000 + 1 = 4001 new, distinct gates of that galaxy, the last at (60.3, -20, 60.7) |
| Network.GateNetwork.CalculateAddress | Assets/Scripts/GateNetwork.cs:136-217 | a gate with a static address gets that same array back, and inRange and GridPosition are unchanged; otherwise it gets a new array equal to its position's encoding, with inRange and GridPosition set from it |
| Network.GateNetwork.CollectNearby | Assets/Scripts/GateNetwork.cs:256-264 | the scan throws iff two gates within the allowance are equally far from the check point; otherwise the keys are exactly the distances of the matching gates, each mapped to a matching gate at that distance |
| Network.GateNetwork.ExtractFromAddress | Assets/Scripts/GateNetwork.cs:219-275 | a short address throws IndexOutOfRange; a tie throws DuplicateKey; no gate within the allowance gives null; otherwise the result is a gate within the allowance and no farther from the check point than any other such gate |
| Network.GateNetwork.AssignAddresses | Assets/Scripts/GateNetwork.cs:303-304 | after CalculateAddress on every gate, each gate's inRange and GridPosition are those of its encoding; positions, visit counts and the gate list are unchanged |
| Network.GateNetwork.Populate | Assets/Scripts/GateNetwork.cs:301-304 | generation followed by addressing: 4001 gates ending in the sentinel, all addressed |
| Network.GateNetwork.Probe | Assets/Scripts/GateNetwork.cs:310 | looking up [0, -1, -1, 640, 493, 50] gives the outcome the lookup specification prescribes |
| Network.GateNetwork.Start | Assets/Scripts/GateNetwork.cs:294-311 | one galaxy of radius 300 and height 100 with the constants of Setup(300), 4001 addressed gates ending in the sentinel, and the probe's prescribed outcome |

## Left out

- Floating point: floats are reals, so the model has no rounding error, NaN or infinity. Where the code would compute a NaN or infinite x (tan(azimuth) = 0), the model has no candidate, which matches the code: a NaN or infinite distance never passes `dist <= allowance`.
- Integer width: `int` slots are unbounded; all values the model produces are far below 2^31.
- Utils.SnapToGrid: requires a non-zero step; the zero step, which gives NaN in the source, is not modelled.
- Network.Twirled: requires a non-zero galaxy radius, since the source divides by it. GenerateNetwork and Twirl carry the same requirement.
- Randomness: `Random.value` is a finite supplied sequence. When it runs out, generation stops with `Exhausted` and `Start` skips addressing and the probe. The source never runs out, and its rejection loops terminate only with probability one.
- UnityEngine.RandomRange: the engine's exact mapping from its generator to an integer index is not known; the model fixes one mapping from a single draw.
- The engine routines (trigonometry, the twirl's `Pow`, quaternions) are uninterpreted. The model does not claim that the grid point is the nearest lattice point. It also does not claim that the reconstruction at lines 244-247 rebuilds the grid point, so decoding an encoded gate's address is not proved to find that gate.
- The reference-point fallback (a comment in the out-of-range branch) and the reference branch of `ExtractFromAddress` that computes unused locals are not modelled.
- The editor-only `Debug.Log` output and the back-formation diagnostic computed from the address in `CalculateAddress` (lines 190-202) have no effect on the state and are not modelled.
- `Update`, the gizmo drawing, `CreateAddress` and `GateDialerBehavior.cs` are presentation code and are not part of this model.
- Network.GateNetwork.ExtractFromAddress: requires at least one galaxy. Before `Start` the source would throw on `galaxies[0]`. A null address array or a null gate list is not modelled.
- Network.GateNetwork.Start: requires an empty galaxy list, the state of a freshly created component.
- Galaxy radius and height are constants, since nothing in the core assigns them after creation.
- `Gate.StaticAddress` is never assigned by the code, so the model does not cache addresses.
- Distances used as SortedList keys are compared as reals; equal keys throw `DuplicateKey`, as `SortedList.Add` does.
- The generation methods call the scatter and bulge specification functions, not the NextGaussian methods. Those functions have loop-based method counterparts proved equal to them (`NextGaussian`, `NextGaussianWith`, `SampleBulge`).
