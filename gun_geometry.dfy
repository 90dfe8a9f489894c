/** The geometry helpers of the biased particle gun: moving a point from a
    volume's frame to the world frame, rejection-sampling a point inside a
    volume, and the half-angle of the cone from a point that takes in a volume's
    bounding box. Geant4's solids, rotations and vector functions are not
    modelled; they enter as function values. */
module GunGeometry {
  import opened Wrappers

  datatype Vec3 = Vec3(x: real, y: real, z: real)

  const Origin := Vec3(0.0, 0.0, 0.0)
  const ZUnit := Vec3(0.0, 0.0, 1.0)

  function Add(a: Vec3, b: Vec3): Vec3
  {
    Vec3(a.x + b.x, a.y + b.y, a.z + b.z)
  }

  function Sub(a: Vec3, b: Vec3): Vec3
  {
    Vec3(a.x - b.x, a.y - b.y, a.z - b.z)
  }

  /** The vector with all three components equal to `m`. */
  function Uniform(m: real): Vec3
  {
    Vec3(m, m, m)
  }

  /** The three-valued answer of a solid's `Inside`. */
  datatype EInside = Outside | Surface | Inside

  /** A solid: its bounding limits and its `Inside` test, in its own frame. */
  datatype Solid = Solid(boundMin: Vec3, boundMax: Vec3, inside: Vec3 -> EInside)

  /** A placement: the object rotation (as the map it applies to a point) and
      the object translation. */
  datatype Placement = Placement(rotation: Vec3 -> Vec3, translation: Vec3)

  /** A physical volume: its solid, its placement in its mother, and the name of
      its mother logical volume (none for the world volume). */
  datatype PhysicalVolume = PhysicalVolume(solid: Solid, placement: Placement, motherLogical: Option<string>)

  /** The physical-volume store, looked up by name. */
  type Store = map<string, PhysicalVolume>

  /** A point of the mother's frame from a point of the placed volume's frame:
      rotation first, then translation. */
  function Place(pl: Placement, p: Vec3): Vec3
  {
    Add(pl.rotation(p), pl.translation)
  }

  /** Every mother logical volume's name is the name of a stored physical
      volume (the walk looks the mother up by that name), and `rank` drops at
      each step towards the world, so the walk ends. */
  ghost predicate WellPlaced(store: Store, rank: map<string, nat>)
  {
    forall n :: n in store ==>
      && n in rank
      && (store[n].motherLogical.Some? ==>
            store[n].motherLogical.value in store && store[n].motherLogical.value in rank
            && rank[store[n].motherLogical.value] < rank[n])
  }

  /** The world-frame image of `p`, given in the frame of volume `name`: each
      level's placement is applied once, up to the volume without a mother. */
  function ToWorld(store: Store, ghost rank: map<string, nat>, name: string, p: Vec3): (r: Vec3)
    requires WellPlaced(store, rank) && name in store
    ensures store[name].motherLogical.None? ==> r == p
    decreases rank[name]
  {
    match store[name].motherLogical
    case None => p
    case Some(mother) => ToWorld(store, rank, mother, Place(store[name].placement, p))
  }

  /** Every placement from `name` up to the world leaves points unrotated. */
  ghost predicate TranslationOnly(store: Store, rank: map<string, nat>, name: string)
    requires WellPlaced(store, rank) && name in store
    decreases rank[name]
  {
    match store[name].motherLogical
    case None => true
    case Some(mother) =>
      (forall v :: store[name].placement.rotation(v) == v) && TranslationOnly(store, rank, mother)
  }

  /** The sum of the translations from `name` up to the world. */
  ghost function Offset(store: Store, rank: map<string, nat>, name: string): Vec3
    requires WellPlaced(store, rank) && name in store
    decreases rank[name]
  {
    match store[name].motherLogical
    case None => Origin
    case Some(mother) => Add(store[name].placement.translation, Offset(store, rank, mother))
  }

  /** Without rotations, the walk adds each level's translation exactly once. */
  lemma {:induction false} ToWorldTranslates(store: Store, rank: map<string, nat>, name: string, p: Vec3)
    requires WellPlaced(store, rank) && name in store
    requires TranslationOnly(store, rank, name)
    ensures ToWorld(store, rank, name, p) == Add(p, Offset(store, rank, name))
    decreases rank[name]
  {
    match store[name].motherLogical
    case None =>
    case Some(mother) =>
      var q := Place(store[name].placement, p);
      assert q == Add(p, store[name].placement.translation);
      ToWorldTranslates(store, rank, mother, q);
  }

  /** ConvertCoordVolume2World: the walk towards the world, one level per turn. */
  method ConvertCoordVolume2World(store: Store, ghost rank: map<string, nat>, pv: string, pt: Vec3)
    returns (ptInWorldCoord: Vec3)
    requires WellPlaced(store, rank) && pv in store
    ensures ptInWorldCoord == ToWorld(store, rank, pv, pt)
  {
    ptInWorldCoord := pt;
    var currentPV := pv;
    while store[currentPV].motherLogical.Some?
      invariant currentPV in store
      invariant ToWorld(store, rank, currentPV, ptInWorldCoord) == ToWorld(store, rank, pv, pt)
      decreases rank[currentPV]
    {
      ptInWorldCoord := Place(store[currentPV].placement, ptInWorldCoord);
      currentPV := store[currentPV].motherLogical.value;
    }
  }

  // ---------------------------------------------------------------------------
  // Rejection sampling inside a volume
  // ---------------------------------------------------------------------------

  /** `G4RandFlat::shoot(lo, hi)` for the unit draw `u`. */
  function Lerp(lo: real, hi: real, u: real): real
  {
    lo + (hi - lo) * u
  }

  lemma LerpBetween(lo: real, hi: real, u: real)
    requires lo <= hi && 0.0 <= u <= 1.0
    ensures lo <= Lerp(lo, hi, u) <= hi
  {
    ProductNonNegative(hi - lo, u);
    ProductNonNegative(hi - lo, 1.0 - u);
    assert (hi - lo) * (1.0 - u) == (hi - lo) - (hi - lo) * u;
  }

  lemma ProductNonNegative(a: real, b: real)
    requires 0.0 <= a && 0.0 <= b
    ensures 0.0 <= a * b
  {
  }

  /** The candidate point for one triple of unit draws. */
  function Candidate(solid: Solid, u: Vec3): Vec3
  {
    Vec3(Lerp(solid.boundMin.x, solid.boundMax.x, u.x),
         Lerp(solid.boundMin.y, solid.boundMax.y, u.y),
         Lerp(solid.boundMin.z, solid.boundMax.z, u.z))
  }

  /** The first candidate that the solid reports inside; none when the draws
      run out first. */
  function FirstInside(solid: Solid, draws: seq<Vec3>): (r: Option<Vec3>)
    ensures r.Some? ==> solid.inside(r.value) == Inside
    ensures r.Some? ==> exists i :: 0 <= i < |draws| && r.value == Candidate(solid, draws[i])
                                   && forall j :: 0 <= j < i ==> solid.inside(Candidate(solid, draws[j])) != Inside
    ensures r.None? <==> forall i :: 0 <= i < |draws| ==> solid.inside(Candidate(solid, draws[i])) != Inside
  {
    if |draws| == 0 then None
    else
      var c := Candidate(solid, draws[0]);
      if solid.inside(c) == Inside then Some(c)
      else
        var r := FirstInside(solid, draws[1..]);
        assert forall i :: 1 <= i < |draws| ==> draws[i] == draws[1..][i - 1];
        r
  }

  predicate UnitDraw(u: Vec3)
  {
    0.0 <= u.x <= 1.0 && 0.0 <= u.y <= 1.0 && 0.0 <= u.z <= 1.0
  }

  predicate Within(lo: Vec3, hi: Vec3, p: Vec3)
  {
    lo.x <= p.x <= hi.x && lo.y <= p.y <= hi.y && lo.z <= p.z <= hi.z
  }

  /** With unit draws and ordered bounding limits, the sampled point lies in
      the bounding box. */
  lemma SampleWithinBounds(solid: Solid, draws: seq<Vec3>)
    requires solid.boundMin.x <= solid.boundMax.x && solid.boundMin.y <= solid.boundMax.y
    requires solid.boundMin.z <= solid.boundMax.z
    requires forall i :: 0 <= i < |draws| ==> UnitDraw(draws[i])
    ensures var r := FirstInside(solid, draws); r.Some? ==> Within(solid.boundMin, solid.boundMax, r.value)
  {
    var r := FirstInside(solid, draws);
    if r.Some? {
      var i :| 0 <= i < |draws| && r.value == Candidate(solid, draws[i]);
      LerpBetween(solid.boundMin.x, solid.boundMax.x, draws[i].x);
      LerpBetween(solid.boundMin.y, solid.boundMax.y, draws[i].y);
      LerpBetween(solid.boundMin.z, solid.boundMax.z, draws[i].z);
    }
  }

  /** SamplePointFromVolume: draw a point in the bounding box until the solid
      reports it inside. The draws are a finite sequence here, so the result is
      absent when none of them is accepted. */
  method SamplePointFromVolume(store: Store, pv: string, draws: seq<Vec3>) returns (pt: Option<Vec3>)
    requires pv in store
    ensures pt == FirstInside(store[pv].solid, draws)
  {
    var sol := store[pv].solid;
    var i := 0;
    while i < |draws|
      invariant i <= |draws|
      invariant FirstInside(sol, draws[i..]) == FirstInside(sol, draws)
    {
      assert draws[i..][0] == draws[i] && draws[i..][1..] == draws[i + 1..];
      var candidate := Candidate(sol, draws[i]);
      if sol.inside(candidate) == Inside {
        return Some(candidate);
      }
      i := i + 1;
    }
    return None;
  }

  // ---------------------------------------------------------------------------
  // Apex half-angle of the cone towards a volume
  // ---------------------------------------------------------------------------

  /** The vector operations the gun calls, left abstract. */
  datatype VectorOps = VectorOps(
    angle: (Vec3, Vec3) -> real,
    cos: real -> real,
    rotate: (Vec3, Vec3, real) -> Vec3,
    cross: (Vec3, Vec3) -> Vec3,
    isParallel: (Vec3, Vec3) -> bool,
    unit: Vec3 -> Vec3,
    dot: (Vec3, Vec3) -> real,
    scale: (Vec3, real) -> Vec3)

  /** The running maximum of the loop, from `acc`. */
  function MaxFrom(acc: real, angles: seq<real>): (r: real)
    ensures acc <= r
    ensures forall i :: 0 <= i < |angles| ==> angles[i] <= r
    ensures r == acc || exists i :: 0 <= i < |angles| && r == angles[i]
    decreases |angles|
  {
    if |angles| == 0 then acc
    else
      var r := MaxFrom(if angles[0] > acc then angles[0] else acc, angles[1..]);
      assert forall i :: 1 <= i < |angles| ==> angles[i] == angles[1..][i - 1];
      r
  }

  /** One corner of the box with opposite corners `lo` and `hi`: each flag picks
      the coordinate from `hi`. */
  function Corner(lo: Vec3, hi: Vec3, fx: bool, fy: bool, fz: bool): Vec3
  {
    Vec3(if fx then hi.x else lo.x, if fy then hi.y else lo.y, if fz then hi.z else lo.z)
  }

  /** The eight directions from `pt` to the corners assembled from `lo` and
      `hi`, in the source's order. */
  function CornerDirections(lo: Vec3, hi: Vec3, pt: Vec3): (r: seq<Vec3>)
    ensures |r| == 8
    ensures forall fx: bool, fy: bool, fz: bool :: Sub(Corner(lo, hi, fx, fy, fz), pt) in r
  {
    var r := [Sub(Corner(lo, hi, false, false, false), pt), Sub(Corner(lo, hi, false, false, true), pt),
              Sub(Corner(lo, hi, false, true, false), pt), Sub(Corner(lo, hi, false, true, true), pt),
              Sub(Corner(lo, hi, true, false, false), pt), Sub(Corner(lo, hi, true, false, true), pt),
              Sub(Corner(lo, hi, true, true, false), pt), Sub(Corner(lo, hi, true, true, true), pt)];
    assert forall fx: bool, fy: bool, fz: bool ::
      Sub(Corner(lo, hi, fx, fy, fz), pt) == r[(if fx then 4 else 0) + (if fy then 2 else 0) + (if fz then 1 else 0)];
    r
  }

  /** The angles between the direction to the centre and each corner direction. */
  function Angles(ops: VectorOps, toCenter: Vec3, dirs: seq<Vec3>): (r: seq<real>)
    ensures |r| == |dirs| && forall i :: 0 <= i < |dirs| ==> r[i] == ops.angle(toCenter, dirs[i])
  {
    if |dirs| == 0 then [] else [ops.angle(toCenter, dirs[0])] + Angles(ops, toCenter, dirs[1..])
  }

  /** The bounding box grown by `margin`, its two corners taken to the world
      separately, and the largest angle, from `pt`, between the volume's centre
      and the eight corners assembled from them (zero if none is larger). */
  function ApexHalfAngle(store: Store, ghost rank: map<string, nat>, ops: VectorOps, pt: Vec3, pv: string,
                         margin: real): real
    requires WellPlaced(store, rank) && pv in store
  {
    var sol := store[pv].solid;
    var minInWorld := ToWorld(store, rank, pv, Sub(sol.boundMin, Uniform(margin)));
    var maxInWorld := ToWorld(store, rank, pv, Add(sol.boundMax, Uniform(margin)));
    var toCenter := Sub(ToWorld(store, rank, pv, Origin), pt);
    MaxFrom(0.0, Angles(ops, toCenter, CornerDirections(minInWorld, maxInWorld, pt)))
  }

  /** GetApexHalfAngleToVolume: a running maximum over the eight corners. */
  method GetApexHalfAngleToVolume(store: Store, ghost rank: map<string, nat>, ops: VectorOps, ptInWorld: Vec3,
                                  pv: string, margin: real) returns (apexHalfAngle: real)
    requires WellPlaced(store, rank) && pv in store
    ensures apexHalfAngle == ApexHalfAngle(store, rank, ops, ptInWorld, pv, margin)
    ensures 0.0 <= apexHalfAngle
  {
    var sol := store[pv].solid;
    var boundMin := Sub(sol.boundMin, Uniform(margin));
    var boundMax := Add(sol.boundMax, Uniform(margin));
    var boundMinInWorld := ConvertCoordVolume2World(store, rank, pv, boundMin);
    var boundMaxInWorld := ConvertCoordVolume2World(store, rank, pv, boundMax);
    var pvCenterInWorld := ConvertCoordVolume2World(store, rank, pv, Origin);
    var directionToVolumeCenter := Sub(pvCenterInWorld, ptInWorld);
    var directionToVolumeCorners := CornerDirections(boundMinInWorld, boundMaxInWorld, ptInWorld);
    ghost var angles := Angles(ops, directionToVolumeCenter, directionToVolumeCorners);
    apexHalfAngle := 0.0;
    for k := 0 to 8
      invariant MaxFrom(apexHalfAngle, angles[k..]) == MaxFrom(0.0, angles)
    {
      assert angles[k..][0] == angles[k] && angles[k..][1..] == angles[k + 1..];
      var angle := ops.angle(directionToVolumeCenter, directionToVolumeCorners[k]);
      apexHalfAngle := if angle > apexHalfAngle then angle else apexHalfAngle;
    }
    assert angles[8..] == [];
  }

  /** The apex half-angle is at least every corner angle, and is one of them or zero. */
  lemma ApexHalfAngleIsMaximum(store: Store, rank: map<string, nat>, ops: VectorOps, pt: Vec3, pv: string,
                               margin: real, fx: bool, fy: bool, fz: bool)
    requires WellPlaced(store, rank) && pv in store
    ensures var sol := store[pv].solid;
            var lo := ToWorld(store, rank, pv, Sub(sol.boundMin, Uniform(margin)));
            var hi := ToWorld(store, rank, pv, Add(sol.boundMax, Uniform(margin)));
            var toCenter := Sub(ToWorld(store, rank, pv, Origin), pt);
            var a := ApexHalfAngle(store, rank, ops, pt, pv, margin);
            && 0.0 <= a
            && ops.angle(toCenter, Sub(Corner(lo, hi, fx, fy, fz), pt)) <= a
            && (a == 0.0 || exists k :: 0 <= k < 8 && a == ops.angle(toCenter, CornerDirections(lo, hi, pt)[k]))
  {
  }

  /** The corners are assembled from the two world-frame corners rather than
      transformed one by one; when no placement up the tree rotates, the two
      agree: each assembled corner is the world image of a corner of the box. */
  lemma CornersExactWithoutRotation(store: Store, rank: map<string, nat>, pv: string, lo: Vec3, hi: Vec3,
                                    fx: bool, fy: bool, fz: bool)
    requires WellPlaced(store, rank) && pv in store
    requires TranslationOnly(store, rank, pv)
    ensures Corner(ToWorld(store, rank, pv, lo), ToWorld(store, rank, pv, hi), fx, fy, fz)
            == ToWorld(store, rank, pv, Corner(lo, hi, fx, fy, fz))
  {
    ToWorldTranslates(store, rank, pv, lo);
    ToWorldTranslates(store, rank, pv, hi);
    ToWorldTranslates(store, rank, pv, Corner(lo, hi, fx, fy, fz));
  }
}
