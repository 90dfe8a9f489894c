/** The biased particle gun: a particle gun whose configuration names a source
    volume, a target volume with a margin, a nuclide and a minimum photon
    energy. Each event samples the position in the source volume, aims into a
    cone around the target and samples a photon energy from the nuclide's
    spectrum, and carries the weight that undoes the bias. */
module ParticleGun {
  import opened Wrappers
  import opened ICRP07Records
  import opened ICRP07Manager
  import opened GunGeometry

  /** The particle definition the gun holds: unset, gamma, or any other. */
  datatype ParticleDefinition = Unset | Gamma | Other(particleName: string)

  /** The particle state the base particle gun keeps and emits. */
  datatype ParticleState = ParticleState(position: Vec3, momentumDirection: Vec3, energy: real,
                                         definition: ParticleDefinition)

  /** The configuration: source and target volumes (by store name, none for a
      null pointer), the target margin, the nuclide and the energy cut. */
  datatype GunConfig = GunConfig(sourceVol: Option<string>, targetVol: Option<string>, targetVolumeMargin: real,
                                 nuclideName: string, minPhotonEnergy: real)

  /** What one event emits: the particle and the vertex weight. */
  datatype PrimaryVertex = PrimaryVertex(particle: ParticleState, weight: real)

  /** The random numbers one event consumes: unit triples for the rejection
      loop, an isotropic direction, the cone sampler, and the draw of the
      energy sampler. */
  datatype EventDraws = EventDraws(pointDraws: seq<Vec3>, isotropicDirection: Vec3, coneDirection: real -> Vec3,
                                   energyDraw: real)

  /** The fraction of the full solid angle inside a cone of cosine `c`, when
      the cone is narrower than a half-space; 1 otherwise. */
  function ConeFactor(c: real): (w: real)
    ensures c <= 0.0 ==> w == 1.0
    ensures 0.0 < c <= 1.0 ==> 0.0 <= w < 0.5
  {
    if c <= 0.0 then 1.0 else (1.0 - c) / 2.0
  }

  /** A narrower cone has a smaller factor. */
  lemma ConeFactorDecreasing(c1: real, c2: real)
    requires 0.0 < c1 <= c2
    ensures ConeFactor(c2) <= ConeFactor(c1)
  {
  }

  /** The event weight: 1, times the cone factor when a target is set, times the
      total yield when a nuclide is set. */
  function EventWeight(hasTarget: bool, cosApex: real, hasNuclide: bool, totalYield: real): real
  {
    (if hasTarget then ConeFactor(cosApex) else 1.0) * (if hasNuclide then totalYield else 1.0)
  }

  /** Once the cone factor is in, the weight is that factor times the total
      yield with a nuclide, and that factor alone without one. */
  lemma EventWeightOfFactors(hasTarget: bool, cosApex: real, hasNuclide: bool, totalYield: real, cone: real)
    requires cone == if hasTarget then ConeFactor(cosApex) else 1.0
    ensures hasNuclide ==> EventWeight(hasTarget, cosApex, hasNuclide, totalYield) == cone * totalYield
    ensures !hasNuclide ==> EventWeight(hasTarget, cosApex, hasNuclide, totalYield) == cone
  {
  }

  /** Without target and nuclide the weight stays 1; with a target only it is
      the cone factor; with a nuclide only it is the total yield. */
  lemma EventWeightCases(cosApex: real, totalYield: real)
    ensures EventWeight(false, cosApex, false, totalYield) == 1.0
    ensures EventWeight(true, cosApex, false, totalYield) == ConeFactor(cosApex)
    ensures EventWeight(false, cosApex, true, totalYield) == totalYield
    ensures cosApex <= 0.0 ==> EventWeight(true, cosApex, true, totalYield) == totalYield
  {
  }

  /** A non-negative total yield gives a weight between 0 and that total. */
  lemma EventWeightBounds(hasTarget: bool, cosApex: real, totalYield: real)
    requires 0.0 <= totalYield && cosApex <= 1.0
    ensures 0.0 <= EventWeight(hasTarget, cosApex, true, totalYield) <= totalYield
  {
    var f := if hasTarget then ConeFactor(cosApex) else 1.0;
    assert 0.0 <= f <= 1.0;
    ProductNonNegative(f, totalYield);
    ProductNonNegative(1.0 - f, totalYield);
    assert (1.0 - f) * totalYield == totalYield - f * totalYield;
  }

  /** `std::round`: halves are rounded away from zero. */
  function Round(x: real): (r: int)
    ensures 0.0 <= x ==> (r as real) - 0.5 <= x < (r as real) + 0.5
    ensures x < 0.0 ==> (r as real) - 0.5 < x <= (r as real) + 0.5
  {
    if 0.0 <= x then (x + 0.5).Floor else -((-x + 0.5).Floor)
  }

  /** The energy index: the sampler's draw times the spectrum length, rounded. */
  function EnergyIndex(u: real, n: nat): int
  {
    Round(u * (n as real))
  }

  /** For a non-negative draw the index is a valid position exactly when the
      scaled draw stays below the length by more than a half; with an empty
      spectrum it never is. */
  lemma EnergyIndexInRange(u: real, n: nat)
    requires 0.0 <= u
    ensures 0 <= EnergyIndex(u, n) < n <==> u * (n as real) + 0.5 < n as real
  {
    ProductNonNegative(u, n as real);
  }

  /** The sampler is built without interpolation, so each draw is the lower
      edge k/n of one of the n bins; such a draw gives back index k, which is
      in range. */
  lemma BinDrawIndex(k: nat, n: nat)
    requires k < n
    ensures EnergyIndex((k as real) / (n as real), n) == k
  {
    assert (k as real) / (n as real) * (n as real) == k as real;
  }

  /** An empty spectrum after the cut: whatever the draw, the index is 0, one
      past the end of the spectrum. */
  lemma EmptySpectrumReadsPastEnd(u: real)
    ensures EnergyIndex(u, 0) == 0
  {
  }

  /** The spectrum the gun samples: the nuclide's aggregated spectrum after the
      minimum-energy cut. */
  function PhotonSpectrum(db: Database, ghost rank: map<string, nat>, nuclideName: string, minPhotonEnergy: real)
    : (r: RadiationData)
    requires Ranked(db, rank) && db.RadiationValid()
    ensures r.Valid()
    ensures forall i :: 0 <= i < |r.photonEnergies| ==> minPhotonEnergy <= r.photonEnergies[i]
  {
    KeptAbove(GetPhotonSourceAllDaughters(db, rank, nuclideName), minPhotonEnergy)
  }

  /** With non-negative yields, the weight of an event with a nuclide is at
      most the total yield of the nuclide's uncut aggregated spectrum. */
  lemma WeightAtMostUncutYield(db: Database, rank: map<string, nat>, nuclideName: string, minPhotonEnergy: real,
                               hasTarget: bool, cosApex: real)
    requires Ranked(db, rank) && db.RadiationValid() && cosApex <= 1.0
    requires NonNegative(GetPhotonSourceAllDaughters(db, rank, nuclideName).photonYields)
    ensures var total := Sum(PhotonSpectrum(db, rank, nuclideName, minPhotonEnergy).photonYields);
            0.0 <= EventWeight(hasTarget, cosApex, true, total)
            <= Sum(GetPhotonSourceAllDaughters(db, rank, nuclideName).photonYields)
  {
    TotalYieldKeptAbove(GetPhotonSourceAllDaughters(db, rank, nuclideName), minPhotonEnergy);
    EventWeightBounds(hasTarget, cosApex, Sum(PhotonSpectrum(db, rank, nuclideName, minPhotonEnergy).photonYields));
  }

  /** The direction of an event with a target: isotropic for a cone wider than
      a half-space; otherwise the cone sample, turned from +Z onto the
      direction to the target's centre, or, when that direction is along Z,
      multiplied by its Z component. */
  function Direction(ops: VectorOps, cosApex: real, draws: EventDraws, dirToVolume: Vec3): Vec3
  {
    if cosApex <= 0.0 then draws.isotropicDirection
    else
      var dir := draws.coneDirection(cosApex);
      if !ops.isParallel(dirToVolume, ZUnit) then ops.rotate(dir, ops.cross(ZUnit, dirToVolume), ops.angle(ZUnit, dirToVolume))
      else ops.scale(dir, ops.dot(ops.unit(dirToVolume), ZUnit))
  }

  /** The total yield, summed in order. */
  method TotalYield(photonYields: seq<real>) returns (totalYield: real)
    ensures totalYield == Sum(photonYields)
  {
    totalYield := 0.0;
    for i := 0 to |photonYields|
      invariant totalYield == Sum(photonYields[..i])
    {
      assert photonYields[..i + 1][..i] == photonYields[..i];
      totalYield := totalYield + photonYields[i];
    }
    assert photonYields[..|photonYields|] == photonYields;
  }

  /** The target half of an event: the apex half-angle from `srcPos`, its
      cosine, the cone factor the weight is multiplied by, and the direction. */
  method AimAtTarget(store: Store, ghost wrank: map<string, nat>, ops: VectorOps, draws: EventDraws,
                     targetVol: string, margin: real, srcPos: Vec3)
    returns (dir: Vec3, coneFactor: real)
    requires WellPlaced(store, wrank) && targetVol in store
    ensures var c := ops.cos(ApexHalfAngle(store, wrank, ops, srcPos, targetVol, margin));
            && coneFactor == ConeFactor(c)
            && dir == Direction(ops, c, draws, Sub(ToWorld(store, wrank, targetVol, Origin), srcPos))
  {
    var apexHalfAngle := GetApexHalfAngleToVolume(store, wrank, ops, srcPos, targetVol, margin);
    var cosApexHalfAngle := ops.cos(apexHalfAngle);
    coneFactor := 1.0;
    if cosApexHalfAngle <= 0.0 {
      dir := draws.isotropicDirection;
    } else {
      coneFactor := coneFactor * ((1.0 - cosApexHalfAngle) / 2.0);
      dir := draws.coneDirection(cosApexHalfAngle);
      var center := ConvertCoordVolume2World(store, wrank, targetVol, Origin);
      var dirToVolume := Sub(center, srcPos);
      if !ops.isParallel(dirToVolume, ZUnit) {
        dir := ops.rotate(dir, ops.cross(ZUnit, dirToVolume), ops.angle(ZUnit, dirToVolume));
      } else {
        dir := ops.scale(dir, ops.dot(ops.unit(dirToVolume), ZUnit));
      }
    }
  }

  /** The nuclide half of an event: aggregate the spectrum, cut it in place,
      sum the yields, and read the energy at the sampled index. */
  method SamplePhotonEnergy(db: Database, ghost rank: map<string, nat>, nuclideName: string, minPhotonEnergy: real,
                            energyDraw: real)
    returns (energy: real, totalYield: real)
    requires Ranked(db, rank) && db.RadiationValid()
    requires var n := |PhotonSpectrum(db, rank, nuclideName, minPhotonEnergy).photonEnergies|;
             0 <= EnergyIndex(energyDraw, n) < n
    ensures var spectrum := PhotonSpectrum(db, rank, nuclideName, minPhotonEnergy);
            && energy == spectrum.photonEnergies[EnergyIndex(energyDraw, |spectrum.photonEnergies|)]
            && totalYield == Sum(spectrum.photonYields)
  {
    var photonSource := GetPhotonSourceAllDaughters(db, rank, nuclideName);
    var buffer := new RadiationBuffer(photonSource);
    buffer.RemoveRadiationDataByMinimumEnergy(minPhotonEnergy);
    totalYield := TotalYield(buffer.photonYields);
    var idx := EnergyIndex(energyDraw, |buffer.photonYields|);
    energy := buffer.photonEnergies[idx];
  }

  /** What an event needs: a placement store whose mother chains end and the
      configured volumes in the store; with a nuclide, also a ranked decay
      database with valid radiation data and an energy index inside the cut
      spectrum (the source reads it unchecked). Without a nuclide the
      database is never read. */
  ghost predicate EventReady(cfg: GunConfig, db: Database, rank: map<string, nat>, store: Store,
                             wrank: map<string, nat>, draws: EventDraws)
  {
    && WellPlaced(store, wrank)
    && (cfg.sourceVol.Some? ==> cfg.sourceVol.value in store)
    && (cfg.targetVol.Some? ==> cfg.targetVol.value in store)
    && (cfg.nuclideName != "" ==>
          && Ranked(db, rank) && db.RadiationValid()
          && var n := |PhotonSpectrum(db, rank, cfg.nuclideName, cfg.minPhotonEnergy).photonEnergies|;
             0 <= EnergyIndex(draws.energyDraw, n) < n)
  }

  /** Where an event starts: the first accepted point of the source volume, in
      world coordinates; the current position without a source volume;
      nothing when the draws run out. */
  function SourcePosition(cfg: GunConfig, store: Store, ghost wrank: map<string, nat>, draws: EventDraws,
                          current: Vec3): (r: Option<Vec3>)
    requires WellPlaced(store, wrank) && (cfg.sourceVol.Some? ==> cfg.sourceVol.value in store)
    ensures r.None? <==> cfg.sourceVol.Some? && FirstInside(store[cfg.sourceVol.value].solid, draws.pointDraws).None?
    ensures cfg.sourceVol.None? ==> r == Some(current)
  {
    if cfg.sourceVol.None? then Some(current)
    else
      match FirstInside(store[cfg.sourceVol.value].solid, draws.pointDraws)
      case None => None
      case Some(point) => Some(ToWorld(store, wrank, cfg.sourceVol.value, point))
  }

  /** The cosine of the apex half-angle towards the target from `position`;
      0 (a half-space, no bias) without a target. */
  function CosApex(cfg: GunConfig, store: Store, ghost wrank: map<string, nat>, ops: VectorOps, position: Vec3): real
    requires WellPlaced(store, wrank) && (cfg.targetVol.Some? ==> cfg.targetVol.value in store)
  {
    if cfg.targetVol.None? then 0.0
    else ops.cos(ApexHalfAngle(store, wrank, ops, position, cfg.targetVol.value, cfg.targetVolumeMargin))
  }

  /** The particle and weight one event emits from configuration `cfg` and the
      gun's particle state `p`: the position from the source volume, the
      direction into the cone around the target, a photon energy and the gamma
      definition from the nuclide's cut spectrum, and the weight that undoes
      the two biases. */
  function Event(cfg: GunConfig, p: ParticleState, db: Database, ghost rank: map<string, nat>, store: Store,
                 ghost wrank: map<string, nat>, ops: VectorOps, draws: EventDraws): (r: Option<PrimaryVertex>)
    requires EventReady(cfg, db, rank, store, wrank, draws)
    ensures r.None? <==> cfg.sourceVol.Some? && FirstInside(store[cfg.sourceVol.value].solid, draws.pointDraws).None?
  {
    match SourcePosition(cfg, store, wrank, draws, p.position)
    case None => None
    case Some(position) =>
      var cosApex := CosApex(cfg, store, wrank, ops, position);
      var direction :=
        if cfg.targetVol.None? then p.momentumDirection
        else Direction(ops, cosApex, draws, Sub(ToWorld(store, wrank, cfg.targetVol.value, Origin), position));
      var hasNuclide := cfg.nuclideName != "";
      var spectrum := if hasNuclide then PhotonSpectrum(db, rank, cfg.nuclideName, cfg.minPhotonEnergy) else Empty;
      var energy :=
        if hasNuclide then spectrum.photonEnergies[EnergyIndex(draws.energyDraw, |spectrum.photonEnergies|)]
        else p.energy;
      var definition := if hasNuclide then Gamma else p.definition;
      var weight := EventWeight(cfg.targetVol.Some?, cosApex, hasNuclide, Sum(spectrum.photonYields));
      Some(PrimaryVertex(ParticleState(position, direction, energy, definition), weight))
  }

  /** One event on values: sample the source point and move it to world
      coordinates, aim at the target multiplying the weight by the cone
      factor, sample a photon energy multiplying the weight by the total
      yield, and emit the particle with the weight. */
  method SampleEvent(cfg: GunConfig, p: ParticleState, db: Database, ghost rank: map<string, nat>, store: Store,
                     ghost wrank: map<string, nat>, ops: VectorOps, draws: EventDraws)
    returns (vertex: Option<PrimaryVertex>)
    requires EventReady(cfg, db, rank, store, wrank, draws)
    ensures vertex == Event(cfg, p, db, rank, store, wrank, ops, draws)
  {
    var particleWeight := 1.0;
    var position := p.position;
    if cfg.sourceVol.Some? {
      var srcPosInVolume := SamplePointFromVolume(store, cfg.sourceVol.value, draws.pointDraws);
      if srcPosInVolume.None? {
        return None;
      }
      position := ConvertCoordVolume2World(store, wrank, cfg.sourceVol.value, srcPosInVolume.value);
    }
    assert SourcePosition(cfg, store, wrank, draws, p.position) == Some(position);

    var direction := p.momentumDirection;
    if cfg.targetVol.Some? {
      var dir, coneFactor := AimAtTarget(store, wrank, ops, draws, cfg.targetVol.value, cfg.targetVolumeMargin,
                                         position);
      particleWeight := particleWeight * coneFactor;
      direction := dir;
    }

    ghost var cosApex := CosApex(cfg, store, wrank, ops, position);
    ghost var spectrum := if cfg.nuclideName != "" then PhotonSpectrum(db, rank, cfg.nuclideName, cfg.minPhotonEnergy)
                          else Empty;

    var energy, definition := p.energy, p.definition;
    if cfg.nuclideName != "" {
      var sampled, totalYield := SamplePhotonEnergy(db, rank, cfg.nuclideName, cfg.minPhotonEnergy, draws.energyDraw);
      EventWeightOfFactors(cfg.targetVol.Some?, cosApex, true, totalYield, particleWeight);
      particleWeight := particleWeight * totalYield;
      energy, definition := sampled, Gamma;
    } else {
      EventWeightOfFactors(cfg.targetVol.Some?, cosApex, false, Sum(spectrum.photonYields), particleWeight);
    }

    vertex := Some(PrimaryVertex(ParticleState(position, direction, energy, definition), particleWeight));
  }

  /** With nothing configured the gun emits its particle unchanged, with
      weight 1: it behaves as the plain particle gun. */
  lemma EventUnconfigured(p: ParticleState, db: Database, rank: map<string, nat>, store: Store,
                          wrank: map<string, nat>, ops: VectorOps, draws: EventDraws, margin: real, minE: real)
    requires EventReady(GunConfig(None, None, margin, "", minE), db, rank, store, wrank, draws)
    ensures Event(GunConfig(None, None, margin, "", minE), p, db, rank, store, wrank, ops, draws)
            == Some(PrimaryVertex(p, 1.0))
  {
  }

  /** With a source volume the event starts at an accepted point of that
      volume's solid, moved along the mother chain to world coordinates. */
  lemma EventStartsInSource(cfg: GunConfig, p: ParticleState, db: Database, rank: map<string, nat>, store: Store,
                            wrank: map<string, nat>, ops: VectorOps, draws: EventDraws)
    requires EventReady(cfg, db, rank, store, wrank, draws) && cfg.sourceVol.Some?
    ensures var r := Event(cfg, p, db, rank, store, wrank, ops, draws);
            r.Some? ==>
              exists point :: && store[cfg.sourceVol.value].solid.inside(point) == Inside
                              && r.value.particle.position == ToWorld(store, wrank, cfg.sourceVol.value, point)
  {
    var r := Event(cfg, p, db, rank, store, wrank, ops, draws);
    if r.Some? {
      var point := FirstInside(store[cfg.sourceVol.value].solid, draws.pointDraws).value;
      assert r.value.particle.position == ToWorld(store, wrank, cfg.sourceVol.value, point);
    }
  }

  /** Every line of the cut spectrum is a line of the uncut aggregated
      spectrum at or above the cut. */
  lemma SpectrumLineAboveCut(db: Database, rank: map<string, nat>, nuclideName: string, minPhotonEnergy: real,
                             idx: int)
    requires Ranked(db, rank) && db.RadiationValid()
    requires 0 <= idx < |PhotonSpectrum(db, rank, nuclideName, minPhotonEnergy).photonEnergies|
    ensures var e := PhotonSpectrum(db, rank, nuclideName, minPhotonEnergy).photonEnergies[idx];
            && minPhotonEnergy <= e
            && e in GetPhotonSourceAllDaughters(db, rank, nuclideName).photonEnergies
  {
    var uncut := GetPhotonSourceAllDaughters(db, rank, nuclideName);
    var spectrum := PhotonSpectrum(db, rank, nuclideName, minPhotonEnergy);
    var line := (spectrum.photonEnergies[idx], spectrum.photonYields[idx]);
    assert Pairs(spectrum)[idx] == line;
    KeptAboveMembership(uncut, minPhotonEnergy, line);
    var k :| 0 <= k < |Pairs(uncut)| && Pairs(uncut)[k] == line;
    assert uncut.photonEnergies[k] == line.0;
  }

  /** With a nuclide the event emits a gamma whose energy is a line of the
      nuclide's aggregated spectrum at or above the cut. */
  lemma EventEnergyFromSpectrum(cfg: GunConfig, p: ParticleState, db: Database, rank: map<string, nat>, store: Store,
                                wrank: map<string, nat>, ops: VectorOps, draws: EventDraws)
    requires EventReady(cfg, db, rank, store, wrank, draws) && cfg.nuclideName != ""
    ensures var r := Event(cfg, p, db, rank, store, wrank, ops, draws);
            r.Some? ==>
              && r.value.particle.definition == Gamma
              && cfg.minPhotonEnergy <= r.value.particle.energy
              && r.value.particle.energy in GetPhotonSourceAllDaughters(db, rank, cfg.nuclideName).photonEnergies
  {
    var spectrum := PhotonSpectrum(db, rank, cfg.nuclideName, cfg.minPhotonEnergy);
    SpectrumLineAboveCut(db, rank, cfg.nuclideName, cfg.minPhotonEnergy,
                         EnergyIndex(draws.energyDraw, |spectrum.photonEnergies|));
  }

  /** With a nuclide and non-negative yields, the weight lies between 0 and the
      total yield of the uncut aggregated spectrum, for any cosine up to 1. */
  lemma EventWeightAtMostYield(cfg: GunConfig, p: ParticleState, db: Database, rank: map<string, nat>, store: Store,
                               wrank: map<string, nat>, ops: VectorOps, draws: EventDraws)
    requires EventReady(cfg, db, rank, store, wrank, draws) && cfg.nuclideName != ""
    requires NonNegative(GetPhotonSourceAllDaughters(db, rank, cfg.nuclideName).photonYields)
    requires forall a :: ops.cos(a) <= 1.0
    ensures var r := Event(cfg, p, db, rank, store, wrank, ops, draws);
            r.Some? ==>
              0.0 <= r.value.weight <= Sum(GetPhotonSourceAllDaughters(db, rank, cfg.nuclideName).photonYields)
  {
    var r := Event(cfg, p, db, rank, store, wrank, ops, draws);
    if r.Some? {
      var position := SourcePosition(cfg, store, wrank, draws, p.position).value;
      WeightAtMostUncutYield(db, rank, cfg.nuclideName, cfg.minPhotonEnergy, cfg.targetVol.Some?,
                             CosApex(cfg, store, wrank, ops, position));
    }
  }

  /** Without a target the direction is the gun's own and the weight carries
      no cone factor. */
  lemma EventWithoutTarget(cfg: GunConfig, p: ParticleState, db: Database, rank: map<string, nat>, store: Store,
                           wrank: map<string, nat>, ops: VectorOps, draws: EventDraws)
    requires EventReady(cfg, db, rank, store, wrank, draws) && cfg.targetVol.None?
    ensures var r := Event(cfg, p, db, rank, store, wrank, ops, draws);
            r.Some? ==>
              && r.value.particle.momentumDirection == p.momentumDirection
              && r.value.weight
                 == if cfg.nuclideName == "" then 1.0
                    else Sum(PhotonSpectrum(db, rank, cfg.nuclideName, cfg.minPhotonEnergy).photonYields)
  {
  }

  /** A target whose cone is at least a half-space from the start point gives
      an isotropic direction and leaves the weight unbiased. */
  lemma EventWideCone(cfg: GunConfig, p: ParticleState, db: Database, rank: map<string, nat>, store: Store,
                      wrank: map<string, nat>, ops: VectorOps, draws: EventDraws)
    requires EventReady(cfg, db, rank, store, wrank, draws) && cfg.targetVol.Some?
    ensures var r := Event(cfg, p, db, rank, store, wrank, ops, draws);
            r.Some? && CosApex(cfg, store, wrank, ops, r.value.particle.position) <= 0.0 ==>
              && r.value.particle.momentumDirection == draws.isotropicDirection
              && r.value.weight
                 == if cfg.nuclideName == "" then 1.0
                    else Sum(PhotonSpectrum(db, rank, cfg.nuclideName, cfg.minPhotonEnergy).photonYields)
  {
    var r := Event(cfg, p, db, rank, store, wrank, ops, draws);
    if r.Some? {
      var position := SourcePosition(cfg, store, wrank, draws, p.position).value;
      assert r.value.particle.position == position;
      var c := CosApex(cfg, store, wrank, ops, position);
      if c <= 0.0 {
        if cfg.nuclideName != "" {
          EventWeightCases(c, Sum(PhotonSpectrum(db, rank, cfg.nuclideName, cfg.minPhotonEnergy).photonYields));
        } else {
          EventWeightCases(c, 0.0);
        }
      }
    }
  }

  class AdvancedParticleGun {
    var sourceVol: Option<string>
    var targetVol: Option<string>
    var targetVolumeMargin: real
    var nuclideName: string
    var minPhotonEnergy: real

    var particlePosition: Vec3
    var particleMomentumDirection: Vec3
    var particleEnergy: real
    var particleDefinition: ParticleDefinition

    function Config(): GunConfig
      reads this
    {
      GunConfig(sourceVol, targetVol, targetVolumeMargin, nuclideName, minPhotonEnergy)
    }

    function Particle(): ParticleState
      reads this
    {
      ParticleState(particlePosition, particleMomentumDirection, particleEnergy, particleDefinition)
    }

    /** No source, no target, zero margin, no nuclide and no energy cut; the
        particle state is the base gun's initial one. */
    constructor (initial: ParticleState)
      ensures Config() == GunConfig(None, None, 0.0, "", 0.0)
      ensures Particle() == initial
    {
      sourceVol := None;
      targetVol := None;
      targetVolumeMargin := 0.0;
      nuclideName := "";
      minPhotonEnergy := 0.0;
      particlePosition := initial.position;
      particleMomentumDirection := initial.momentumDirection;
      particleEnergy := initial.energy;
      particleDefinition := initial.definition;
    }

    function GetSourceVolume(): Option<string> reads this { sourceVol }
    function GetTargetVolume(): Option<string> reads this { targetVol }
    function GetTargetVolumeMargin(): real reads this { targetVolumeMargin }
    function GetNuclideSource(): string reads this { nuclideName }
    function GetMinPhotonEnergy(): real reads this { minPhotonEnergy }

    /** Stores the volume even when it is null; null only prints a warning. */
    method SetSourceVolume(sourceVolume: Option<string>) returns (warned: bool)
      modifies this
      ensures warned <==> sourceVolume.None?
      ensures GetSourceVolume() == sourceVolume
      ensures Config() == old(Config()).(sourceVol := sourceVolume) && Particle() == old(Particle())
    {
      warned := sourceVolume.None?;
      sourceVol := sourceVolume;
    }

    /** Looks the name up in the store; a missing name stores null, with a warning. */
    method SetSourceVolumeByName(store: Store, sourceVolName: string) returns (warned: bool)
      modifies this
      ensures warned <==> sourceVolName !in store
      ensures GetSourceVolume() == (if sourceVolName in store then Some(sourceVolName) else None)
      ensures Config() == old(Config()).(sourceVol := GetSourceVolume()) && Particle() == old(Particle())
    {
      var found := if sourceVolName in store then Some(sourceVolName) else None;
      warned := SetSourceVolume(found);
    }

    /** Sets the target and the margin together; null is stored, with a warning. */
    method SetTargetVolume(targetVolume: Option<string>, margin: real := 0.0) returns (warned: bool)
      modifies this
      ensures warned <==> targetVolume.None?
      ensures GetTargetVolume() == targetVolume && GetTargetVolumeMargin() == margin
      ensures Config() == old(Config()).(targetVol := targetVolume, targetVolumeMargin := margin)
      ensures Particle() == old(Particle())
    {
      warned := targetVolume.None?;
      targetVol := targetVolume;
      targetVolumeMargin := margin;
    }

    /** Looks the name up in the store, then sets the target and the margin. */
    method SetTargetVolumeByName(store: Store, targetVolName: string, margin: real := 0.0) returns (warned: bool)
      modifies this
      ensures warned <==> targetVolName !in store
      ensures GetTargetVolume() == (if targetVolName in store then Some(targetVolName) else None)
      ensures GetTargetVolumeMargin() == margin
      ensures Config() == old(Config()).(targetVol := GetTargetVolume(), targetVolumeMargin := margin)
      ensures Particle() == old(Particle())
    {
      var found := if targetVolName in store then Some(targetVolName) else None;
      warned := SetTargetVolume(found, margin);
    }

    method SetTargetVolumeMargin(margin: real)
      modifies this
      ensures GetTargetVolumeMargin() == margin
      ensures Config() == old(Config()).(targetVolumeMargin := margin) && Particle() == old(Particle())
    {
      targetVolumeMargin := margin;
    }

    method SetNuclideSource(name: string)
      modifies this
      ensures GetNuclideSource() == name
      ensures Config() == old(Config()).(nuclideName := name) && Particle() == old(Particle())
    {
      nuclideName := name;
    }

    method SetMinPhotonEnergy(energy: real)
      modifies this
      ensures GetMinPhotonEnergy() == energy
      ensures Config() == old(Config()).(minPhotonEnergy := energy) && Particle() == old(Particle())
    {
      minPhotonEnergy := energy;
    }

    /** One event: the sampling of `SampleEvent` on the current configuration
        and particle state, after which the gun holds the emitted particle.
        The configuration is not changed; when the draws run out nothing is
        emitted and the particle state is left as it was. */
    method GeneratePrimaryVertex(db: Database, ghost rank: map<string, nat>, store: Store,
                                 ghost wrank: map<string, nat>, ops: VectorOps, draws: EventDraws)
      returns (vertex: Option<PrimaryVertex>)
      requires EventReady(Config(), db, rank, store, wrank, draws)
      modifies this
      ensures vertex == Event(old(Config()), old(Particle()), db, rank, store, wrank, ops, draws)
      ensures Config() == old(Config())
      ensures Particle() == if vertex.Some? then vertex.value.particle else old(Particle())
    {
      vertex := SampleEvent(Config(), Particle(), db, rank, store, wrank, ops, draws);
      if vertex.Some? {
        var particle := vertex.value.particle;
        particlePosition := particle.position;
        particleMomentumDirection := particle.momentumDirection;
        particleEnergy := particle.energy;
        particleDefinition := particle.definition;
      }
    }
  }
}
