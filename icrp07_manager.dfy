/** The ICRP Publication 107 decay/radiation database and its queries. The two
    process-wide maps are filled once by the importers (`ICRP07Import.Tables`)
    and only read afterwards, so the queries take them as one `Database` value. */
module ICRP07Manager {
  import opened ICRP07Records

  datatype Database = Database(
    decayDatabase: map<string, DecayData>,
    radiationDatabase: map<string, RadiationData>)
  {
    /** Every stored spectrum has index-aligned lists (the importer guarantees it). */
    predicate RadiationValid()
    {
      AllValid(radiationDatabase)
    }
  }

  /** `rank` orders the part of the decay table the aggregation walks: every
      nuclide present in both maps has a rank, each of its daughters that is
      itself present in both maps has a smaller rank, and every daughter name
      has a branch ratio. A nuclide missing from either map ends the recursion
      at once, so a cycle through it is allowed; a cycle through nuclides
      present in both maps would make the source recurse without end. */
  ghost predicate Ranked(db: Database, rank: map<string, nat>)
  {
    forall n :: n in db.decayDatabase && n in db.radiationDatabase ==>
      && n in rank
      && |db.decayDatabase[n].daughterNuclideNames| <= |db.decayDatabase[n].daughterNuclideRatios|
      && DaughtersBelow(db, rank, db.decayDatabase[n].daughterNuclideNames, rank[n])
  }

  /** Every name in `names` that is present in both maps has rank below `bound`. */
  ghost predicate DaughtersBelow(db: Database, rank: map<string, nat>, names: seq<string>, bound: nat)
  {
    forall i :: 0 <= i < |names| && names[i] in db.decayDatabase && names[i] in db.radiationDatabase ==>
      names[i] in rank && rank[names[i]] < bound
  }

  /** The termination measure of the aggregation: one above the rank for
      nuclides present in both maps, zero for the others (they are leaves). */
  ghost function Height(db: Database, rank: map<string, nat>, name: string): nat
  {
    if name in db.decayDatabase && name in db.radiationDatabase && name in rank then rank[name] + 1 else 0
  }

  /** The nuclide's own spectrum when it is in both maps, otherwise an empty record. */
  function GetPhotonSource(db: Database, nuclideName: string): (r: RadiationData)
    ensures nuclideName in db.decayDatabase && nuclideName in db.radiationDatabase ==>
              r == db.radiationDatabase[nuclideName]
    ensures nuclideName !in db.decayDatabase || nuclideName !in db.radiationDatabase ==> r == Empty
  {
    if nuclideName !in db.decayDatabase then Empty
    else if nuclideName !in db.radiationDatabase then Empty
    else
      AppendedToEmpty(db.radiationDatabase[nuclideName]);
      Appended(Empty, db.radiationDatabase[nuclideName], DefaultYieldMultiplier)
  }

  /** The spectrum of a nuclide and of all its descendants: its own entries, then,
      in daughter order, each daughter's aggregated entries with yields times the
      branch ratio. Empty when the nuclide is missing from either map. */
  function GetPhotonSourceAllDaughters(db: Database, ghost rank: map<string, nat>, nuclideName: string): (r: RadiationData)
    requires Ranked(db, rank)
    ensures nuclideName !in db.decayDatabase || nuclideName !in db.radiationDatabase ==> r == Empty
    ensures db.RadiationValid() ==> r.Valid()
    decreases Height(db, rank, nuclideName), 0
  {
    if nuclideName !in db.decayDatabase then Empty
    else if nuclideName !in db.radiationDatabase then Empty
    else
      var decayData := db.decayDatabase[nuclideName];
      AppendDaughterSources(db, rank, rank[nuclideName],
        Appended(Empty, db.radiationDatabase[nuclideName], DefaultYieldMultiplier),
        decayData.daughterNuclideNames, decayData.daughterNuclideRatios)
  }

  /** The loop over the daughters: appends each daughter's aggregated spectrum,
      scaled by its branch ratio, to `photonSource`. */
  function AppendDaughterSources(db: Database, ghost rank: map<string, nat>, ghost bound: nat,
                                 photonSource: RadiationData, names: seq<string>, ratios: seq<real>): (r: RadiationData)
    requires Ranked(db, rank)
    requires DaughtersBelow(db, rank, names, bound)
    requires |names| <= |ratios|
    ensures db.RadiationValid() && photonSource.Valid() ==> r.Valid()
    decreases bound, |names|
  {
    if names == [] then photonSource
    else
      var daughterPhotonSource := GetPhotonSourceAllDaughters(db, rank, names[0]);
      AppendDaughterSources(db, rank, bound,
        Appended(photonSource, daughterPhotonSource, ratios[0]), names[1..], ratios[1..])
  }

  // ---------------------------------------------------------------------------
  // A reference definition: the aggregated spectrum as a list of decay paths

  /** A nuclide reached along a decay path, with the product of the branch ratios along it. */
  datatype Contribution = Contribution(nuclide: string, weight: real)

  /** The same nuclides with every weight multiplied by `ratio`. */
  function Weighted(cs: seq<Contribution>, ratio: real): (r: seq<Contribution>)
    ensures |r| == |cs|
    ensures forall i :: 0 <= i < |cs| ==> r[i].nuclide == cs[i].nuclide
  {
    if cs == [] then [] else [Contribution(cs[0].nuclide, cs[0].weight * ratio)] + Weighted(cs[1..], ratio)
  }

  /** The decay paths from `nuclideName`, in pre-order: the nuclide itself with
      weight 1, then each daughter's paths with weights times its branch ratio.
      Only nuclides present in both maps are reached. */
  function DecayPaths(db: Database, ghost rank: map<string, nat>, nuclideName: string): (r: seq<Contribution>)
    requires Ranked(db, rank)
    ensures forall i :: 0 <= i < |r| ==>
              r[i].nuclide in db.decayDatabase && r[i].nuclide in db.radiationDatabase
    ensures nuclideName in db.decayDatabase && nuclideName in db.radiationDatabase ==>
              |r| > 0 && r[0] == Contribution(nuclideName, 1.0)
    decreases Height(db, rank, nuclideName), 0
  {
    if nuclideName !in db.decayDatabase || nuclideName !in db.radiationDatabase then []
    else
      var decayData := db.decayDatabase[nuclideName];
      [Contribution(nuclideName, 1.0)]
        + DaughterPaths(db, rank, rank[nuclideName], decayData.daughterNuclideNames, decayData.daughterNuclideRatios)
  }

  function DaughterPaths(db: Database, ghost rank: map<string, nat>, ghost bound: nat,
                         names: seq<string>, ratios: seq<real>): (r: seq<Contribution>)
    requires Ranked(db, rank)
    requires DaughtersBelow(db, rank, names, bound)
    requires |names| <= |ratios|
    ensures forall i :: 0 <= i < |r| ==>
              r[i].nuclide in db.decayDatabase && r[i].nuclide in db.radiationDatabase
    decreases bound, |names|
  {
    if names == [] then []
    else Weighted(DecayPaths(db, rank, names[0]), ratios[0])
           + DaughterPaths(db, rank, bound, names[1..], ratios[1..])
  }

  /** The spectra of the reached nuclides, each scaled by its path weight, in order. */
  function Spectrum(db: Database, cs: seq<Contribution>): RadiationData
    requires forall i :: 0 <= i < |cs| ==> cs[i].nuclide in db.radiationDatabase
  {
    if cs == [] then Empty
    else Concat(Scaled(db.radiationDatabase[cs[0].nuclide], cs[0].weight), Spectrum(db, cs[1..]))
  }

  lemma {:induction false} SpectrumConcat(db: Database, a: seq<Contribution>, b: seq<Contribution>)
    requires forall i :: 0 <= i < |a| ==> a[i].nuclide in db.radiationDatabase
    requires forall i :: 0 <= i < |b| ==> b[i].nuclide in db.radiationDatabase
    ensures Spectrum(db, a + b) == Concat(Spectrum(db, a), Spectrum(db, b))
    decreases |a|
  {
    if a == [] {
      assert a + b == b;
      ConcatEmpty(Spectrum(db, b));
    } else {
      assert (a + b)[1..] == a[1..] + b;
      SpectrumConcat(db, a[1..], b);
      ConcatAssociative(Scaled(db.radiationDatabase[a[0].nuclide], a[0].weight), Spectrum(db, a[1..]), Spectrum(db, b));
    }
  }

  lemma {:induction false} SpectrumWeighted(db: Database, cs: seq<Contribution>, ratio: real)
    requires forall i :: 0 <= i < |cs| ==> cs[i].nuclide in db.radiationDatabase
    ensures Spectrum(db, Weighted(cs, ratio)) == Scaled(Spectrum(db, cs), ratio)
    decreases |cs|
  {
    if cs == [] {
      assert Scaled(Empty, ratio) == Empty;
    } else {
      var w := Weighted(cs, ratio);
      var own, w0, tail := db.radiationDatabase[cs[0].nuclide], cs[0].weight, Spectrum(db, cs[1..]);
      assert w[1..] == Weighted(cs[1..], ratio);
      assert w[0] == Contribution(cs[0].nuclide, w0 * ratio);
      SpectrumWeighted(db, cs[1..], ratio);
      ScaledHead(own, w0, ratio, tail);
    }
  }

  /** The aggregated spectrum is the concatenation, over the decay paths in
      pre-order, of the reached nuclide's own spectrum with its yields scaled by
      the product of the branch ratios along the path. */
  lemma {:induction false} AllDaughtersIsSpectrumOfPaths(db: Database, rank: map<string, nat>, nuclideName: string)
    requires Ranked(db, rank)
    ensures GetPhotonSourceAllDaughters(db, rank, nuclideName) == Spectrum(db, DecayPaths(db, rank, nuclideName))
    decreases Height(db, rank, nuclideName), 0
  {
    if nuclideName in db.decayDatabase && nuclideName in db.radiationDatabase {
      var decayData := db.decayDatabase[nuclideName];
      var own := db.radiationDatabase[nuclideName];
      var names, ratios := decayData.daughterNuclideNames, decayData.daughterNuclideRatios;
      var start := Appended(Empty, own, DefaultYieldMultiplier);
      AppendDaughterSourcesIsSpectrum(db, rank, rank[nuclideName], start, names, ratios);
      var head := [Contribution(nuclideName, 1.0)];
      var tail := DaughterPaths(db, rank, rank[nuclideName], names, ratios);
      SpectrumConcat(db, head, tail);
      assert head[1..] == [];
      ConcatEmpty(Scaled(own, 1.0));
    }
  }

  lemma {:induction false} AppendDaughterSourcesIsSpectrum(db: Database, rank: map<string, nat>, bound: nat,
                                                           photonSource: RadiationData, names: seq<string>, ratios: seq<real>)
    requires Ranked(db, rank)
    requires DaughtersBelow(db, rank, names, bound)
    requires |names| <= |ratios|
    ensures AppendDaughterSources(db, rank, bound, photonSource, names, ratios)
         == Concat(photonSource, Spectrum(db, DaughterPaths(db, rank, bound, names, ratios)))
    decreases bound, |names|
  {
    if names == [] {
      ConcatEmpty(photonSource);
    } else {
      var d := GetPhotonSourceAllDaughters(db, rank, names[0]);
      var paths := DecayPaths(db, rank, names[0]);
      var rest := DaughterPaths(db, rank, bound, names[1..], ratios[1..]);
      AllDaughtersIsSpectrumOfPaths(db, rank, names[0]);
      AppendDaughterSourcesIsSpectrum(db, rank, bound, Appended(photonSource, d, ratios[0]), names[1..], ratios[1..]);
      SpectrumWeighted(db, paths, ratios[0]);
      SpectrumConcat(db, Weighted(paths, ratios[0]), rest);
      ConcatAssociative(photonSource, Scaled(d, ratios[0]), Spectrum(db, rest));
    }
  }

  // ---------------------------------------------------------------------------
  // Consequences

  /** A nuclide without daughters aggregates to exactly its own spectrum. */
  lemma AllDaughtersWithoutDaughters(db: Database, rank: map<string, nat>, nuclideName: string)
    requires Ranked(db, rank)
    requires nuclideName in db.decayDatabase && nuclideName in db.radiationDatabase
    requires db.decayDatabase[nuclideName].daughterNuclideNames == []
    ensures GetPhotonSourceAllDaughters(db, rank, nuclideName) == db.radiationDatabase[nuclideName]
    ensures GetPhotonSourceAllDaughters(db, rank, nuclideName) == GetPhotonSource(db, nuclideName)
  {
    AppendedToEmpty(db.radiationDatabase[nuclideName]);
  }

  /** The aggregated spectrum starts with the nuclide's own entries, unscaled. */
  lemma AllDaughtersStartsWithOwn(db: Database, rank: map<string, nat>, nuclideName: string)
    requires Ranked(db, rank)
    requires nuclideName in db.decayDatabase && nuclideName in db.radiationDatabase
    ensures var r := GetPhotonSourceAllDaughters(db, rank, nuclideName);
            var own := db.radiationDatabase[nuclideName];
            |own.photonEnergies| <= |r.photonEnergies| && |own.photonYields| <= |r.photonYields|
            && r.photonEnergies[..|own.photonEnergies|] == own.photonEnergies
            && r.photonYields[..|own.photonYields|] == own.photonYields
  {
    var own := db.radiationDatabase[nuclideName];
    AllDaughtersIsSpectrumOfPaths(db, rank, nuclideName);
    var paths := DecayPaths(db, rank, nuclideName);
    ScaledByOne(own);
    assert Spectrum(db, paths) == Concat(own, Spectrum(db, paths[1..]));
  }

  /** A two-level chain A -> B with ratio `ratio`, B without daughters: A's own
      entries followed by B's entries with yields times `ratio`. */
  lemma TwoLevelChain(db: Database, rank: map<string, nat>, a: string, b: string, ratio: real)
    requires Ranked(db, rank)
    requires a in db.decayDatabase && a in db.radiationDatabase
    requires b in db.decayDatabase && b in db.radiationDatabase
    requires db.decayDatabase[a].daughterNuclideNames == [b]
    requires db.decayDatabase[a].daughterNuclideRatios == [ratio]
    requires db.decayDatabase[b].daughterNuclideNames == []
    ensures GetPhotonSourceAllDaughters(db, rank, a)
         == Appended(db.radiationDatabase[a], db.radiationDatabase[b], ratio)
  {
    AllDaughtersWithoutDaughters(db, rank, b);
    AppendedToEmpty(db.radiationDatabase[a]);
    assert [b][1..] == [] && [ratio][1..] == [];
    var start := Appended(Empty, db.radiationDatabase[a], DefaultYieldMultiplier);
    assert GetPhotonSourceAllDaughters(db, rank, a) == AppendDaughterSources(db, rank, rank[a], start, [b], [ratio]);
    assert AppendDaughterSources(db, rank, rank[a], start, [b], [ratio])
        == AppendDaughterSources(db, rank, rank[a], Appended(start, GetPhotonSourceAllDaughters(db, rank, b), ratio), [], []);
  }

  /** A decay cycle A -> B -> A in which B has no radiation data: the call for
      B returns the empty record at once, so the table is ranked and A gets
      exactly its own spectrum. */
  lemma CycleThroughRadiationlessNuclide(a: string, b: string, ratio: real, own: RadiationData)
    requires a != b
    ensures var db := Database(map[a := DecayData("", "", [b], [ratio]), b := DecayData("", "", [a], [1.0])],
                               map[a := own]);
            && Ranked(db, map[a := 0])
            && GetPhotonSourceAllDaughters(db, map[a := 0], a) == own
  {
    var db := Database(map[a := DecayData("", "", [b], [ratio]), b := DecayData("", "", [a], [1.0])],
                       map[a := own]);
    var rank := map[a := 0];
    assert Ranked(db, rank);
    AppendedToEmpty(own);
    var start := Appended(Empty, own, DefaultYieldMultiplier);
    assert GetPhotonSourceAllDaughters(db, rank, b) == Empty;
    assert [b][1..] == [] && [ratio][1..] == [];
    assert GetPhotonSourceAllDaughters(db, rank, a)
        == AppendDaughterSources(db, rank, 0, Appended(start, Empty, ratio), [], []);
    ConcatEmpty(own);
  }

  /** Every energy of the aggregated spectrum is an energy of a reached nuclide's
      own spectrum: aggregation scales yields and never alters an energy. */
  lemma {:induction false} SpectrumEnergiesFromRecords(db: Database, cs: seq<Contribution>, k: nat)
    requires forall i :: 0 <= i < |cs| ==> cs[i].nuclide in db.radiationDatabase
    requires k < |Spectrum(db, cs).photonEnergies|
    ensures exists i :: 0 <= i < |cs| && Spectrum(db, cs).photonEnergies[k] in db.radiationDatabase[cs[i].nuclide].photonEnergies
    decreases |cs|
  {
    var own := db.radiationDatabase[cs[0].nuclide];
    if k < |own.photonEnergies| {
      assert Spectrum(db, cs).photonEnergies[k] == own.photonEnergies[k];
    } else {
      SpectrumEnergiesFromRecords(db, cs[1..], k - |own.photonEnergies|);
      var i :| 0 <= i < |cs[1..]| && Spectrum(db, cs[1..]).photonEnergies[k - |own.photonEnergies|]
                                     in db.radiationDatabase[cs[1..][i].nuclide].photonEnergies;
      assert Spectrum(db, cs).photonEnergies[k] == Spectrum(db, cs[1..]).photonEnergies[k - |own.photonEnergies|];
      assert cs[1..][i] == cs[i + 1];
    }
  }

  lemma AllDaughtersEnergiesFromRecords(db: Database, rank: map<string, nat>, nuclideName: string, k: nat)
    requires Ranked(db, rank)
    requires k < |GetPhotonSourceAllDaughters(db, rank, nuclideName).photonEnergies|
    ensures exists n :: n in db.radiationDatabase
              && GetPhotonSourceAllDaughters(db, rank, nuclideName).photonEnergies[k] in db.radiationDatabase[n].photonEnergies
  {
    AllDaughtersIsSpectrumOfPaths(db, rank, nuclideName);
    var cs := DecayPaths(db, rank, nuclideName);
    SpectrumEnergiesFromRecords(db, cs, k);
  }

  // ---------------------------------------------------------------------------
  // In-place operations on a RadiationData held by reference

  /** A RadiationData passed by reference and updated in place. */
  class RadiationBuffer {
    var photonEnergies: seq<real>
    var photonYields: seq<real>

    function Data(): RadiationData
      reads this
    {
      RadiationData(photonEnergies, photonYields)
    }

    constructor (d: RadiationData)
      ensures Data() == d
    {
      photonEnergies := d.photonEnergies;
      photonYields := d.photonYields;
    }

    /** Scales the yields of (a copy of) `newData` by `yieldMultiplier`, then
        appends its energies and yields at the end of this record. */
    method AppendRadiationData(newData: RadiationData, yieldMultiplier: real)
      modifies this
      ensures Data() == Appended(old(Data()), newData, yieldMultiplier)
    {
      var scaled := newData.photonYields;
      for i := 0 to |scaled|
        invariant |scaled| == |newData.photonYields|
        invariant forall k :: 0 <= k < i ==> scaled[k] == newData.photonYields[k] * yieldMultiplier
        invariant forall k :: i <= k < |scaled| ==> scaled[k] == newData.photonYields[k]
      {
        scaled := scaled[i := scaled[i] * yieldMultiplier];
      }
      assert forall k :: 0 <= k < |scaled| ==> scaled[k] == ScaleAll(newData.photonYields, yieldMultiplier)[k];
      photonEnergies := photonEnergies + newData.photonEnergies;
      photonYields := photonYields + scaled;
    }

    /** Walks both lists together and erases every pair whose energy is below
        `minimumEnergy`; the others stay, in order. */
    method RemoveRadiationDataByMinimumEnergy(minimumEnergy: real)
      requires Data().Valid()
      modifies this
      ensures Data() == KeptAbove(old(Data()), minimumEnergy)
    {
      ghost var original := Data();
      var i := 0;
      ghost var j := 0;
      while i < |photonEnergies|
        invariant 0 <= i <= |photonEnergies| && j <= |original.photonEnergies|
        invariant |photonEnergies| == |photonYields|
        invariant photonEnergies[..i] == KeptAbove(Take(original, j), minimumEnergy).photonEnergies
        invariant photonYields[..i] == KeptAbove(Take(original, j), minimumEnergy).photonYields
        invariant photonEnergies[i..] == original.photonEnergies[j..]
        invariant photonYields[i..] == original.photonYields[j..]
        decreases |photonEnergies| - i
      {
        KeptAboveStep(original, j, minimumEnergy);
        if photonEnergies[i] < minimumEnergy {
          EraseStep(photonEnergies, i, original.photonEnergies, j);
          EraseStep(photonYields, i, original.photonYields, j);
          photonEnergies := photonEnergies[..i] + photonEnergies[i + 1..];
          photonYields := photonYields[..i] + photonYields[i + 1..];
        } else {
          KeepStep(photonEnergies, i, original.photonEnergies, j);
          KeepStep(photonYields, i, original.photonYields, j);
          i := i + 1;
        }
        j := j + 1;
      }
      assert Take(original, j) == original;
    }
  }
}
