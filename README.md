# Biased particle gun over the ICRP Publication 107 decay data

This project models the core of a Geant4 example application. It has two parts.

The first part is the ICRP Publication 107 data manager. It reads two tables: the NDX table of decay records
(half-life, decay mode, up to four daughters with branching ratios) and the RAD table of emitted radiations.
From them it answers one question: which photon lines, with which yields, does a nuclide emit? The answer can
cover the nuclide alone or the nuclide and all its daughters, each daughter weighted by its branching ratio.
It also offers two list operations on such a spectrum: appending one spectrum to another with a yield
multiplier, and removing every line below an energy cut.

The second part is the advanced particle gun. It is a particle gun configured with:

- a source volume: positions are sampled uniformly inside it by rejection from its bounding box, then
  carried out to world coordinates through the chain of mother volumes;
- a target volume with a margin: directions are sampled in the cone from the source point that encloses the
  target's bounding box. The vertex weight is multiplied by the cone's solid-angle fraction `(1 - cos θ)/2`;
- a nuclide and a minimum photon energy: the energy is a line of the nuclide's full-chain photon spectrum
  above the cut, the particle is a gamma, and the weight is multiplied by the spectrum's total yield.

Modules:

- `ICRP07Records`: the decay and radiation records. It defines the value-level operations the manager
  performs on spectra (`Appended`, `KeptAbove`, `Sum`) and the algebra proved about them.
- `ICRP07Manager`: the two maps as one `Database` value and the two spectrum queries. `DecayPaths` is an
  independent reference definition of the full-chain query. `RadiationBuffer` holds the two in-place list
  operations.
- `ICRP07Import`: the NDX and RAD readers over tokenised lines. They are specified by functions and
  implemented by the loops of `Tables`. Both readers have round-trip lemmas.
- `GunGeometry`: placements, the mother-volume chain, the rejection sampler and the apex half-angle.
- `ParticleGun`: the gun's configuration and the event it generates. `Event` is the reference definition of
  one event. `SampleEvent` and `AdvancedParticleGun.GeneratePrimaryVertex` are proved against it.

Environment inputs are given as parameters:

- Random numbers are a finite `EventDraws` value.
- Geometric primitives the model does not compute are collected in `VectorOps`: angle between vectors,
  cosine, rotation of a vector about an axis, and the parallel test.
- Text-to-number conversions are collected in `Conversions`.

## Model

| member | source | states |
|---|---|---|
| ICRP07Records.Appended | src/ICRP07Manager.cc:93-101 | the energies are the original energies followed by the new ones; the yields are the original yields followed by each new yield times the multiplier; equal-length lists stay equal-length |
| ICRP07Records.KeptAbove | src/ICRP07Manager.cc:103-121 | the result has equal-length lists, is no longer than the input, and every energy left is at least the minimum |
| ICRP07Records.KeptAboveMembership | src/ICRP07Manager.cc:103-121 | an (energy, yield) pair survives the cut if and only if it was in the input and its energy is at least the minimum |
| ICRP07Records.KeptAboveCount | src/ICRP07Manager.cc:108-120 | the number of lines left is the number of input energies at or above the minimum |
| ICRP07Records.KeptAboveUnchanged | src/ICRP07Manager.cc:108-120 | a spectrum whose energies all reach the minimum is left unchanged |
| ICRP07Records.KeptAboveIdempotent | src/ICRP07Manager.cc:103-121 | cutting twice at the same energy is cutting once |
| ICRP07Records.KeptAboveConcat | src/ICRP07Manager.cc:103-121 | cutting a concatenation is concatenating the cuts |
| ICRP07Records.KeptAboveScaled | src/ICRP07Manager.cc:95-97 | scaling the yields commutes with the energy cut |
| ICRP07Records.KeptAboveAppended | src/ICRP07Manager.cc:93-121 | cutting after an append is appending the cut spectra |
| ICRP07Records.ScaledTwice | src/ICRP07Manager.cc:95-97 | scaling by m1 and then by m2 is scaling by m1·m2, which is what nested branching ratios rely on |
| ICRP07Records.ScaledByOne | include/ICRP07Manager.hh:51 | the default yield multiplier 1 leaves a spectrum unchanged |
| ICRP07Records.AppendedToEmpty | src/ICRP07Manager.cc:63-64 | appending to an empty spectrum with the default multiplier gives a copy of the appended spectrum |
| ICRP07Records.ConcatAssociative | src/ICRP07Manager.cc:99-100 | appending spectra is associative |
| ICRP07Records.TotalYieldAppended | src/ICRP07Manager.cc:93-101 | the total yield after an append is the old total plus the multiplier times the new total |
| ICRP07Records.TotalYieldKeptAbove | src/ICRP07Manager.cc:103-121 | with non-negative yields, the cut keeps the yields non-negative and the total yield never grows |
| ICRP07Manager.RadiationBuffer.AppendRadiationData | src/ICRP07Manager.cc:93-101 | the list held in place becomes `Appended` of the old list, the new data and the multiplier |
| ICRP07Manager.RadiationBuffer.RemoveRadiationDataByMinimumEnergy | src/ICRP07Manager.cc:103-121 | the erase loop over paired iterators leaves exactly `KeptAbove` of the old list |
| ICRP07Manager.RadiationBuffer.constructor | include/ICRP07Manager.hh:18-22 | the buffer holds the given spectrum |
| ICRP07Manager.GetPhotonSource | src/ICRP07Manager.cc:54-67 | the nuclide's own spectrum when it is in both maps, the empty spectrum otherwise |
| ICRP07Manager.GetPhotonSourceAllDaughters | src/ICRP07Manager.cc:69-91 | the empty spectrum when the nuclide is missing from either map; equal-length lists whenever the stored spectra have them |
| ICRP07Manager.AppendDaughterSources | src/ICRP07Manager.cc:80-88 | the daughter loop: each daughter's full-chain spectrum, in daughter order, appended with its yields times that daughter's branching ratio; equal-length lists stay equal-length |
| ICRP07Manager.AllDaughtersIsSpectrumOfPaths | src/ICRP07Manager.cc:69-91 | the recursive query equals the spectrum of every decay path from the nuclide (`DecayPaths`), each path's record weighted by the product of the branching ratios along it |
| ICRP07Manager.AllDaughtersStartsWithOwn | src/ICRP07Manager.cc:77-78 | the full-chain spectrum begins with the nuclide's own spectrum |
| ICRP07Manager.AllDaughtersWithoutDaughters | src/ICRP07Manager.cc:80-88 | a nuclide without daughters gets exactly its own spectrum, the same as `GetPhotonSource` |
| ICRP07Manager.TwoLevelChain | src/ICRP07Manager.cc:80-88 | for a parent with one daughter, the result is the parent's spectrum followed by the daughter's, with the daughter's yields times the ratio |
| ICRP07Manager.CycleThroughRadiationlessNuclide | src/ICRP07Manager.cc:72-75 | a decay cycle A → B → A where B has no radiation data is admitted, and A's full-chain spectrum is its own spectrum, because the call for B returns the empty record at once |
| ICRP07Manager.AllDaughtersEnergiesFromRecords | src/ICRP07Manager.cc:69-91 | every energy in the full-chain spectrum is an energy of some stored nuclide record |
| ICRP07Import.ParseNDXLine | src/ICRP07Manager.cc:139-161 | the key is the first token; half-life and decay mode are the next two; at most four daughters, as many ratios as daughters |
| ICRP07Import.ScanDaughters | src/ICRP07Manager.cc:148-159 | up to four (daughter, skipped, ratio) triples from the eighth token; names and ratios grow together, by at most the number of slots, keep what was read before, and no added name is "0" (the scan stops there) |
| ICRP07Import.ReadDaughters | src/ICRP07Manager.cc:148-159 | the daughter loop reads triples from the eighth token and stops at "0", which yields the names, ratios and `tmp` of `ScanDaughters` |
| ICRP07Import.NDXFrom | src/ICRP07Manager.cc:137-162 | each line from the given index on is parsed with the `tmp` left by the line before and stored under its name; a later line with the same name overwrites an earlier one |
| ICRP07Import.NDXImport | src/ICRP07Manager.cc:123-165 | the header line is skipped, `tmp` starts empty, and every later line is parsed and stored as `NDXFrom` says |
| ICRP07Import.NDXImportKeys | src/ICRP07Manager.cc:135-162 | a name is a key after the import if and only if it was a key before or it heads some line after the header |
| ICRP07Import.NDXImportBounded | src/ICRP07Manager.cc:146-159 | every stored decay record has at most four daughters and as many ratios as daughters |
| ICRP07Import.BlankNDXLine | src/ICRP07Manager.cc:137-161 | a token-less line is stored under the empty name with empty half-life and mode, and leaves every other key as it was |
| ICRP07Import.ParseEncodedNDX | src/ICRP07Manager.cc:145-159 | the line of a well-formed record parses back to that record, whatever `tmp` held before |
| ICRP07Import.NDXRoundTrip | src/ICRP07Manager.cc:123-165 | a header followed by the lines of well-formed records imports as those records, stored in order |
| ICRP07Import.Tables.ImportNDX | src/ICRP07Manager.cc:123-165 | the loop leaves the decay map equal to `NDXImport` of the lines over the old map; the radiation map is unchanged |
| ICRP07Import.ReadRow | src/ICRP07Manager.cc:196-204 | one non-name row: a photon code (1, 2, 3) appends one (energy, yield) line and keeps the earlier ones; `nextName` is untouched. With `skipBlank` false a token-less row reuses the previous code and `tmp`, as written; with `skipBlank` true it is ignored |
| ICRP07Import.ReadBlock | src/ICRP07Manager.cc:185-205 | the inner loop: rows up to and including the next name line, whose first token becomes `nextName`; it moves past at least one line when any remain, never past the end, and keeps the block's lists equal in length |
| ICRP07Import.RADFrom | src/ICRP07Manager.cc:180-210 | the outer loop: each block is stored under the name read at the boundary before it, unless that name is empty; `iCode` starts at 0 in each block and `tmp` carries over |
| ICRP07Import.RADImport | src/ICRP07Manager.cc:167-213 | the whole RAD reader from empty `name`, `nextName` and `tmp`. With `skipBlank` false it is the reader as written; with `skipBlank` true it is the corrected reader that ignores token-less lines |
| ICRP07Import.RADImportValid | src/ICRP07Manager.cc:196-204 | every spectrum stored by either reader has as many yields as energies |
| ICRP07Import.RADImportKeepsEmptyName | src/ICRP07Manager.cc:207-209 | nothing is ever stored under the empty name, so the rows before the first name line are dropped |
| ICRP07Import.RADImportWithoutNameLine | src/ICRP07Manager.cc:180-210 | lines without a name line leave the map unchanged |
| ICRP07Import.RADRoundTrip | src/ICRP07Manager.cc:167-213 | with blank lines skipped (the corrected reader), a preamble without name lines, then blocks of name line and rows, then the final blank line, imports as each block's photon rows (codes 1, 2, 3) stored under its name |
| ICRP07Import.Tables.ImportRAD | src/ICRP07Manager.cc:167-213 | the nested loops leave the radiation map equal to `RADImport` with blank lines skipped; the decay map is unchanged |
| ICRP07Import.Tables.constructor | src/ICRP07Manager.cc:45-52 | starting from empty maps, both tables are imported: the decay map is `NDXImport` and the radiation map is `RADImport` with blank lines skipped (the corrected reader) |
| ICRP07Import.RADImportAgree | src/ICRP07Manager.cc:185-204 | on lines that all carry at least one token, the reader as written and the corrected reader store the same table |
| ICRP07Import.BlankLineDuplicatesLastRow | src/ICRP07Manager.cc:185-204 | as written, a Cs-137 block of one gamma row followed by the blank last line stores two lines, the second with the energy text as its yield |
| ICRP07Import.BlankLineIgnoredWhenSkipped | src/ICRP07Manager.cc:185-204 | the corrected reader stores the one gamma row of the same lines |
| GunGeometry.ToWorld | src/AdvancedParticleGun.cc:135-148 | a point of a top-level volume is already in world coordinates |
| GunGeometry.ConvertCoordVolume2World | src/AdvancedParticleGun.cc:135-148 | the loop up the mother chain gives `ToWorld`, each step rotating the point and adding the translation |
| GunGeometry.ToWorldTranslates | src/AdvancedParticleGun.cc:139-145 | without rotations, the world point is the local point plus the sum of the translations up the chain |
| GunGeometry.FirstInside | src/AdvancedParticleGun.cc:91-98 | a sampled point is inside the solid and is the candidate of some draw; there is no point exactly when every draw is rejected |
| GunGeometry.SampleWithinBounds | src/AdvancedParticleGun.cc:89-98 | with unit draws, a sampled point lies within the solid's bounding box |
| GunGeometry.SamplePointFromVolume | src/AdvancedParticleGun.cc:85-100 | the rejection loop returns `FirstInside` of the volume's solid and the draws |
| GunGeometry.MaxFrom | src/AdvancedParticleGun.cc:125-130 | the running maximum is at least the start and every angle, and equals one of them |
| GunGeometry.CornerDirections | src/AdvancedParticleGun.cc:114-123 | eight directions, one from the point to each corner of the box |
| GunGeometry.ApexHalfAngle | src/AdvancedParticleGun.cc:102-133 | the bounding box grown by the margin, its two corners taken to the world separately, and the largest angle from the point between the direction to the volume's centre and the eight corners assembled from them, or 0 |
| GunGeometry.GetApexHalfAngleToVolume | src/AdvancedParticleGun.cc:102-133 | the loop over the eight corners gives `ApexHalfAngle`, which is non-negative |
| GunGeometry.ApexHalfAngleIsMaximum | src/AdvancedParticleGun.cc:125-130 | the apex half-angle is at least the angle to every corner and equals the angle to one of them, or is 0 |
| GunGeometry.CornersExactWithoutRotation | src/AdvancedParticleGun.cc:107-112 | without rotations, a corner of the transformed box is the transform of the corresponding local corner |
| ParticleGun.EventWeight | src/AdvancedParticleGun.cc:29-71 | the weight starts at 1, is multiplied by the cone factor when a target is set, and by the total yield when a nuclide is set |
| ParticleGun.Direction | src/AdvancedParticleGun.cc:44-58 | the isotropic draw when the cone is at least a half-space; otherwise the cone sample turned from +Z onto the direction to the target's centre, or, when that direction is parallel to Z, multiplied by the Z component of its unit vector |
| ParticleGun.ConeFactor | src/AdvancedParticleGun.cc:45-49 | a cone with cosine at most 0 leaves the weight alone; a narrower cone gives a factor in [0, 0.5) |
| ParticleGun.ConeFactorDecreasing | src/AdvancedParticleGun.cc:49 | a narrower cone has a smaller factor |
| ParticleGun.EventWeightCases | src/AdvancedParticleGun.cc:29-75 | the weight is 1 with nothing set, the cone factor with a target alone, and the total yield with a nuclide alone or a half-space cone |
| ParticleGun.EventWeightBounds | src/AdvancedParticleGun.cc:49-75 | with a nuclide, a non-negative total yield and a cosine at most 1, the weight lies between 0 and the total yield |
| ParticleGun.Round | src/AdvancedParticleGun.cc:74 | `std::round`: the result is within one half of the argument, and halves round away from zero |
| ParticleGun.EnergyIndex | src/AdvancedParticleGun.cc:74 | the sampler's draw times the spectrum length, rounded |
| ParticleGun.EnergyIndexInRange | src/AdvancedParticleGun.cc:74-75 | the rounded index is a valid index exactly when u·n + 1/2 < n |
| ParticleGun.BinDrawIndex | src/AdvancedParticleGun.cc:73-75 | a draw k/n of the non-interpolating sampler (k < n) rounds back to index k, so every draw it makes reads a line of a non-empty spectrum |
| ParticleGun.EmptySpectrumReadsPastEnd | src/AdvancedParticleGun.cc:73-75 | with an empty spectrum after the cut, the index is 0 for any draw, which is past the end |
| ParticleGun.PhotonSpectrum | src/AdvancedParticleGun.cc:65-66 | the sampled spectrum has as many yields as energies and every energy is at least the minimum |
| ParticleGun.WeightAtMostUncutYield | src/AdvancedParticleGun.cc:66-75 | the weight is at most the total yield of the uncut full-chain spectrum |
| ParticleGun.TotalYield | src/AdvancedParticleGun.cc:68-70 | the summing loop gives `Sum` of the yields |
| ParticleGun.AimAtTarget | src/AdvancedParticleGun.cc:40-59 | the cone factor is `ConeFactor` of the cosine of the apex half-angle, and the direction is `Direction` of that cosine |
| ParticleGun.SamplePhotonEnergy | src/AdvancedParticleGun.cc:64-78 | the energy is the line of the cut spectrum at the sampled index, and the total yield is that spectrum's `Sum` |
| ParticleGun.SourcePosition | src/AdvancedParticleGun.cc:31-36 | no position exactly when a source is set and every draw is rejected; without a source, the current position |
| ParticleGun.Event | src/AdvancedParticleGun.cc:27-83 | no event exactly when a source is set and the rejection sampler runs out of draws |
| ParticleGun.SampleEvent | src/AdvancedParticleGun.cc:27-83 | the body of the event generation gives `Event` |
| ParticleGun.EventUnconfigured | src/AdvancedParticleGun.cc:27-83 | with nothing configured, the particle is emitted unchanged with weight 1 |
| ParticleGun.EventStartsInSource | src/AdvancedParticleGun.cc:31-36 | with a source, the vertex position is the world image of a point inside the source solid |
| ParticleGun.EventEnergyFromSpectrum | src/AdvancedParticleGun.cc:62-79 | with a nuclide, the particle is a gamma whose energy reaches the cut and is a line of the uncut full-chain spectrum |
| ParticleGun.EventWeightAtMostYield | src/AdvancedParticleGun.cc:29-82 | with a nuclide and non-negative yields, the vertex weight lies between 0 and the uncut total yield |
| ParticleGun.EventWithoutTarget | src/AdvancedParticleGun.cc:38-60 | without a target, the direction is the gun's own and the weight is 1 or the total yield |
| ParticleGun.EventWideCone | src/AdvancedParticleGun.cc:45-46 | when the cone is at least a half-space, the direction is isotropic and the cone does not change the weight |
| ParticleGun.AdvancedParticleGun.constructor | src/AdvancedParticleGun.cc:18-21 | no volumes, margin 0, no nuclide, cut 0; the base gun's particle state as given |
| ParticleGun.AdvancedParticleGun.SetSourceVolume | include/AdvancedParticleGun.hh:19-24 | the source becomes the argument, with a warning exactly for a null volume; nothing else changes |
| ParticleGun.AdvancedParticleGun.SetSourceVolumeByName | include/AdvancedParticleGun.hh:25-31 | the source becomes the named volume, or none with a warning when the store lacks the name |
| ParticleGun.AdvancedParticleGun.SetTargetVolume | include/AdvancedParticleGun.hh:34-40 | the target and margin become the arguments (margin 0 by default), with a warning for a null volume |
| ParticleGun.AdvancedParticleGun.SetTargetVolumeByName | include/AdvancedParticleGun.hh:41-48 | the target becomes the named volume or none with a warning; the margin is set in both cases |
| ParticleGun.AdvancedParticleGun.SetTargetVolumeMargin | include/AdvancedParticleGun.hh:49 | only the margin changes |
| ParticleGun.AdvancedParticleGun.SetNuclideSource | include/AdvancedParticleGun.hh:52 | only the nuclide name changes |
| ParticleGun.AdvancedParticleGun.SetMinPhotonEnergy | include/AdvancedParticleGun.hh:54 | only the energy cut changes |
| ParticleGun.AdvancedParticleGun.GeneratePrimaryVertex | src/AdvancedParticleGun.cc:27-83 | the emitted vertex is `Event` of the configuration and particle state before the call; the configuration is unchanged; the gun's particle state becomes the emitted one |

The getters `GetSourceVolume`, `GetTargetVolume`, `GetTargetVolumeMargin`, `GetNuclideSource` and
`GetMinPhotonEnergy` (include/AdvancedParticleGun.hh:32, 50, 51, 53, 55) are plain field reads. The setters'
contracts are stated in terms of these getters.

## Left out

- File access: the importers receive the lines `std::getline` returns up to end of file, already split into
  tokens. When a file cannot be opened, the importer warns and stores nothing; this is not modelled.
- The singleton instance and its mutex, the destructor, and the NDX/RAD print functions are not part of this
  model.
- Geant4 numerics are parameters, not computations: `std::cos`, vector angle, rotation, the parallel test,
  `G4RandomDirection`, `G4RandGeneral`, `G4UIcommand::ConvertToDouble` and the integer read of a row code.
  The MeV unit is the constant 1.
- The integer read of a row code takes the whole first token. A token such as "1abc", from which `>>` would
  read 1, is handed to the code conversion as it is.
- `iCode` is uninitialised at the start of each RAD block in the source. The model starts it at 0, which is
  not a photon code.
- The physical-volume store is a map from names to volumes, so names are unique. `WellPlaced` assumes that
  looking up each mother logical volume's name finds a volume, and that the mother chain ends at the world
  volume. When the lookup fails, the source dereferences a null pointer; that case is not modelled. `WellPlaced` is a
  condition on the whole store: a store holding a badly placed volume that no source or target chain reaches
  falls outside the model, although the source works on it.
- GunGeometry.SamplePointFromVolume: the source loops until a draw is accepted. The model consumes a finite
  sequence of draws and returns `None` when all of them are rejected.
- ParticleGun.Event: the `G4ParticleGun` base class is outside the model. The event is a value holding the
  particle state and the weight. The base gun's initial state is a constructor parameter.
- ParticleGun.SampleEvent, ParticleGun.AdvancedParticleGun.GeneratePrimaryVertex: require the sampled energy
  index to fall inside the cut spectrum. The energy draw is any real number rather than one of the bin edges
  k/n the non-interpolating sampler returns. For those draws the requirement holds exactly when the cut
  spectrum is not empty (`BinDrawIndex`). With an empty cut spectrum the source reads past the end of the
  vector (`EmptySpectrumReadsPastEnd`). `EnergyIndexInRange` states the exact condition for any draw.
- GunGeometry.GetApexHalfAngleToVolume: the eight corners are assembled from the transformed minimum and
  maximum corners, as the source does. They are the true box corners only without rotation
  (`CornersExactWithoutRotation`); other rotations are not stated.
- ICRP07Manager.RadiationBuffer.RemoveRadiationDataByMinimumEnergy: requires equal-length energy and yield
  lists. On a shorter yield list, the source's paired `erase` calls are undefined behaviour. On a longer
  yield list, the source stops at the end of the energies and leaves the extra yields in place; the model
  does not cover that case. Every list the program passes comes from the importers or from `Appended`,
  which keep the two lists equal in length (`RADImportValid`, `Appended`).
- ParticleGun.EventWeightAtMostYield: requires the cosine parameter to be at most 1, as `std::cos` is.
- ICRP07Import.BlankNDXLine: states only the key, half-life and mode of the record stored for the trailing
  blank line. Its daughters come from the stale `tmp` and are those of `ScanDaughters`.
- ICRP07Import.Tables.ImportRAD: models the corrected reader, which skips token-less lines (see Findings). The
  reader as written is `RADImport` with `skipBlank` false.
- ICRP07Manager.GetPhotonSourceAllDaughters: terminates on a ghost rank map that decreases from parent to
  daughter, for nuclides present in both maps. `Ranked` is a requirement on the whole table: it excludes
  every cycle through nuclides present in both maps. The source recurses without end only when the queried
  nuclide reaches such a cycle, so a table with a cycle that the query never reaches is outside the model.
  A cycle through a nuclide missing from either map is admitted (`CycleThroughRadiationlessNuclide`).
- ICRP07Records.ScaledTwice, ICRP07Manager.AllDaughtersIsSpectrumOfPaths: yields and ratios are exact real
  numbers. The source multiplies doubles one step at a time and rounds after each step. Scaling by m1 and
  then by m2 equals scaling by m1·m2 only over the reals. Floating-point rounding is not modelled anywhere.

## Findings

| source | as written | input that shows it | evidently intended | confidence | as-written member | corrected member |
|---|---|---|---|---|---|---|
| src/ICRP07Manager.cc:185-204 | a line without tokens is processed as a data row; `ss >> iCode` and `ss >> tmp` fail and keep the previous row's code and energy text | a file ending with a newline: the last `getline` returns an empty line after a block's last gamma row (Cs-137, code 1, yield 0.5, energy 0.662) | empty lines are ignored, so Cs-137 stores one line (0.662 MeV, yield 0.5) instead of a second one with yield 0.662 | high; not executed | ICRP07Import.BlankLineDuplicatesLastRow | ICRP07Import.Tables.ImportRAD |
